/**
 * The records of the warehouse dashboard and its fixed role/permission table.
 * A `Date` is modelled as the local calendar day it falls on (an integer),
 * since every use in the modelled code compares dates by day.
 */
module Types {
  import opened Util

  datatype Image = Image(url: string, fileName: string)

  datatype Product = Product(
    id: string,
    name: string,
    code: string,
    category: string,
    currentStock: int,
    minStock: int,
    location: string,
    supplier: string,
    createdAt: int,
    image: Option<Image>,
    description: Option<string>,
    price: Option<int>,
    barcode: Option<string>)

  /** The two ledger entry kinds of the global store: 'in' and 'out'. */
  datatype TxType = In | Out

  datatype Transaction = Transaction(
    id: string,
    productId: string,
    productName: string,
    txType: TxType,
    quantity: int,
    date: int,
    supplier: Option<string>,
    customer: Option<string>,
    destination: Option<string>,
    notes: Option<string>)

  datatype UserRole = Admin | Staff | Viewer

  /** view/create/edit/delete rights, used for products and for user management. */
  datatype CrudRights = CrudRights(view: bool, create: bool, edit: bool, delete: bool)

  datatype TransactionRights = TransactionRights(view: bool, create: bool, edit: bool)

  datatype InventoryRights = InventoryRights(view: bool, update: bool)

  datatype ReportRights = ReportRights(view: bool, exportReports: bool)

  datatype Permission = Permission(
    dashboard: bool,
    products: CrudRights,
    transactions: TransactionRights,
    inventory: InventoryRights,
    reports: ReportRights,
    userManagement: CrudRights)

  datatype User = User(
    id: string,
    username: string,
    email: string,
    role: UserRole,
    firstName: Option<string>,
    lastName: Option<string>,
    lastLogin: Option<int>,
    isActive: bool)

  datatype DashboardStats = DashboardStats(
    totalProducts: int,
    todayIn: int,
    todayOut: int,
    lowStockProducts: int)

  datatype Manager = Manager(name: string, contactInfo: string)

  /** One line of a warehouse's embedded product tally. */
  datatype StockEntry = StockEntry(productId: string, productName: string, quantity: int)

  datatype WarehouseStatus = Active | Maintenance | Full

  datatype Warehouse = Warehouse(
    id: string,
    name: string,
    location: string,
    capacity: int,
    currentOccupancy: int,
    manager: Option<Manager>,
    products: seq<StockEntry>,
    status: WarehouseStatus,
    lastInventoryDate: Option<int>)

  /** The three entry kinds of the warehouse-level inventory pages. */
  datatype InventoryTxType = InStock | OutStock | Transfer

  datatype InventoryTransaction = InventoryTransaction(
    id: string,
    productId: string,
    productName: string,
    txType: InventoryTxType,
    quantity: int,
    sourceWarehouseId: Option<string>,
    destinationWarehouseId: Option<string>,
    supplier: Option<string>,
    customer: Option<string>,
    department: Option<string>,
    date: int,
    notes: Option<string>)

  /** Low stock: at or below the product's own threshold. */
  predicate IsLowStock(p: Product)
  {
    p.currentStock <= p.minStock
  }

  /** Every permission flag of a role, in declaration order. */
  function Flags(p: Permission): (fs: seq<bool>)
    ensures |fs| == 16
  {
    [p.dashboard,
     p.products.view, p.products.create, p.products.edit, p.products.delete,
     p.transactions.view, p.transactions.create, p.transactions.edit,
     p.inventory.view, p.inventory.update,
     p.reports.view, p.reports.exportReports,
     p.userManagement.view, p.userManagement.create, p.userManagement.edit, p.userManagement.delete]
  }

  /** Every flag granted by `p` is also granted by `q`. */
  predicate Grants(q: Permission, p: Permission)
  {
    forall i :: 0 <= i < |Flags(p)| ==> Flags(p)[i] ==> Flags(q)[i]
  }

  /** The static role-to-permission table. */
  function RolePermissions(role: UserRole): (p: Permission)
    // every role may look at every area except user management
    ensures p.dashboard && p.products.view && p.transactions.view && p.inventory.view && p.reports.view
    // user management belongs to administrators alone, all or nothing
    ensures p.userManagement.view <==> role == Admin
    ensures p.userManagement.create <==> role == Admin
    ensures p.userManagement.edit <==> role == Admin
    ensures p.userManagement.delete <==> role == Admin
    // the destructive and privileged actions are administrator-only
    ensures p.products.delete <==> role == Admin
    ensures p.transactions.edit <==> role == Admin
    ensures p.inventory.update <==> role == Admin
    ensures p.reports.exportReports <==> role == Admin
    // a viewer can change nothing
    ensures p.products.create <==> role != Viewer
    ensures p.products.edit <==> role != Viewer
    ensures p.transactions.create <==> role != Viewer
  {
    match role
    case Admin =>
      Permission(
        true,
        CrudRights(true, true, true, true),
        TransactionRights(true, true, true),
        InventoryRights(true, true),
        ReportRights(true, true),
        CrudRights(true, true, true, true))
    case Staff =>
      Permission(
        true,
        CrudRights(true, true, true, false),
        TransactionRights(true, true, false),
        InventoryRights(true, false),
        ReportRights(true, false),
        CrudRights(false, false, false, false))
    case Viewer =>
      Permission(
        true,
        CrudRights(true, false, false, false),
        TransactionRights(true, false, false),
        InventoryRights(true, false),
        ReportRights(true, false),
        CrudRights(false, false, false, false))
  }

  /** Seniority of a role: VIEWER below STAFF below ADMIN. */
  function Rank(role: UserRole): nat
  {
    match role
    case Viewer => 0
    case Staff => 1
    case Admin => 2
  }

  /** The administrator holds every flag of the table. */
  lemma AdminHoldsEverything()
    ensures forall i :: 0 <= i < |Flags(RolePermissions(Admin))| ==> Flags(RolePermissions(Admin))[i]
  {
  }

  /** A viewer holds only view rights: no create, edit, delete, update or export flag. */
  lemma ViewerOnlyViews()
    ensures var p := RolePermissions(Viewer);
      !p.products.create && !p.products.edit && !p.products.delete
      && !p.transactions.create && !p.transactions.edit
      && !p.inventory.update && !p.reports.exportReports
      && !p.userManagement.create && !p.userManagement.edit && !p.userManagement.delete
  {
  }

  /** Permissions grow with seniority: a senior role holds every flag a junior one holds. */
  lemma PermissionsMonotone(junior: UserRole, senior: UserRole)
    requires Rank(junior) <= Rank(senior)
    ensures Grants(RolePermissions(senior), RolePermissions(junior))
  {
  }
}
