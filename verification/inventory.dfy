/**
 * The inventory management page: the filter over the transaction list and
 * the entry form opened for an IN, OUT, TRANSFER or WAREHOUSE entry.
 */
module Inventory {
  import opened Util
  import opened Types
  import JsNumber

  /** The search box matches the product name, the supplier or the customer. */
  predicate MatchesSearch(t: InventoryTransaction, term: string)
  {
    Includes(t.productName, term) || OptIncludes(t.supplier, term) || OptIncludes(t.customer, term)
  }

  /** The row filter; a `None` type is the "all types" choice, an empty term the empty search box. */
  function KeepTransaction(filterType: Option<InventoryTxType>, term: string): InventoryTransaction -> bool
  {
    (t: InventoryTransaction) =>
      (filterType.Some? ==> t.txType == filterType.value) && (term != "" ==> MatchesSearch(t, term))
  }

  /** `filteredTransactions`. */
  function FilterTransactions(ts: seq<InventoryTransaction>, filterType: Option<InventoryTxType>, term: string)
    : (r: seq<InventoryTransaction>)
    ensures IsSubsequence(r, ts)
    ensures filterType.Some? ==> forall t :: t in r ==> t.txType == filterType.value
    ensures term != "" ==> forall t :: t in r ==> MatchesSearch(t, term)
    ensures forall t ::
      (t in ts && (filterType.Some? ==> t.txType == filterType.value) && (term != "" ==> MatchesSearch(t, term)))
      ==> t in r
    // every copy of a matching row is kept
    ensures forall t :: KeepTransaction(filterType, term)(t) ==> multiset(r)[t] == multiset(ts)[t]
    ensures filterType.None? && term == "" ==> r == ts
  {
    Filter(ts, KeepTransaction(filterType, term))
  }

  /** The `type` the form was opened with. */
  datatype FormKind = InEntry | OutEntry | TransferEntry | WarehouseEntry

  /**
   * The form's `Partial<InventoryTransaction>`. `type`, `quantity` and `date`
   * are set from the start; every other field may still be absent.
   */
  datatype Draft = Draft(
    id: Option<string>,
    productId: Option<string>,
    productName: Option<string>,
    kind: FormKind,
    quantity: int,
    date: int,
    supplier: Option<string>,
    customer: Option<string>,
    department: Option<string>,
    sourceWarehouseId: Option<string>,
    destinationWarehouseId: Option<string>,
    notes: Option<string>)

  /** The form's initial state, opened at day `now`. */
  function NewDraft(kind: FormKind, now: int): (d: Draft)
    ensures d.kind == kind && d.quantity == 0 && d.date == now
    ensures d.id.None? && d.productId.None? && d.productName.None?
    ensures forall f :: TextOf(d, f).None?
  {
    Draft(None, None, None, kind, 0, now, None, None, None, None, None, None)
  }

  /** The inputs wired to `handleChange`. */
  datatype Field = Quantity | Supplier | Customer | Department | SourceWarehouse | DestinationWarehouse | Notes

  /** The text a field holds, for the fields that hold text. */
  function TextOf(d: Draft, f: Field): Option<string>
  {
    match f
    case Quantity => None
    case Supplier => d.supplier
    case Customer => d.customer
    case Department => d.department
    case SourceWarehouse => d.sourceWarehouseId
    case DestinationWarehouse => d.destinationWarehouseId
    case Notes => d.notes
  }

  /**
   * `handleChange`: the quantity input stores `Number(value)`, every other
   * input stores its text, and nothing else changes.
   */
  function Change(d: Draft, field: Field, value: string): (r: Draft)
    requires field == Quantity ==> JsNumber.IsIntegerText(value)
    ensures field == Quantity ==> r.quantity == JsNumber.Number(value) && r.(quantity := d.quantity) == d
    ensures field != Quantity ==> TextOf(r, field) == Some(value) && r.quantity == d.quantity
    ensures forall f :: f != field ==> TextOf(r, f) == TextOf(d, f)
    ensures r.id == d.id && r.productId == d.productId && r.productName == d.productName
    ensures r.kind == d.kind && r.date == d.date
  {
    match field
    case Quantity => d.(quantity := JsNumber.Number(value))
    case Supplier => d.(supplier := Some(value))
    case Customer => d.(customer := Some(value))
    case Department => d.(department := Some(value))
    case SourceWarehouse => d.(sourceWarehouseId := Some(value))
    case DestinationWarehouse => d.(destinationWarehouseId := Some(value))
    case Notes => d.(notes := Some(value))
  }

  /** The name of the first product with the given id, absent when no product has it. */
  function FindName(products: seq<Product>, id: string): (r: Option<string>)
    ensures r.Some? <==> exists i :: 0 <= i < |products| && products[i].id == id
    ensures r.Some? ==> exists i :: 0 <= i < |products| && products[i].id == id
                           && products[i].name == r.value
                           && forall j :: 0 <= j < i ==> products[j].id != id
  {
    if |products| == 0 then None
    else if products[0].id == id then Some(products[0].name)
    else
      var r := FindName(products[1..], id);
      if r.Some? then
        var i :| 0 <= i < |products[1..]| && products[1..][i].id == id
                 && products[1..][i].name == r.value
                 && forall j :: 0 <= j < i ==> products[1..][j].id != id;
        assert products[i + 1] == products[1..][i];
        r
      else r
  }

  /**
   * Choosing a product in the select stores its identifier and snapshots the
   * name of the first product with that identifier, or leaves the name
   * absent when there is none.
   */
  function SelectProduct(d: Draft, products: seq<Product>, value: string): (r: Draft)
    ensures r.productId == Some(value)
    ensures r.productName.Some? <==> exists i :: 0 <= i < |products| && products[i].id == value
    ensures r.productName.Some? ==> exists i :: 0 <= i < |products| && products[i].id == value
                                       && products[i].name == r.productName.value
    ensures r.(productId := d.productId, productName := d.productName) == d
  {
    d.(productId := Some(value), productName := FindName(products, value))
  }

  /** The alert raised by a rejected submission. */
  datatype SubmitError = MissingSupplier | MissingCustomerOrDepartment | MissingWarehouses

  /**
   * `handleSubmit` of a form opened as `kind`: the type-specific check, then
   * the record handed to `onSubmit` with a fresh identifier and date.
   */
  function Submit(kind: FormKind, d: Draft, newId: string, now: int): (r: Result<Draft, SubmitError>)
    ensures kind == InEntry ==> (r.Err? <==> !Truthy(d.supplier))
    ensures kind == OutEntry ==> (r.Err? <==> !Truthy(d.customer) && !Truthy(d.department))
    ensures kind == TransferEntry ==>
      (r.Err? <==> !Truthy(d.sourceWarehouseId) || !Truthy(d.destinationWarehouseId))
    ensures kind == WarehouseEntry ==> r.Ok?
    ensures r.Err? ==> r.error == match kind
      case InEntry => MissingSupplier
      case OutEntry => MissingCustomerOrDepartment
      case _ => MissingWarehouses
    ensures r.Ok? ==> r.value.id == Some(newId) && r.value.date == now
    ensures r.Ok? ==> r.value.(id := d.id, date := d.date) == d
  {
    if kind == InEntry && !Truthy(d.supplier) then Err(MissingSupplier)
    else if kind == OutEntry && !Truthy(d.customer) && !Truthy(d.department) then Err(MissingCustomerOrDepartment)
    else if kind == TransferEntry && (!Truthy(d.sourceWarehouseId) || !Truthy(d.destinationWarehouseId))
    then Err(MissingWarehouses)
    else Ok(d.(id := Some(newId), date := now))
  }

  /** A transfer whose source and destination are the same warehouse is accepted. */
  lemma SameWarehouseTransferAccepted(d: Draft, w: string, newId: string, now: int)
    requires w != ""
    requires d.sourceWarehouseId == Some(w) && d.destinationWarehouseId == Some(w)
    ensures Submit(TransferEntry, d, newId, now).Ok?
  {
  }

  /** A freshly opened form is rejected for every kind that checks a field. */
  lemma FreshFormRejected(kind: FormKind, now: int, newId: string)
    requires kind != WarehouseEntry
    ensures Submit(kind, NewDraft(kind, now), newId, now).Err?
  {
  }

  /** Filling in the required text of an IN form makes it acceptable. */
  lemma SupplierMakesInAcceptable(d: Draft, supplier: string, newId: string, now: int)
    requires supplier != ""
    ensures Submit(InEntry, Change(d, Supplier, supplier), newId, now).Ok?
  {
  }
}
