/**
 * The warehouse management page: the search over warehouses and the form
 * used to add or edit one.
 */
module Warehouses {
  import opened Util
  import opened Types
  import JsNumber

  /** The search box matches the warehouse's name or location. */
  predicate MatchesSearch(w: Warehouse, term: string)
  {
    Includes(w.name, term) || Includes(w.location, term)
  }

  function KeepWarehouse(term: string): Warehouse -> bool
  {
    (w: Warehouse) => MatchesSearch(w, term)
  }

  /** `filteredWarehouses`; there is no guard on the term, and every name includes "". */
  function FilterWarehouses(ws: seq<Warehouse>, term: string): (r: seq<Warehouse>)
    ensures IsSubsequence(r, ws)
    ensures forall w :: w in r <==> w in ws && MatchesSearch(w, term)
    // every copy of a matching warehouse is kept
    ensures forall w :: MatchesSearch(w, term) ==> multiset(r)[w] == multiset(ws)[w]
    ensures term == "" ==> r == ws
  {
    Filter(ws, KeepWarehouse(term))
  }

  /**
   * The form's state. Unlike a stored warehouse it always has a manager
   * (possibly with empty fields) and an inventory date.
   */
  datatype WarehouseForm = WarehouseForm(
    id: string,
    name: string,
    location: string,
    capacity: int,
    currentOccupancy: int,
    manager: Manager,
    products: seq<StockEntry>,
    status: WarehouseStatus,
    lastInventoryDate: int)

  /** The form's initial state: a copy of the warehouse being edited, or blank on day `today`. */
  function InitialForm(init: Option<Warehouse>, today: int): (f: WarehouseForm)
    ensures init.None? ==>
      && f.id == "" && f.name == "" && f.location == ""
      && f.capacity == 0 && f.currentOccupancy == 0
      && f.manager == Manager("", "") && f.products == []
      && f.status == Active && f.lastInventoryDate == today
    ensures init.Some? ==>
      && f.id == init.value.id && f.name == init.value.name && f.location == init.value.location
      && f.capacity == init.value.capacity && f.currentOccupancy == init.value.currentOccupancy
      && f.products == init.value.products && f.status == init.value.status
      && f.manager == (if init.value.manager.Some? then init.value.manager.value else Manager("", ""))
      && f.lastInventoryDate
         == (if init.value.lastInventoryDate.Some? then init.value.lastInventoryDate.value else today)
  {
    match init
    case None => WarehouseForm("", "", "", 0, 0, Manager("", ""), [], Active, today)
    case Some(w) =>
      WarehouseForm(
        w.id, w.name, w.location, w.capacity, w.currentOccupancy,
        match w.manager case Some(m) => m case None => Manager("", ""),
        w.products, w.status,
        match w.lastInventoryDate case Some(d) => d case None => today)
  }

  /** The inputs wired to `handleChange`; the two manager inputs are `manager.name` and `manager.contactInfo`. */
  datatype Field = Name | Location | Capacity | CurrentOccupancy | ManagerName | ManagerContact | Status

  /** The options of the status select. */
  function StatusOf(value: string): Option<WarehouseStatus>
  {
    if value == "ACTIVE" then Some(Active)
    else if value == "MAINTENANCE" then Some(Maintenance)
    else if value == "FULL" then Some(Full)
    else None
  }

  /** What an input may deliver: an integer text for the numeric inputs, an option of the status select. */
  predicate ValidInput(field: Field, value: string)
  {
    && ((field == Capacity || field == CurrentOccupancy) ==> JsNumber.IsIntegerText(value))
    && (field == Status ==> StatusOf(value).Some?)
  }

  /**
   * `handleChange`: a manager input changes only that manager sub-field, the
   * two numeric inputs store `Number(value)`, the rest store their text.
   */
  function Change(f: WarehouseForm, field: Field, value: string): (r: WarehouseForm)
    requires ValidInput(field, value)
    ensures field == ManagerName ==>
      r.manager.name == value && r.manager.contactInfo == f.manager.contactInfo && r.(manager := f.manager) == f
    ensures field == ManagerContact ==>
      r.manager.contactInfo == value && r.manager.name == f.manager.name && r.(manager := f.manager) == f
    ensures field == Capacity ==> r.capacity == JsNumber.Number(value) && r.(capacity := f.capacity) == f
    ensures field == CurrentOccupancy ==>
      r.currentOccupancy == JsNumber.Number(value) && r.(currentOccupancy := f.currentOccupancy) == f
    ensures field == Name ==> r.name == value && r.(name := f.name) == f
    ensures field == Location ==> r.location == value && r.(location := f.location) == f
    ensures field == Status ==> Some(r.status) == StatusOf(value) && r.(status := f.status) == f
  {
    match field
    case Name => f.(name := value)
    case Location => f.(location := value)
    case Capacity => f.(capacity := JsNumber.Number(value))
    case CurrentOccupancy => f.(currentOccupancy := JsNumber.Number(value))
    case ManagerName => f.(manager := f.manager.(name := value))
    case ManagerContact => f.(manager := f.manager.(contactInfo := value))
    case Status => f.(status := StatusOf(value).value)
  }

  /** Typing back the number an input shows leaves the stored number as it is. */
  lemma RetypingShownNumberKeepsIt(f: WarehouseForm, n: int)
    ensures Change(f, Capacity, JsNumber.Show(n)).capacity == n
    ensures Change(f, CurrentOccupancy, JsNumber.Show(n)).currentOccupancy == n
  {
    JsNumber.NumberOfShow(n);
  }

  /** The alert raised by a rejected submission. */
  datatype WarehouseError = MissingNameOrLocation | OccupancyOverCapacity

  /** The `as Warehouse` view of the form's state. */
  function ToWarehouse(f: WarehouseForm): Warehouse
  {
    Warehouse(f.id, f.name, f.location, f.capacity, f.currentOccupancy, Some(f.manager),
              f.products, f.status, Some(f.lastInventoryDate))
  }

  /** A warehouse `onSubmit` may receive: named, located, and not over capacity. */
  predicate WellFormed(w: Warehouse)
  {
    w.name != "" && w.location != "" && w.currentOccupancy <= w.capacity
  }

  /**
   * `handleSubmit`: the name/location check first, then the occupancy check;
   * an occupancy equal to the capacity passes.
   */
  function Submit(f: WarehouseForm): (r: Result<Warehouse, WarehouseError>)
    ensures r.Ok? <==> f.name != "" && f.location != "" && f.currentOccupancy <= f.capacity
    ensures (f.name == "" || f.location == "") ==> r == Err(MissingNameOrLocation)
    ensures f.name != "" && f.location != "" && f.currentOccupancy > f.capacity ==>
      r == Err(OccupancyOverCapacity)
    ensures r.Ok? ==> WellFormed(r.value) && r.value == ToWarehouse(f)
  {
    if f.name == "" || f.location == "" then Err(MissingNameOrLocation)
    else if f.currentOccupancy > f.capacity then Err(OccupancyOverCapacity)
    else Ok(ToWarehouse(f))
  }

  /** Saving an untouched edit form of a well-formed warehouse hands back that warehouse. */
  lemma UntouchedEditRoundTrips(w: Warehouse, today: int)
    requires WellFormed(w) && w.manager.Some? && w.lastInventoryDate.Some?
    ensures Submit(InitialForm(Some(w), today)) == Ok(w)
  {
  }

  /** A blank form is always rejected for its missing name, before any capacity check. */
  lemma BlankFormRejected(today: int)
    ensures Submit(InitialForm(None, today)) == Err(MissingNameOrLocation)
  {
  }
}
