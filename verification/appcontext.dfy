/**
 * The global store of the dashboard: the reducer that every dispatched action
 * goes through, and the statistics the dashboard derives from the store.
 */
module AppContext {
  import opened Util
  import opened Types

  datatype AppState = AppState(
    user: Option<User>,
    products: seq<Product>,
    transactions: seq<Transaction>,
    currentPage: string)

  /**
   * The eight actions of the store. The sample transactions are stamped with
   * the day the store module was loaded, which `LoadInitialData` carries.
   */
  datatype AppAction =
    | Login(user: User)
    | Logout
    | SetPage(page: string)
    | AddProduct(product: Product)
    | UpdateProduct(product: Product)
    | DeleteProduct(productId: string)
    | AddTransaction(tx: Transaction)
    | LoadInitialData(loadedOn: int)

  const LoginPage: string := "login"
  const DashboardPage: string := "dashboard"

  const InitialState: AppState := AppState(None, [], [], LoginPage)

  /** Days since 1970-01-01 of the sample products' creation dates. */
  const Jan15of2024: int := 19737
  const Jan20of2024: int := 19742
  const Feb01of2024: int := 19754

  const SampleProducts: seq<Product> := [
    Product("1", "لپ تاپ ایسوس", "LAP001", "الکترونیک", 15, 5, "انبار A-1",
            "شرکت تک\U{200C}نولوژی", Jan15of2024, None, None, None, None),
    Product("2", "موس بی\U{200C}سیم", "MOU001", "الکترونیک", 3, 10, "انبار A-2",
            "پخش رایانه", Jan20of2024, None, None, None, None),
    Product("3", "صندلی اداری", "CHR001", "اداری", 25, 8, "انبار B-1",
            "مبل سازان", Feb01of2024, None, None, None, None)
  ]

  function SampleTransactions(loadedOn: int): seq<Transaction>
  {
    [ Transaction("1", "1", "لپ تاپ ایسوس", In, 10, loadedOn,
                  Some("شرکت تک\U{200C}نولوژی"), None, None, Some("خرید جدید")),
      Transaction("2", "2", "موس بی\U{200C}سیم", Out, 5, loadedOn,
                  None, Some("دپارتمان IT"), None, Some("تحویل به واحد IT")) ]
  }

  /** Every product's stock is at least zero. */
  predicate StockNonNegative(ps: seq<Product>)
  {
    forall i :: 0 <= i < |ps| ==> ps[i].currentStock >= 0
  }

  /** Whether some product carries the identifier `id`. */
  predicate HasProduct(ps: seq<Product>, id: string)
  {
    exists i :: 0 <= i < |ps| && ps[i].id == id
  }

  /**
   * The stock of the product an entry names, once the entry is applied:
   * raised by an 'in', lowered by an 'out', and clamped at zero in both cases
   * instead of being rejected.
   */
  function StockAfter(stock: int, tx: Transaction): (r: int)
    ensures r >= 0
    ensures tx.txType == In && stock + tx.quantity >= 0 ==> r == stock + tx.quantity
    ensures tx.txType == In && stock + tx.quantity < 0 ==> r == 0
    ensures tx.txType == Out && tx.quantity <= stock ==> r == stock - tx.quantity
    ensures tx.txType == Out && tx.quantity > stock ==> r == 0
  {
    var newStock := if tx.txType == In then stock + tx.quantity else stock - tx.quantity;
    if newStock < 0 then 0 else newStock
  }

  /** The update map: every product carrying the payload's id is replaced by the payload, in place. */
  function ReplaceById(ps: seq<Product>, u: Product): (r: seq<Product>)
    ensures |r| == |ps|
    ensures forall i :: 0 <= i < |ps| && ps[i].id == u.id ==> r[i] == u
    ensures forall i :: 0 <= i < |ps| && ps[i].id != u.id ==> r[i] == ps[i]
  {
    if |ps| == 0 then []
    else [if ps[0].id == u.id then u else ps[0]] + ReplaceById(ps[1..], u)
  }

  /** The stock adjustment of `ADD_TRANSACTION`, applied to every product the entry names. */
  function ApplyEntry(ps: seq<Product>, tx: Transaction): (r: seq<Product>)
    ensures |r| == |ps|
    ensures forall i :: 0 <= i < |ps| ==> r[i] == ps[i].(currentStock := r[i].currentStock)
    ensures forall i :: 0 <= i < |ps| && ps[i].id != tx.productId ==> r[i] == ps[i]
    ensures forall i :: 0 <= i < |ps| && ps[i].id == tx.productId ==>
      r[i].currentStock == StockAfter(ps[i].currentStock, tx)
  {
    if |ps| == 0 then []
    else
      var p := ps[0];
      [if p.id == tx.productId then p.(currentStock := StockAfter(p.currentStock, tx)) else p]
      + ApplyEntry(ps[1..], tx)
  }

  /** The filter of `DELETE_PRODUCT`: keep the products with a different identifier. */
  function OtherId(id: string): Product -> bool
  {
    (p: Product) => p.id != id
  }

  /** The store's reducer: the state after one dispatched action. */
  function Reduce(state: AppState, action: AppAction): (r: AppState)
    // session actions change the session only
    ensures action.Login? ==> r.user == Some(action.user) && r.currentPage == DashboardPage
    ensures action.Logout? ==> r.user == None && r.currentPage == LoginPage
    ensures action.SetPage? ==> r.currentPage == action.page && r.user == state.user
    ensures action.Login? || action.Logout? || action.SetPage? ==>
      r.products == state.products && r.transactions == state.transactions
    // store actions never change the session
    ensures !(action.Login? || action.Logout? || action.SetPage?) ==>
      r.user == state.user && r.currentPage == state.currentPage
    // only ADD_TRANSACTION and LOAD_INITIAL_DATA touch the log, so deleting does not cascade
    ensures !(action.AddTransaction? || action.LoadInitialData?) ==> r.transactions == state.transactions
    ensures action.AddProduct? ==>
      |r.products| == |state.products| + 1 && r.products[..|state.products|] == state.products
      && r.products[|state.products|] == action.product
    ensures action.UpdateProduct? || action.AddTransaction? ==> |r.products| == |state.products|
    ensures action.DeleteProduct? ==>
      forall p :: p in r.products <==> p in state.products && p.id != action.productId
    ensures action.AddTransaction? ==>
      |r.transactions| == |state.transactions| + 1 && r.transactions[0] == action.tx
      && r.transactions[1..] == state.transactions
    ensures action.LoadInitialData? ==>
      |r.products| == 3 && |r.transactions| == 2 && StockNonNegative(r.products)
  {
    match action
    case Login(u) => state.(user := Some(u), currentPage := DashboardPage)
    case Logout => state.(user := None, currentPage := LoginPage)
    case SetPage(page) => state.(currentPage := page)
    case AddProduct(p) => state.(products := state.products + [p])
    case UpdateProduct(p) => state.(products := ReplaceById(state.products, p))
    case DeleteProduct(id) => state.(products := Filter(state.products, OtherId(id)))
    case AddTransaction(tx) =>
      state.(products := ApplyEntry(state.products, tx), transactions := [tx] + state.transactions)
    case LoadInitialData(day) =>
      state.(products := SampleProducts, transactions := SampleTransactions(day))
  }

  /** A run of actions dispatched one after another. */
  function Dispatch(state: AppState, actions: seq<AppAction>): AppState
    decreases |actions|
  {
    if |actions| == 0 then state else Dispatch(Reduce(state, actions[0]), actions[1..])
  }

  /** Days are compared after truncation, so a date is kept when it is `day`. */
  function OnDay(day: int): Transaction -> bool
  {
    (t: Transaction) => t.date == day
  }

  function OfType(ty: TxType): Transaction -> bool
  {
    (t: Transaction) => t.txType == ty
  }

  function Quantity(t: Transaction): int
  {
    t.quantity
  }

  /** Reference reading of a day's total: one pass over the log, adding matching entries. */
  function QuantityOn(txs: seq<Transaction>, day: int, ty: TxType): int
  {
    if |txs| == 0 then 0
    else (if txs[0].date == day && txs[0].txType == ty then txs[0].quantity else 0)
         + QuantityOn(txs[1..], day, ty)
  }

  /** Filtering by day, then by type, then summing equals the one-pass total. */
  lemma {:induction false} FilteredSumIsQuantityOn(txs: seq<Transaction>, day: int, ty: TxType)
    ensures SumOf(Filter(Filter(txs, OnDay(day)), OfType(ty)), Quantity) == QuantityOn(txs, day, ty)
    decreases |txs|
  {
    if |txs| > 0 {
      FilteredSumIsQuantityOn(txs[1..], day, ty);
      var t := txs[0];
      var inner := Filter(txs[1..], OnDay(day));
      if t.date == day {
        assert ([t] + inner)[1..] == inner;
        var outer := Filter(inner, OfType(ty));
        if t.txType == ty {
          assert ([t] + outer)[1..] == outer;
        }
      }
    }
  }

  /** No low-stock product is counted exactly when none is low. */
  lemma NoneLowIffEmpty(ps: seq<Product>)
    ensures |Filter(ps, IsLowStock)| == 0 <==> forall p :: p in ps ==> !IsLowStock(p)
  {
    var low := Filter(ps, IsLowStock);
    if |low| > 0 {
      assert low[0] in low;
    }
  }

  /**
   * `getDashboardStats` with "today" already truncated to a day: product
   * count, low-stock count, and the day's 'in' and 'out' totals.
   */
  function DashboardStatsOf(state: AppState, today: int): (s: DashboardStats)
    ensures s.totalProducts == |state.products|
    ensures 0 <= s.lowStockProducts <= s.totalProducts
    ensures s.lowStockProducts == 0 <==> forall p :: p in state.products ==> !IsLowStock(p)
    ensures s.todayIn == QuantityOn(state.transactions, today, In)
    ensures s.todayOut == QuantityOn(state.transactions, today, Out)
  {
    var todays := Filter(state.transactions, OnDay(today));
    FilteredSumIsQuantityOn(state.transactions, today, In);
    FilteredSumIsQuantityOn(state.transactions, today, Out);
    NoneLowIffEmpty(state.products);
    DashboardStats(
      |state.products|,
      SumOf(Filter(todays, OfType(In)), Quantity),
      SumOf(Filter(todays, OfType(Out)), Quantity),
      |Filter(state.products, IsLowStock)|)
  }

  /** Recording an entry moves exactly one of the day's totals, by its quantity, when it is dated today. */
  lemma DashboardAfterAddTransaction(state: AppState, tx: Transaction, today: int)
    ensures var before := DashboardStatsOf(state, today);
      var after := DashboardStatsOf(Reduce(state, AddTransaction(tx)), today);
      && after.totalProducts == before.totalProducts
      && after.todayIn == before.todayIn + (if tx.date == today && tx.txType == In then tx.quantity else 0)
      && after.todayOut == before.todayOut + (if tx.date == today && tx.txType == Out then tx.quantity else 0)
  {
    assert ([tx] + state.transactions)[1..] == state.transactions;
  }

  /** Adding a product adds one to the count, and one to the low-stock count exactly when it is low. */
  lemma DashboardAfterAddProduct(state: AppState, p: Product, today: int)
    ensures var before := DashboardStatsOf(state, today);
      var after := DashboardStatsOf(Reduce(state, AddProduct(p)), today);
      && after.totalProducts == before.totalProducts + 1
      && after.lowStockProducts == before.lowStockProducts + (if IsLowStock(p) then 1 else 0)
      && after.todayIn == before.todayIn && after.todayOut == before.todayOut
  {
    FilterAppend(state.products, [p], IsLowStock);
    assert [p][1..] == [];
  }

  /** Removing the products with an identifier shortens the list exactly when one carried it. */
  lemma {:induction false} DeleteShortensIffPresent(ps: seq<Product>, id: string)
    ensures |Filter(ps, OtherId(id))| <= |ps|
    ensures |Filter(ps, OtherId(id))| < |ps| <==> HasProduct(ps, id)
  {
    var kept := Filter(ps, OtherId(id));
    if HasProduct(ps, id) {
      var i :| 0 <= i < |ps| && ps[i].id == id;
      assert ps[i] !in kept && ps[i] in ps;
      if |kept| == |ps| {
        SubsequenceOfSameLength(kept, ps);
        assert false;
      }
    }
  }

  /** Removing products never adds a low-stock one. */
  lemma {:induction false} DeleteKeepsLowStockBound(ps: seq<Product>, id: string)
    ensures |Filter(Filter(ps, OtherId(id)), IsLowStock)| <= |Filter(ps, IsLowStock)|
  {
    FilterCommutes(ps, OtherId(id), IsLowStock);
  }

  /**
   * Deleting never raises either count, and lowers the product count exactly
   * when some product carried the identifier.
   */
  lemma DashboardAfterDeleteProduct(state: AppState, id: string, today: int)
    ensures var before := DashboardStatsOf(state, today);
      var after := DashboardStatsOf(Reduce(state, DeleteProduct(id)), today);
      && after.lowStockProducts <= before.lowStockProducts
      && (after.totalProducts < before.totalProducts <==> HasProduct(state.products, id))
      && (after.totalProducts == before.totalProducts <==> !HasProduct(state.products, id))
      && after.todayIn == before.todayIn && after.todayOut == before.todayOut
  {
    DeleteShortensIffPresent(state.products, id);
    DeleteKeepsLowStockBound(state.products, id);
  }

  /** Login, logout and navigation leave every statistic as it was. */
  lemma SessionActionsKeepStats(state: AppState, action: AppAction, today: int)
    requires action.Login? || action.Logout? || action.SetPage?
    ensures DashboardStatsOf(Reduce(state, action), today) == DashboardStatsOf(state, today)
  {
  }

  /**
   * `UPDATE_PRODUCT` puts the payload in place of every product with its
   * identifier, keeps length, order and identifiers, and changes nothing when
   * the identifier is absent.
   */
  lemma UpdateProductReplacesInPlace(state: AppState, u: Product)
    ensures var r := Reduce(state, UpdateProduct(u));
      && |r.products| == |state.products|
      && (forall i :: 0 <= i < |state.products| ==> r.products[i].id == state.products[i].id)
      && (forall i :: 0 <= i < |state.products| ==>
            r.products[i] == if state.products[i].id == u.id then u else state.products[i])
      && (!HasProduct(state.products, u.id) ==> r.products == state.products)
      && r.transactions == state.transactions
  {
    var r := Reduce(state, UpdateProduct(u));
    if !HasProduct(state.products, u.id) {
      assert forall i :: 0 <= i < |state.products| ==> r.products[i] == state.products[i];
    }
  }

  /**
   * `DELETE_PRODUCT` removes exactly the products with the identifier, keeps
   * the rest in order and with their multiplicity, and leaves the log alone.
   */
  lemma DeleteProductRemovesExactly(state: AppState, id: string)
    ensures var r := Reduce(state, DeleteProduct(id));
      && IsSubsequence(r.products, state.products)
      && (forall i :: 0 <= i < |r.products| ==> r.products[i].id != id)
      && (forall p: Product :: p.id != id ==> multiset(r.products)[p] == multiset(state.products)[p])
      && r.transactions == state.transactions
      && (!HasProduct(state.products, id) ==> r.products == state.products)
  {
    var r := Reduce(state, DeleteProduct(id));
    forall i | 0 <= i < |r.products|
      ensures r.products[i].id != id
    {
      assert r.products[i] in r.products;
    }
  }

  /**
   * `ADD_TRANSACTION` changes only `currentStock`, and only on products whose
   * identifier is the entry's `productId`; their new stock is never negative.
   */
  lemma AddTransactionTouchesOnlyStock(state: AppState, tx: Transaction)
    ensures var r := Reduce(state, AddTransaction(tx));
      && |r.products| == |state.products|
      && (forall i :: 0 <= i < |state.products| ==>
            r.products[i] == state.products[i].(currentStock := r.products[i].currentStock))
      && (forall i :: 0 <= i < |state.products| && state.products[i].id != tx.productId ==>
            r.products[i] == state.products[i])
      && (forall i :: 0 <= i < |state.products| && state.products[i].id == tx.productId ==>
            r.products[i].currentStock >= 0)
  {
  }

  /** An entry for an unknown product still goes into the log, and no product changes. */
  lemma UnknownProductStillLogged(state: AppState, tx: Transaction)
    requires !HasProduct(state.products, tx.productId)
    ensures var r := Reduce(state, AddTransaction(tx));
      && r.products == state.products
      && r.transactions == [tx] + state.transactions
  {
    var r := Reduce(state, AddTransaction(tx));
    assert forall i :: 0 <= i < |state.products| ==> r.products[i] == state.products[i];
  }

  /** The quantity an action records, if it records an entry. */
  function EntryQuantity(a: AppAction): int
  {
    if a.AddTransaction? then a.tx.quantity else 0
  }

  /** Entries that all add non-negative stock to the product with identifier `id`. */
  predicate AllInEntriesFor(actions: seq<AppAction>, id: string)
  {
    forall k :: 0 <= k < |actions| ==>
      actions[k].AddTransaction? && actions[k].tx.txType == In
      && actions[k].tx.productId == id && actions[k].tx.quantity >= 0
  }

  /** A run of 'in' entries for one product adds the sum of their quantities to its stock. */
  lemma {:induction false} InEntriesAddUp(state: AppState, actions: seq<AppAction>, i: int)
    requires 0 <= i < |state.products|
    requires state.products[i].currentStock >= 0
    requires AllInEntriesFor(actions, state.products[i].id)
    ensures |Dispatch(state, actions).products| == |state.products|
    ensures Dispatch(state, actions).products[i].id == state.products[i].id
    ensures Dispatch(state, actions).products[i].currentStock
            == state.products[i].currentStock + SumOf(actions, EntryQuantity)
    decreases |actions|
  {
    if |actions| > 0 {
      var next := Reduce(state, actions[0]);
      assert next.products[i] == state.products[i].(currentStock := next.products[i].currentStock);
      assert next.products[i].currentStock == state.products[i].currentStock + actions[0].tx.quantity;
      InEntriesAddUp(next, actions[1..], i);
    }
  }

  /** Only added or replaced products can bring a negative stock into the store. */
  predicate KeepsStockNonNegative(a: AppAction)
  {
    (a.AddProduct? || a.UpdateProduct?) ==> a.product.currentStock >= 0
  }

  /** No action can make a stock negative unless its payload carries one. */
  lemma ReducePreservesNonNegativeStock(state: AppState, a: AppAction)
    requires StockNonNegative(state.products) && KeepsStockNonNegative(a)
    ensures StockNonNegative(Reduce(state, a).products)
  {
    var r := Reduce(state, a);
    if a.DeleteProduct? {
      forall i | 0 <= i < |r.products|
        ensures r.products[i].currentStock >= 0
      {
        assert r.products[i] in state.products;
      }
    }
  }

  /** Stocks stay non-negative along any run of such actions, however large each 'out' is. */
  lemma {:induction false} DispatchPreservesNonNegativeStock(state: AppState, actions: seq<AppAction>)
    requires StockNonNegative(state.products)
    requires forall k :: 0 <= k < |actions| ==> KeepsStockNonNegative(actions[k])
    ensures StockNonNegative(Dispatch(state, actions).products)
    decreases |actions|
  {
    if |actions| > 0 {
      ReducePreservesNonNegativeStock(state, actions[0]);
      DispatchPreservesNonNegativeStock(Reduce(state, actions[0]), actions[1..]);
    }
  }

  predicate AllEntries(actions: seq<AppAction>)
  {
    forall k :: 0 <= k < |actions| ==> actions[k].AddTransaction?
  }

  /** The entries of a run, most recent first. */
  function NewestFirst(actions: seq<AppAction>): seq<Transaction>
    requires AllEntries(actions)
  {
    if |actions| == 0 then [] else NewestFirst(actions[1..]) + [actions[0].tx]
  }

  /** The log holds a run's entries newest first, ahead of everything recorded before. */
  lemma {:induction false} LogIsNewestFirst(state: AppState, actions: seq<AppAction>)
    requires AllEntries(actions)
    ensures Dispatch(state, actions).transactions == NewestFirst(actions) + state.transactions
    ensures |Dispatch(state, actions).transactions| == |state.transactions| + |actions|
    decreases |actions|
  {
    if |actions| > 0 {
      var next := Reduce(state, actions[0]);
      LogIsNewestFirst(next, actions[1..]);
      assert NewestFirst(actions[1..]) + ([actions[0].tx] + state.transactions)
          == (NewestFirst(actions[1..]) + [actions[0].tx]) + state.transactions;
    }
  }
}
