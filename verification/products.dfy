/**
 * The product management page: the category/search filter, the stock badge
 * of each card, and the form used to add or edit a product.
 */
module Products {
  import opened Util
  import opened Types
  import JsNumber

  /** The search box matches the product's name, code or category. */
  predicate MatchesSearch(p: Product, term: string)
  {
    Includes(p.name, term) || Includes(p.code, term) || Includes(p.category, term)
  }

  /** The card filter; an empty category is "all categories", an empty term the empty search box. */
  function KeepProduct(category: string, term: string): Product -> bool
  {
    (p: Product) => (category != "" ==> p.category == category) && (term != "" ==> MatchesSearch(p, term))
  }

  /** `filteredProducts`. */
  function FilterProducts(ps: seq<Product>, category: string, term: string): (r: seq<Product>)
    ensures IsSubsequence(r, ps)
    ensures category != "" ==> forall p :: p in r ==> p.category == category
    ensures term != "" ==> forall p :: p in r ==> MatchesSearch(p, term)
    ensures forall p ::
      (p in ps && (category != "" ==> p.category == category) && (term != "" ==> MatchesSearch(p, term)))
      ==> p in r
    // every copy of a matching product is kept
    ensures forall p :: KeepProduct(category, term)(p) ==> multiset(r)[p] == multiset(ps)[p]
    ensures category == "" && term == "" ==> r == ps
  {
    Filter(ps, KeepProduct(category, term))
  }

  /** The badge on a product card. */
  datatype StockBadge = Shortage | Available

  function Badge(p: Product): (b: StockBadge)
    ensures b == Shortage <==> p.currentStock <= p.minStock
  {
    if p.currentStock <= p.minStock then Shortage else Available
  }

  function ShowsShortage(p: Product): bool
  {
    Badge(p) == Shortage
  }

  /**
   * The shortage badge and the store's low-stock predicate select the same
   * products, in the same order, from any list of products.
   */
  lemma {:induction false} ShortageBadgesAreLowStock(ps: seq<Product>)
    ensures Filter(ps, ShowsShortage) == Filter(ps, IsLowStock)
    decreases |ps|
  {
    if |ps| > 0 {
      ShortageBadgesAreLowStock(ps[1..]);
    }
  }

  /**
   * The form's state. Description, price and barcode are always present in
   * the form; the image stays absent unless the edited product has one.
   */
  datatype ProductForm = ProductForm(
    id: string,
    name: string,
    code: string,
    category: string,
    currentStock: int,
    minStock: int,
    location: string,
    supplier: string,
    createdAt: int,
    image: Option<Image>,
    description: string,
    price: int,
    barcode: string)

  /** The form's initial state: a copy of the product being edited, or blank on day `now`. */
  function InitialForm(init: Option<Product>, now: int): (f: ProductForm)
    ensures init.None? ==>
      && f.currentStock == 0 && f.minStock == 0 && f.price == 0
      && f.id == "" && f.name == "" && f.code == "" && f.category == "" && f.location == ""
      && f.supplier == "" && f.description == "" && f.barcode == ""
      && f.image.None? && f.createdAt == now
    ensures init.Some? ==>
      && f.id == init.value.id && f.name == init.value.name && f.code == init.value.code
      && f.category == init.value.category && f.currentStock == init.value.currentStock
      && f.minStock == init.value.minStock && f.location == init.value.location
      && f.supplier == init.value.supplier && f.createdAt == init.value.createdAt
      && f.image == init.value.image
      && f.description == (if init.value.description.Some? then init.value.description.value else "")
      && f.price == (if init.value.price.Some? then init.value.price.value else 0)
      && f.barcode == (if init.value.barcode.Some? then init.value.barcode.value else "")
  {
    match init
    case None => ProductForm("", "", "", "", 0, 0, "", "", now, None, "", 0, "")
    case Some(p) =>
      ProductForm(
        p.id, p.name, p.code, p.category, p.currentStock, p.minStock, p.location, p.supplier,
        p.createdAt, p.image,
        match p.description case Some(d) => d case None => "",
        match p.price case Some(n) => n case None => 0,
        match p.barcode case Some(b) => b case None => "")
  }

  /** The inputs wired to `handleChange`. */
  datatype Field = Name | Code | Category | Supplier | CurrentStock | MinStock | Price | Location | Description

  predicate IsNumeric(field: Field)
  {
    field == CurrentStock || field == MinStock || field == Price
  }

  /** The text a field holds, for the fields that hold text. */
  function TextOf(f: ProductForm, field: Field): Option<string>
  {
    match field
    case Name => Some(f.name)
    case Code => Some(f.code)
    case Category => Some(f.category)
    case Supplier => Some(f.supplier)
    case Location => Some(f.location)
    case Description => Some(f.description)
    case _ => None
  }

  /** The number a field holds, for the numeric fields. */
  function NumberOf(f: ProductForm, field: Field): Option<int>
  {
    match field
    case CurrentStock => Some(f.currentStock)
    case MinStock => Some(f.minStock)
    case Price => Some(f.price)
    case _ => None
  }

  /**
   * `handleChange`: stock, minimum stock and price store `Number(value)`,
   * the other inputs their text; no other field changes.
   */
  function Change(f: ProductForm, field: Field, value: string): (r: ProductForm)
    requires IsNumeric(field) ==> JsNumber.IsIntegerText(value)
    ensures IsNumeric(field) ==> NumberOf(r, field) == Some(JsNumber.Number(value))
    ensures !IsNumeric(field) ==> TextOf(r, field) == Some(value)
    ensures forall g :: g != field ==> TextOf(r, g) == TextOf(f, g) && NumberOf(r, g) == NumberOf(f, g)
    ensures r.id == f.id && r.createdAt == f.createdAt && r.image == f.image && r.barcode == f.barcode
  {
    match field
    case Name => f.(name := value)
    case Code => f.(code := value)
    case Category => f.(category := value)
    case Supplier => f.(supplier := value)
    case CurrentStock => f.(currentStock := JsNumber.Number(value))
    case MinStock => f.(minStock := JsNumber.Number(value))
    case Price => f.(price := JsNumber.Number(value))
    case Location => f.(location := value)
    case Description => f.(description := value)
  }

  /**
   * `handleSubmit`: the form's state handed on `as Product`, with no check;
   * description, price and barcode become present fields.
   */
  function Submit(f: ProductForm): (p: Product)
    ensures p.id == f.id && p.name == f.name && p.code == f.code && p.category == f.category
    ensures p.currentStock == f.currentStock && p.minStock == f.minStock
    ensures p.location == f.location && p.supplier == f.supplier && p.createdAt == f.createdAt
    ensures p.image == f.image
    ensures p.description == Some(f.description) && p.price == Some(f.price) && p.barcode == Some(f.barcode)
  {
    Product(f.id, f.name, f.code, f.category, f.currentStock, f.minStock, f.location, f.supplier,
            f.createdAt, f.image, Some(f.description), Some(f.price), Some(f.barcode))
  }

  /** Saving an untouched edit form hands back the product, once its optional texts and price are present. */
  lemma UntouchedEditRoundTrips(p: Product, now: int)
    requires p.description.Some? && p.price.Some? && p.barcode.Some?
    ensures Submit(InitialForm(Some(p), now)) == p
  {
  }

  /** Typing back the number an input shows leaves the stored number as it is. */
  lemma RetypingShownNumberKeepsIt(f: ProductForm, field: Field, n: int)
    requires IsNumeric(field)
    ensures NumberOf(Change(f, field, JsNumber.Show(n)), field) == Some(n)
  {
    JsNumber.NumberOfShow(n);
  }
}
