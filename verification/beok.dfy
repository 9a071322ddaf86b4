/**
 * The BEOK store manager: the product form's validation and stock status, the simulated
 * stock and order changes, and the filtered, sorted product table.
 */
module Beok {
  import opened Wrappers
  import opened Types
  import opened Text
  import opened Seqs
  import opened Sorting
  import Crud

  // Stock status.

  /** The rule the stock simulation applies: nothing left, under forty, or plenty. */
  function StockStatus(stock: int): (r: ProductStatus)
    ensures r == OutOfStock <==> stock <= 0
    ensures r == LowStock <==> 0 < stock < 40
    ensures r == InStock <==> stock >= 40
  {
    if stock <= 0 then OutOfStock
    else if stock < 40 then LowStock
    else InStock
  }

  /** The rule the product form applies on submit, which puts exactly forty units under "Low Stock". */
  function SubmitStatus(stock: int): (r: ProductStatus)
    ensures r == InStock <==> stock > 40
    ensures r == LowStock <==> 0 < stock <= 40
    ensures r == OutOfStock <==> stock <= 0
  {
    if stock > 40 then InStock
    else if stock > 0 then LowStock
    else OutOfStock
  }

  /** The two rules disagree at forty units and nowhere else. */
  lemma StatusRulesDisagreeOnlyAt40(stock: int)
    ensures SubmitStatus(stock) != StockStatus(stock) <==> stock == 40
    ensures SubmitStatus(40) == LowStock && StockStatus(40) == InStock
  {
  }

  /** A product whose status is what its stock says. */
  predicate StatusConsistent(p: Product)
  {
    p.status == StockStatus(p.stock)
  }

  predicate AllStatusConsistent(ps: seq<Product>)
  {
    forall i :: 0 <= i < |ps| ==> StatusConsistent(ps[i])
  }

  // The product form.

  /**
   * The form's fields as the submit handler sees them: `price` and `stock` are the results of
   * `parseFloat` and `parseInt(…, 10)`, `None` standing for NaN.
   */
  datatype ProductForm = ProductForm(
    name: string, category: string, price: Option<real>, stock: Option<int>,
    currency: string, images: seq<string>)

  const InvalidFields: string := "Please fill in all fields with valid data."
  const NoImages: string := "Please upload at least one product image."

  /** The first check of the submit handler: non-empty texts, numbers that parsed, a positive price, no negative stock. */
  predicate FieldsValid(f: ProductForm)
  {
    f.name != "" && f.category != "" && f.price.Some? && f.stock.Some?
    && f.price.value > 0.0 && f.stock.value >= 0
  }

  /**
   * `handleSubmit`: an invalid form yields the first error; otherwise the product record, keeping
   * the id of the product being edited or taking `"p" + stamp` for a new one.
   */
  function SubmitProduct(f: ProductForm, editing: Option<Product>, stamp: string): (r: Result<Product, string>)
    ensures r.Success? <==> FieldsValid(f) && |f.images| > 0
    ensures !FieldsValid(f) ==> r == Failure(InvalidFields)
    ensures FieldsValid(f) && |f.images| == 0 ==> r == Failure(NoImages)
    ensures r.Success? ==> r.value.id == (if editing.Some? then editing.value.id else "p" + stamp)
    ensures r.Success? ==>
      (r.value.name == f.name && r.value.category == f.category
       && r.value.price == f.price.value && r.value.stock == f.stock.value
       && r.value.currency == f.currency && r.value.imageUrls == f.images)
    ensures r.Success? ==> r.value.status == SubmitStatus(r.value.stock)
  {
    if !FieldsValid(f) then Failure(InvalidFields)
    else if |f.images| == 0 then Failure(NoImages)
    else
      var id := if editing.Some? then editing.value.id else "p" + stamp;
      Success(Product(id, f.name, f.category, f.price.value, f.currency, f.stock.value,
        SubmitStatus(f.stock.value), f.images))
  }

  /** The submit handler with the simulation's status rule, so that a fresh record is status-consistent. */
  function SubmitProductIntended(f: ProductForm, editing: Option<Product>, stamp: string): (r: Result<Product, string>)
    ensures r.Success? <==> SubmitProduct(f, editing, stamp).Success?
    ensures r.Success? ==> StatusConsistent(r.value)
    ensures r.Success? ==> r.value == SubmitProduct(f, editing, stamp).value.(status := StockStatus(f.stock.value))
  {
    match SubmitProduct(f, editing, stamp)
    case Failure(e) => Failure(e)
    case Success(p) => Success(p.(status := StockStatus(p.stock)))
  }

  /** Submitting forty units as written yields a product the status rule calls inconsistent. */
  lemma SubmitAt40Inconsistent(f: ProductForm, stamp: string)
    requires FieldsValid(f) && |f.images| > 0 && f.stock.value == 40
    ensures SubmitProduct(f, None, stamp).Success?
    ensures !StatusConsistent(SubmitProduct(f, None, stamp).value)
    ensures StatusConsistent(SubmitProductIntended(f, None, stamp).value)
  {
  }

  /**
   * Opening the form on a status-consistent product and submitting it unchanged gives back the
   * same product, as written, for every stock but forty.
   */
  lemma EditRoundTrip(p: Product, stamp: string)
    requires p.name != "" && p.category != "" && p.price > 0.0 && p.stock >= 0 && |p.imageUrls| > 0
    requires StatusConsistent(p) && p.stock != 40
    ensures SubmitProduct(FormOf(p), Some(p), stamp) == Success(p)
  {
  }

  /**
   * At forty units the round trip fails as written: the product comes back Low Stock, although
   * the simulation's rule, which every consistent product follows, calls it In Stock.
   */
  lemma EditAt40Demotes(p: Product, stamp: string)
    requires p.name != "" && p.category != "" && p.price > 0.0 && |p.imageUrls| > 0
    requires StatusConsistent(p) && p.stock == 40
    ensures p.status == InStock
    ensures SubmitProduct(FormOf(p), Some(p), stamp) == Success(p.(status := LowStock))
    ensures SubmitProduct(FormOf(p), Some(p), stamp) != Success(p)
  {
  }

  /** With the intended status rule, the unchanged submit gives back every status-consistent product. */
  lemma EditRoundTripIntended(p: Product, stamp: string)
    requires p.name != "" && p.category != "" && p.price > 0.0 && p.stock >= 0 && |p.imageUrls| > 0
    requires StatusConsistent(p)
    ensures SubmitProductIntended(FormOf(p), Some(p), stamp) == Success(p)
  {
  }

  /** The form as the edit dialog fills it from a product. */
  function FormOf(p: Product): ProductForm
  {
    ProductForm(p.name, p.category, Some(p.price), Some(p.stock), p.currency, p.imageUrls)
  }

  // The stock simulation.

  /**
   * The random draws of one stock tick: whether it is skipped, which product, and the change,
   * a rise of `magnitude` in 0..4 or a fall of `magnitude` in 0..1.
   */
  datatype StockDraw = StockDraw(skip: bool, index: nat, rise: bool, magnitude: nat)

  predicate ValidStockDraw(d: StockDraw, n: nat)
  {
    (n > 0 ==> d.index < n) && (if d.rise then d.magnitude < 5 else d.magnitude < 2)
  }

  function Change(d: StockDraw): int
  {
    if d.rise then d.magnitude else -(d.magnitude as int)
  }

  /** `Math.max(0, stock + change)` with the status recomputed from the new stock. */
  function Restock(p: Product, change: int): (r: Product)
    ensures r.stock >= 0 && r.stock >= p.stock + change
    ensures r.stock == p.stock + change || (r.stock == 0 && p.stock + change < 0)
    ensures StatusConsistent(r)
    ensures r == p.(stock := r.stock, status := r.status)
  {
    var s := if p.stock + change > 0 then p.stock + change else 0;
    p.(stock := s, status := StockStatus(s))
  }

  /** One stock tick: an empty list or a skipped tick changes nothing; otherwise one product is restocked. */
  function StockTick(ps: seq<Product>, d: StockDraw): (r: seq<Product>)
    requires ValidStockDraw(d, |ps|)
    ensures |r| == |ps|
    ensures |ps| == 0 || d.skip ==> r == ps
    ensures forall i :: 0 <= i < |ps| && i != d.index ==> r[i] == ps[i]
    ensures !d.skip && |ps| > 0 ==> r[d.index] == Restock(ps[d.index], Change(d))
  {
    if |ps| == 0 || d.skip then ps
    else ps[d.index := Restock(ps[d.index], Change(d))]
  }

  /** A tick moves the chosen stock by at most four up and one down, never below zero. */
  lemma StockTickBounds(ps: seq<Product>, d: StockDraw)
    requires ValidStockDraw(d, |ps|) && |ps| > 0 && !d.skip
    ensures StockTick(ps, d)[d.index].stock >= 0
    ensures ps[d.index].stock - 1 <= StockTick(ps, d)[d.index].stock
    ensures ps[d.index].stock >= 0 ==> StockTick(ps, d)[d.index].stock <= ps[d.index].stock + 4
    ensures StockTick(ps, d)[d.index].id == ps[d.index].id
  {
  }

  /** Ticks keep every product's status in line with its stock. */
  lemma StockTickKeepsConsistent(ps: seq<Product>, d: StockDraw)
    requires ValidStockDraw(d, |ps|)
    requires AllStatusConsistent(ps)
    ensures AllStatusConsistent(StockTick(ps, d))
  {
  }

  // The order simulation.

  predicate IsProcessing(o: Order) { o.status == Processing }

  function Processable(orders: seq<Order>): (r: seq<Order>)
    ensures forall o :: o in r <==> o in orders && o.status == Processing
  {
    Filter(orders, (o: Order) => IsProcessing(o))
  }

  /** `findIndex(o => o.id === id)`: the first position holding the id, or -1. */
  function FindIndex(orders: seq<Order>, id: string): (r: int)
    ensures -1 <= r < |orders|
    ensures r == -1 <==> forall i :: 0 <= i < |orders| ==> orders[i].id != id
    ensures r >= 0 ==> orders[r].id == id && forall i :: 0 <= i < r ==> orders[i].id != id
  {
    if |orders| == 0 then -1
    else if orders[0].id == id then 0
    else
      var k := FindIndex(orders[1..], id);
      if k == -1 then -1 else k + 1
  }

  /** The random draws of one order tick: whether it is skipped and which processing order ships. */
  datatype OrderDraw = OrderDraw(skip: bool, pick: nat)

  /**
   * One order tick: skipped, or nothing to ship, changes nothing; otherwise the picked processing
   * order is written, as shipped, over the first order carrying its id.
   */
  function OrderTick(orders: seq<Order>, d: OrderDraw): (r: seq<Order>)
    requires |Processable(orders)| > 0 ==> d.pick < |Processable(orders)|
    ensures |r| == |orders|
    ensures d.skip || |Processable(orders)| == 0 ==> r == orders
    ensures r == orders || exists i :: (0 <= i < |orders| && r == orders[i := r[i]]
      && r[i].status == Shipped && r[i].id == orders[i].id)
  {
    if |orders| == 0 || d.skip then orders
    else
      var processable := Processable(orders);
      if |processable| == 0 then orders
      else
        var o := processable[d.pick];
        var k := FindIndex(orders, o.id);
        if k != -1 then orders[k := o.(status := Shipped)] else orders
  }

  /** With unique ids a tick ships one processing order and touches nothing else. */
  lemma OrderTickShipsOne(orders: seq<Order>, d: OrderDraw)
    requires |Processable(orders)| > 0 ==> d.pick < |Processable(orders)|
    requires Crud.UniqueKeys(orders, (o: Order) => o.id)
    requires !d.skip && |Processable(orders)| > 0
    ensures exists i :: (0 <= i < |orders| && orders[i].status == Processing
      && OrderTick(orders, d) == orders[i := orders[i].(status := Shipped)])
  {
    var o := Processable(orders)[d.pick];
    assert o in Processable(orders);
    var j :| 0 <= j < |orders| && orders[j] == o;
    var k := FindIndex(orders, o.id);
    assert 0 <= k <= j && orders[k].id == orders[j].id;
    assert k == j;
  }

  /** Ticks never touch a delivered or cancelled order. */
  lemma OrderTickKeepsSettled(orders: seq<Order>, d: OrderDraw, i: int)
    requires |Processable(orders)| > 0 ==> d.pick < |Processable(orders)|
    requires Crud.UniqueKeys(orders, (o: Order) => o.id)
    requires 0 <= i < |orders| && orders[i].status != Processing
    ensures OrderTick(orders, d)[i] == orders[i]
  {
    if !d.skip && |Processable(orders)| > 0 {
      OrderTickShipsOne(orders, d);
    }
  }

  // The product table.

  datatype ProductField = IdField | NameField | CategoryField | PriceField | CurrencyField | StockField | StatusField

  /** The value `a[key]` the comparator reads; the status compares by its display string. */
  function ProductKey(field: ProductField): Product -> KeyValue
  {
    (p: Product) =>
      match field
      case IdField => Str(p.id)
      case NameField => Str(p.name)
      case CategoryField => Str(p.category)
      case PriceField => Num(p.price)
      case CurrencyField => Str(p.currency)
      case StockField => Num(p.stock as real)
      case StatusField => Str(ProductStatusName(p.status))
  }

  /** The table opens sorted by name, ascending. */
  const InitialProductSort: SortConfig<ProductField> := SortConfig(NameField, Ascending)

  /** A row is shown when its name contains the search text, ignoring case, and its status passes the filter (`None` is "All"). */
  predicate ProductShown(searchTerm: string, statusFilter: Option<ProductStatus>, p: Product)
  {
    Contains(Lower(p.name), Lower(searchTerm))
    && (statusFilter.None? || p.status == statusFilter.value)
  }

  function ProductShownFilter(searchTerm: string, statusFilter: Option<ProductStatus>): Product -> bool
  {
    (p: Product) => ProductShown(searchTerm, statusFilter, p)
  }

  /** `filteredAndSortedProducts`: the shown rows, sorted by the current column and direction. */
  function ProductView(ps: seq<Product>, searchTerm: string, statusFilter: Option<ProductStatus>, c: SortConfig<ProductField>): (r: seq<Product>)
    ensures forall p :: p in r <==> p in ps && ProductShown(searchTerm, statusFilter, p)
    ensures Sorted(r, ProductKey(c.key), c.direction)
    ensures multiset(r) == multiset(Filter(ps, ProductShownFilter(searchTerm, statusFilter)))
  {
    var shown := Filter(ps, ProductShownFilter(searchTerm, statusFilter));
    var r := Sort(shown, ProductKey(c.key), c.direction);
    assert forall p :: p in r <==> p in multiset(r);
    r
  }

  /** With no search text and the "All" filter, the table is a reordering of the whole list. */
  lemma ProductViewUnfiltered(ps: seq<Product>, c: SortConfig<ProductField>)
    ensures multiset(ProductView(ps, "", None, c)) == multiset(ps)
  {
    var f := ProductShownFilter("", None);
    forall i | 0 <= i < |ps| ensures f(ps[i]) {
      ContainsEmpty(Lower(ps[i].name));
    }
    FilterAll(ps, f);
  }

  // The product list handlers.

  function ProductId(p: Product): string { p.id }

  /** Every list handler keeps the products status-consistent when it is given consistent products. */
  lemma HandlersKeepConsistent(ps: seq<Product>, p: Product, id: string)
    requires AllStatusConsistent(ps) && StatusConsistent(p)
    ensures AllStatusConsistent(Crud.Add(ps, p))
    ensures AllStatusConsistent(Crud.UpdateById(ps, ProductId, p))
    ensures AllStatusConsistent(Crud.DeleteById(ps, ProductId, id))
  {
    var d := Crud.DeleteById(ps, ProductId, id);
    forall i | 0 <= i < |d| ensures StatusConsistent(d[i]) {
      assert d[i] in ps;
    }
    var a := Crud.Add(ps, p);
    forall i | 0 <= i < |a| ensures StatusConsistent(a[i]) {
      if i > 0 {
        assert a[i] == ps[i - 1];
      }
    }
  }
}
