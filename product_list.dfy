/** The admin product list: how each product of the API reply becomes a table row
    (defaults and stock status), when the reply replaces the list, and the two
    stock counters above the table. */
module ProductList {
  import opened Options
  import opened Text
  import opened Seqs

  /** A product as the API returns it; any field may be missing. */
  datatype ApiProduct = ApiProduct(
    id: string, name: string, categoryName: Option<string>, price: Option<real>,
    stockQuantity: Option<int>, shortDescription: Option<string>, sku: Option<string>,
    updatedBy: Option<string>)

  datatype StockStatus = InStock | LowStock | OutOfStock

  function Label(s: StockStatus): string
  {
    match s
    case InStock => "In Stock"
    case LowStock => "Low Stock"
    case OutOfStock => "Out of Stock"
  }

  /** A table row. */
  datatype Row = Row(
    id: string, name: string, categoryName: string, price: real, stock: int,
    status: StockStatus, image: string, sales: nat, shortDescription: string, sku: string,
    updatedBy: string)

  /** `q > 10 ? 'In Stock' : q > 0 ? 'Low Stock' : 'Out of Stock'`; a missing quantity
      compares false both times. */
  function Classify(q: Option<int>): (s: StockStatus)
    ensures s == InStock <==> q.Some? && q.value > 10
    ensures s == LowStock <==> q.Some? && 1 <= q.value <= 10
    ensures s == OutOfStock <==> q.None? || q.value <= 0
  {
    if q.Some? && q.value > 10 then InStock
    else if q.Some? && q.value > 0 then LowStock
    else OutOfStock
  }

  /** `x || 0` for a number. */
  function IntOrZero(q: Option<int>): int
  {
    if q.Some? then q.value else 0
  }

  function RealOrZero(x: Option<real>): real
  {
    if x.Some? then x.value else 0.0
  }

  /** The row built from one API product. */
  function Format(p: ApiProduct): Row
  {
    Row(p.id, p.name, OrOpt(p.categoryName, "Uncategorized"), RealOrZero(p.price),
        IntOrZero(p.stockQuantity), Classify(p.stockQuantity), "\U{1F4E6}", 0,
        OrOpt(p.shortDescription, ""), OrOpt(p.sku, ""), OrOpt(p.updatedBy, "N/A"))
  }

  /** A row's defaults, and a status that always agrees with the stock figure shown. */
  lemma FormatSpec(p: ApiProduct)
    ensures var r := Format(p);
            && r.id == p.id && r.name == p.name
            && (p.stockQuantity.None? ==> r.stock == 0)
            && (!Truthy(p.categoryName) ==> r.categoryName == "Uncategorized")
            && (!Truthy(p.updatedBy) ==> r.updatedBy == "N/A")
            && (p.price.None? ==> r.price == 0.0)
            && r.status == Classify(Some(r.stock))
  {
  }

  /** `items.map(format)`: one row per item, in order. */
  function FormatAll(items: seq<ApiProduct>): (rows: seq<Row>)
    ensures |rows| == |items|
    ensures forall i :: 0 <= i < |items| ==> rows[i] == Format(items[i])
  {
    if items == [] then [] else [Format(items[0])] + FormatAll(items[1..])
  }

  /** The parsed body: `success`, and `data.items` when `data` and its items exist. */
  datatype Body = Body(success: bool, items: Option<seq<ApiProduct>>)

  /** An OK reply with its parsed body, a non-OK reply, or an exception. */
  datatype Reply = Ok(body: Body) | NotOk | Thrown

  /** `fetchProducts`: the list is replaced only by a successful body with items. */
  function Fetched(products: seq<Row>, reply: Reply): (r: seq<Row>)
    ensures !(reply.Ok? && reply.body.success && reply.body.items.Some?) ==> r == products
    ensures reply.Ok? && reply.body.success && reply.body.items.Some? ==> r == FormatAll(reply.body.items.value)
  {
    if reply.Ok? && reply.body.success && reply.body.items.Some? then FormatAll(reply.body.items.value)
    else products
  }

  function LowStockCount(rows: seq<Row>): nat
  {
    Count(rows, (r: Row) => r.status == LowStock)
  }

  function OutOfStockCount(rows: seq<Row>): nat
  {
    Count(rows, (r: Row) => r.status == OutOfStock)
  }

  /** No row is counted twice. */
  lemma CountsBounded(rows: seq<Row>)
    ensures LowStockCount(rows) + OutOfStockCount(rows) <= |rows|
  {
    DisjointCounts(rows, (r: Row) => r.status == LowStock, (r: Row) => r.status == OutOfStock);
  }

  /** On a fetched list the low-stock counter counts the products with 1 to 10 in stock,
      the out-of-stock counter those with none, a negative or a missing quantity. */
  lemma {:induction false} CountsOfFetched(items: seq<ApiProduct>)
    ensures LowStockCount(FormatAll(items))
         == Count(items, (p: ApiProduct) => p.stockQuantity.Some? && 1 <= p.stockQuantity.value <= 10)
    ensures OutOfStockCount(FormatAll(items))
         == Count(items, (p: ApiProduct) => p.stockQuantity.None? || p.stockQuantity.value <= 0)
  {
    if items != [] {
      CountsOfFetched(items[1..]);
      assert FormatAll(items)[1..] == FormatAll(items[1..]);
    }
  }
}
