/** The records the JSON documents hold, as typed values. A record field
    that the source reads with `int(d.get(key, 0) or 0)` is an `int` here
    whose absent value is 0; an optional reference is an `Option`. */
module Records {
  import opened Common

  /** A product. Three different stock-like keys are in use in the
      source, and the model keeps them apart:
      `stock` is the key add_product writes and the stock sort reads,
      `productStock` and `totalOrdered` are `product_stock` and
      `product_total_ordered`, the only keys the order engine reads and
      writes, and `orderTally` is `order_tally`, written by the tally
      recompute and read by the "orders" sort.
      `price` is in pence. */
  datatype Product = Product(
    id: int,
    name: string,
    price: int,
    stock: int,
    productStock: int,
    totalOrdered: int,
    orderTally: int,
    categoryId: Option<int>,
    categoryName: Option<string>)

  /** One order line: a snapshot of the product's name and unit price. */
  datatype LineItem = LineItem(productId: int, name: string, qty: int, price: int, subtotal: int)

  datatype Order = Order(
    id: int,
    uuid: string,
    customerId: int,
    createdAt: string,
    items: seq<LineItem>,
    total: int)

  /** Where a category keeps its id: under `category_id`, under the
      legacy key `id`, or nowhere. */
  datatype IdField = CategoryIdKey(n: int) | LegacyIdKey(n: int) | NoIdKey

  /** A category is flat: an id and a name, nothing else. */
  datatype Category = Category(key: IdField, name: string)

  /** `category.get("category_id", category.get("id"))` read as an int. */
  function CategoryIdOf(c: Category): (r: Option<int>)
    ensures r.None? <==> c.key.NoIdKey?
  {
    match c.key
    case CategoryIdKey(n) => Some(n)
    case LegacyIdKey(n) => Some(n)
    case NoIdKey => None
  }

  /** The position a dictionary keyed by product_id keeps for `pid`
      (`_index_products_by_id`): a later product with the same id
      overwrites an earlier one, so it is the LAST position with that id. */
  function FindProduct(ps: seq<Product>, pid: int): (r: Option<nat>)
    ensures r.Some? ==> r.value < |ps| && ps[r.value].id == pid
    ensures r.Some? ==> forall k :: r.value < k < |ps| ==> ps[k].id != pid
    ensures r.None? <==> forall k :: 0 <= k < |ps| ==> ps[k].id != pid
  {
    if ps == [] then None
    else if ps[|ps| - 1].id == pid then Some(|ps| - 1)
    else FindProduct(ps[..|ps| - 1], pid)
  }

  /** Two product lists with the same ids at the same positions. */
  predicate SameIds(a: seq<Product>, b: seq<Product>) {
    |a| == |b| && forall k :: 0 <= k < |a| ==> a[k].id == b[k].id
  }

  /** FindProduct looks only at ids, so it gives the same answer on any
      list whose ids are unchanged: updating stock keeps the index valid. */
  lemma {:induction false} FindProductSameIds(a: seq<Product>, b: seq<Product>, pid: int)
    requires SameIds(a, b)
    ensures FindProduct(a, pid) == FindProduct(b, pid)
  {
    if a != [] && a[|a| - 1].id != pid {
      FindProductSameIds(a[..|a| - 1], b[..|b| - 1], pid);
    }
  }

  /** `index` maps every product id to the position FindProduct gives. */
  ghost predicate Indexes(index: map<int, nat>, ps: seq<Product>) {
    forall pid :: (pid in index <==> FindProduct(ps, pid).Some?)
                  && (pid in index ==> FindProduct(ps, pid) == Some(index[pid]))
  }

  /** `_index_products_by_id`: builds the id-to-position dictionary in one
      pass, each product overwriting any earlier entry for its id. */
  method IndexProducts(ps: seq<Product>) returns (index: map<int, nat>)
    ensures Indexes(index, ps)
  {
    index := map[];
    for i := 0 to |ps|
      invariant Indexes(index, ps[..i])
    {
      assert ps[..i + 1][..i] == ps[..i];
      index := index[ps[i].id := i];
    }
    assert ps[..|ps|] == ps;
  }
}
