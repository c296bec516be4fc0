/** The order engine (functions/order_manager.py): normalising the items a
    caller passes, checking them against stock, pricing the lines, and the
    stock and tally bookkeeping of adding, editing and deleting an order.

    The engine reads and writes only two keys of a product,
    `product_stock` and `product_total_ordered` (Product.productStock and
    Product.totalOrdered). Every stock movement goes through the
    dictionary `_index_products_by_id` builds, so it lands on the LAST
    product with the id (Records.FindProduct); an id with no product is
    skipped. */
module Orders {
  import opened Common
  import opened Records
  import opened Products

  datatype OrderError =
    | InvalidItems
    | InvalidCustomer
    | NoProductsExist
    | UnknownProduct(productId: int)
    | InsufficientStock(productId: int, have: int, need: int)
    | OrderNotFound

  // ---------------------------------------------------------------- items

  /** One entry of the `items` argument as the source reads it: `None`
      stands for a `product_id` or `qty` that is missing or that int()
      cannot convert. */
  datatype RawItem = RawItem(productId: Option<int>, qty: Option<int>)

  /** The `items` argument: a list, or any other value. */
  datatype ItemsArg = ItemList(entries: seq<RawItem>) | NotAList

  /** A normalised item: `{"product_id": pid, "qty": qty}`. */
  datatype Item = Item(productId: int, qty: int)

  /** An entry passes when both fields convert and both are at least 1. */
  predicate GoodEntry(e: RawItem) {
    e.productId.Some? && e.qty.Some? && e.productId.value > 0 && e.qty.value > 0
  }

  function NormalizeEntries(es: seq<RawItem>): (r: Option<seq<Item>>)
    ensures r.Some? <==> forall k :: 0 <= k < |es| ==> GoodEntry(es[k])
    ensures r.Some? ==> |r.value| == |es|
    ensures r.Some? ==> forall k :: 0 <= k < |es| ==>
              r.value[k] == Item(es[k].productId.value, es[k].qty.value)
  {
    if es == [] then Some([])
    else if !GoodEntry(es[0]) then None
    else match NormalizeEntries(es[1..])
      case None => None
      case Some(rest) =>
        assert forall k :: 1 <= k < |es| ==> es[k] == es[1..][k - 1];
        Some([Item(es[0].productId.value, es[0].qty.value)] + rest)
  }

  /** `_normalize_items`: a non-empty list whose every entry passes, turned
      into items with the same ids and quantities in the same order;
      anything else is None. */
  function Normalize(arg: ItemsArg): (r: Option<seq<Item>>)
    ensures r.Some? <==> arg.ItemList? && arg.entries != []
                         && forall k :: 0 <= k < |arg.entries| ==> GoodEntry(arg.entries[k])
    ensures r.Some? ==> |r.value| == |arg.entries| > 0
    ensures r.Some? ==> forall k :: 0 <= k < |r.value| ==>
              r.value[k].productId == arg.entries[k].productId.value >= 1
              && r.value[k].qty == arg.entries[k].qty.value >= 1
  {
    match arg
    case NotAList => None
    case ItemList(es) => if es == [] then None else NormalizeEntries(es)
  }

  /** The loop of `_normalize_items`, returning at the first bad entry. */
  method NormalizeItems(arg: ItemsArg) returns (r: Option<seq<Item>>)
    ensures r == Normalize(arg)
  {
    if arg.NotAList? || arg.entries == [] {
      return None;
    }
    var es := arg.entries;
    var norm: seq<Item> := [];
    for i := 0 to |es|
      invariant forall k :: 0 <= k < i ==> GoodEntry(es[k])
      invariant norm == seq(i, k requires 0 <= k < i => Item(es[k].productId.value, es[k].qty.value))
    {
      if !GoodEntry(es[i]) {
        assert !GoodEntry(arg.entries[i]);
        return None;
      }
      norm := norm + [Item(es[i].productId.value, es[i].qty.value)];
    }
    assert norm == Normalize(arg).value;
    r := Some(norm);
  }

  /** The moves an order's stored lines stand for, read back as items. */
  function Moves(lines: seq<LineItem>): (r: seq<Item>)
    ensures |r| == |lines|
    ensures forall k :: 0 <= k < |lines| ==>
              r[k].productId == lines[k].productId && r[k].qty == lines[k].qty
  {
    seq(|lines|, k requires 0 <= k < |lines| => Item(lines[k].productId, lines[k].qty))
  }

  // ---------------------------------------------------------------- stock moves

  /** Taking stock for an order, or giving it back. */
  datatype Direction = Take | Restock

  function Opposite(d: Direction): Direction {
    if d == Take then Restock else Take
  }

  /** One line's effect on its product: taking `qty` lowers
      `product_stock` and raises `product_total_ordered` by it; restocking
      does the reverse. Nothing else in the product changes. */
  function Move(p: Product, qty: int, d: Direction): Product {
    match d
    case Take => p.(productStock := p.productStock - qty, totalOrdered := p.totalOrdered + qty)
    case Restock => p.(productStock := p.productStock + qty, totalOrdered := p.totalOrdered - qty)
  }

  /** One line applied through the id index; an unknown id changes nothing. */
  function Shift(ps: seq<Product>, it: Item, d: Direction): (r: seq<Product>)
    ensures SameIds(ps, r)
  {
    match FindProduct(ps, it.productId)
    case None => ps
    case Some(j) => ps[j := Move(ps[j], it.qty, d)]
  }

  /** The lines applied one after the other, as the source's loops do. */
  function Apply(ps: seq<Product>, ms: seq<Item>, d: Direction): (r: seq<Product>)
    ensures SameIds(ps, r)
  {
    if ms == [] then ps
    else
      var r := Shift(Apply(ps, ms[..|ms| - 1], d), ms[|ms| - 1], d);
      SameIdsTransitive(ps, Apply(ps, ms[..|ms| - 1], d), r);
      r
  }

  lemma SameIdsTransitive(a: seq<Product>, b: seq<Product>, c: seq<Product>)
    requires SameIds(a, b) && SameIds(b, c)
    ensures SameIds(a, c)
  {
  }

  /** The total quantity the lines move for `pid`. */
  function Demand(ms: seq<Item>, pid: int): int {
    if ms == [] then 0
    else Demand(ms[..|ms| - 1], pid) + (if ms[|ms| - 1].productId == pid then ms[|ms| - 1].qty else 0)
  }

  /** The aggregate effect, as a reference for Apply: the indexed product
      of each id moves by the id's whole demand, and every other product
      (an unindexed duplicate) is untouched. */
  function Moved(ps: seq<Product>, ms: seq<Item>, d: Direction): (r: seq<Product>)
    ensures |r| == |ps|
  {
    seq(|ps|, j requires 0 <= j < |ps| =>
      if FindProduct(ps, ps[j].id) == Some(j) then Move(ps[j], Demand(ms, ps[j].id), d) else ps[j])
  }

  lemma MovedSameIds(ps: seq<Product>, ms: seq<Item>, d: Direction)
    ensures SameIds(ps, Moved(ps, ms, d))
  {
    var r := Moved(ps, ms, d);
    forall k | 0 <= k < |ps| ensures r[k].id == ps[k].id {
      assert r[k] == if FindProduct(ps, ps[k].id) == Some(k) then Move(ps[k], Demand(ms, ps[k].id), d) else ps[k];
    }
  }

  lemma MoveAdditive(p: Product, a: int, b: int, d: Direction)
    ensures Move(Move(p, a, d), b, d) == Move(p, a + b, d)
  {
  }

  /** No lines, no change. */
  lemma MovedNothing(ps: seq<Product>, d: Direction)
    ensures Moved(ps, [], d) == ps
  {
    var target := Moved(ps, [], d);
    forall j | 0 <= j < |ps| ensures target[j] == ps[j] {
      assert Move(ps[j], 0, d) == ps[j];
    }
  }

  /** One more line moves the indexed product of its id by its quantity. */
  lemma ShiftMoved(ps: seq<Product>, init: seq<Item>, m: Item, d: Direction)
    ensures Shift(Moved(ps, init, d), m, d) == Moved(ps, init + [m], d)
  {
    var after := Shift(Moved(ps, init, d), m, d);
    var target := Moved(ps, init + [m], d);
    forall j | 0 <= j < |ps| ensures after[j] == target[j] {
      ShiftMovedAt(ps, init, m, d, j);
    }
  }

  lemma ShiftMovedAt(ps: seq<Product>, init: seq<Item>, m: Item, d: Direction, j: int)
    requires 0 <= j < |ps|
    ensures |Shift(Moved(ps, init, d), m, d)| == |ps|
    ensures Shift(Moved(ps, init, d), m, d)[j] == Moved(ps, init + [m], d)[j]
  {
    var before := Moved(ps, init, d);
    MovedSameIds(ps, init, d);
    FindProductSameIds(ps, before, m.productId);
    ShiftAt(before, m, d, j);
    if FindProduct(ps, m.productId) == Some(j) {
      ShiftMovedHit(ps, init, m, d, j);
    } else {
      ShiftMovedMiss(ps, init, m, d, j);
    }
  }

  /** The line's product is the one at j: it moves by the line's quantity
      on top of what the earlier lines moved it by. */
  lemma ShiftMovedHit(ps: seq<Product>, init: seq<Item>, m: Item, d: Direction, j: int)
    requires 0 <= j < |ps| && FindProduct(ps, m.productId) == Some(j)
    ensures Move(Moved(ps, init, d)[j], m.qty, d) == Moved(ps, init + [m], d)[j]
  {
    var pid := ps[j].id;
    DemandAppend(init, m, pid);
    MoveAdditive(ps[j], Demand(init, pid), m.qty, d);
  }

  /** The line's product is elsewhere: position j keeps what the earlier
      lines made of it. */
  lemma ShiftMovedMiss(ps: seq<Product>, init: seq<Item>, m: Item, d: Direction, j: int)
    requires 0 <= j < |ps| && FindProduct(ps, m.productId) != Some(j)
    ensures Moved(ps, init, d)[j] == Moved(ps, init + [m], d)[j]
  {
    var pid := ps[j].id;
    DemandAppend(init, m, pid);
    if FindProduct(ps, pid) == Some(j) {
      assert m.productId != pid;
    }
  }

  lemma DemandAppend(init: seq<Item>, m: Item, pid: int)
    ensures Demand(init + [m], pid) == Demand(init, pid) + (if m.productId == pid then m.qty else 0)
  {
    assert (init + [m])[..|init + [m]| - 1] == init;
  }

  /** Position j after one line: moved when the index points there. */
  lemma ShiftAt(xs: seq<Product>, m: Item, d: Direction, j: int)
    requires 0 <= j < |xs|
    ensures Shift(xs, m, d)[j]
            == if FindProduct(xs, m.productId) == Some(j) then Move(xs[j], m.qty, d) else xs[j]
  {
  }

  /** Applying the lines one by one is the aggregate move: each product
      with an indexed id moves by exactly its total demand, whatever the
      order or repetition of the lines. */
  lemma {:induction false} ApplyIsMoved(ps: seq<Product>, ms: seq<Item>, d: Direction)
    ensures Apply(ps, ms, d) == Moved(ps, ms, d)
  {
    if ms == [] {
      MovedNothing(ps, d);
    } else {
      var init, m := ms[..|ms| - 1], ms[|ms| - 1];
      assert init + [m] == ms;
      calc {
        Apply(ps, ms, d);
        Shift(Apply(ps, init, d), m, d);
        { ApplyIsMoved(ps, init, d); }
        Shift(Moved(ps, init, d), m, d);
        { ShiftMoved(ps, init, m, d); }
        Moved(ps, ms, d);
      }
    }
  }

  /** Moving every product by the same amounts in the opposite direction
      gives back the products exactly. */
  lemma MovedRoundTrip(ps: seq<Product>, ms: seq<Item>, d: Direction)
    ensures Moved(Moved(ps, ms, d), ms, Opposite(d)) == ps
  {
    var twice := Moved(Moved(ps, ms, d), ms, Opposite(d));
    forall j | 0 <= j < |ps| ensures twice[j] == ps[j] {
      MovedRoundTripAt(ps, ms, d, j);
    }
  }

  lemma MovedRoundTripAt(ps: seq<Product>, ms: seq<Item>, d: Direction, j: int)
    requires 0 <= j < |ps|
    ensures |Moved(Moved(ps, ms, d), ms, Opposite(d))| == |ps|
    ensures Moved(Moved(ps, ms, d), ms, Opposite(d))[j] == ps[j]
  {
    var once := Moved(ps, ms, d);
    MovedSameIds(ps, ms, d);
    FindProductSameIds(ps, once, ps[j].id);
    if FindProduct(ps, ps[j].id) == Some(j) {
      RoundTripIndexed(ps, once, ms, d, j);
    } else {
      RoundTripUnindexed(ps, once, ms, d, j);
    }
  }

  /** The indexed product moves there and back by the same demand. */
  lemma RoundTripIndexed(ps: seq<Product>, once: seq<Product>, ms: seq<Item>, d: Direction, j: int)
    requires 0 <= j < |ps| && once == Moved(ps, ms, d)
    requires FindProduct(ps, ps[j].id) == Some(j) && FindProduct(once, ps[j].id) == Some(j)
    ensures Moved(once, ms, Opposite(d))[j] == ps[j]
  {
    var q := Demand(ms, ps[j].id);
    MovedAtIndexed(ps, ms, d, j);
    assert once[j].id == ps[j].id;
    MovedAtIndexed(once, ms, Opposite(d), j);
    MoveInverse(ps[j], q, d);
  }

  lemma MovedAtIndexed(xs: seq<Product>, ms: seq<Item>, d: Direction, j: int)
    requires 0 <= j < |xs| && FindProduct(xs, xs[j].id) == Some(j)
    ensures Moved(xs, ms, d)[j] == Move(xs[j], Demand(ms, xs[j].id), d)
  {
  }

  lemma MoveInverse(p: Product, q: int, d: Direction)
    ensures Move(Move(p, q, d), q, Opposite(d)) == p
    ensures Move(p, q, d).id == p.id
  {
  }

  /** A product the index does not point at is never moved. */
  lemma RoundTripUnindexed(ps: seq<Product>, once: seq<Product>, ms: seq<Item>, d: Direction, j: int)
    requires 0 <= j < |ps| && once == Moved(ps, ms, d)
    requires FindProduct(ps, ps[j].id) != Some(j) && FindProduct(once, ps[j].id) != Some(j)
    ensures Moved(once, ms, Opposite(d))[j] == ps[j]
  {
    assert once[j] == ps[j];
  }

  /** The invariant behind edit_order and delete_order: undoing a set of
      lines with the opposite moves restores every product's stock and
      tally to what it was, for any lines and any product file. */
  lemma UndoRestores(ps: seq<Product>, ms: seq<Item>, d: Direction)
    ensures Apply(Apply(ps, ms, d), ms, Opposite(d)) == ps
  {
    ApplyIsMoved(ps, ms, d);
    ApplyIsMoved(Apply(ps, ms, d), ms, Opposite(d));
    MovedRoundTrip(ps, ms, d);
  }

  /** `index` stays valid while only stock fields change. */
  lemma IndexesSameIds(index: map<int, nat>, a: seq<Product>, b: seq<Product>)
    requires Indexes(index, a) && SameIds(a, b)
    ensures Indexes(index, b)
  {
    forall pid {
      FindProductSameIds(a, b, pid);
    }
  }

  /** The stock loops of add_order, edit_order and delete_order: each line
      looked up in the index and applied to the product it finds. */
  method ApplyMoves(ps: seq<Product>, index: map<int, nat>, ms: seq<Item>, d: Direction)
    returns (qs: seq<Product>)
    requires Indexes(index, ps)
    ensures qs == Apply(ps, ms, d)
  {
    qs := ps;
    for i := 0 to |ms|
      invariant qs == Apply(ps, ms[..i], d)
    {
      assert ms[..i + 1][..i] == ms[..i];
      var pid := ms[i].productId;
      FindProductSameIds(ps, qs, pid);
      if pid in index {
        var j := index[pid];
        qs := qs[j := Move(qs[j], ms[i].qty, d)];
      }
    }
    assert ms[..|ms|] == ms;
  }

  // ---------------------------------------------------------------- validation

  /** The check one item gets: its product must exist and, unless negative
      stock is allowed, its `product_stock` must cover this line's
      quantity on its own. */
  function ItemProblem(ps: seq<Product>, it: Item, allowNegative: bool): (r: Option<OrderError>)
    ensures r.None? ==> FindProduct(ps, it.productId).Some?
    ensures r.None? && !allowNegative ==>
              ps[FindProduct(ps, it.productId).value].productStock >= it.qty
  {
    match FindProduct(ps, it.productId)
    case None => Some(UnknownProduct(it.productId))
    case Some(j) =>
      if !allowNegative && ps[j].productStock - it.qty < 0
      then Some(InsufficientStock(it.productId, ps[j].productStock, it.qty))
      else None
  }

  /** The validation loop's verdict: the problem of the first item that
      has one, in item order. */
  function FirstProblem(ps: seq<Product>, items: seq<Item>, allowNegative: bool): (r: Option<OrderError>)
    ensures r.None? <==> forall k :: 0 <= k < |items| ==> ItemProblem(ps, items[k], allowNegative).None?
  {
    if items == [] then None
    else match ItemProblem(ps, items[0], allowNegative)
      case Some(e) => Some(e)
      case None =>
        assert forall k :: 1 <= k < |items| ==> items[k] == items[1..][k - 1];
        FirstProblem(ps, items[1..], allowNegative)
  }

  /** The validation loop, stopping at the first item that fails. */
  method CheckStock(ps: seq<Product>, index: map<int, nat>, items: seq<Item>, allowNegative: bool)
    returns (problem: Option<OrderError>)
    requires Indexes(index, ps)
    ensures problem == FirstProblem(ps, items, allowNegative)
  {
    for i := 0 to |items|
      invariant FirstProblem(ps, items, allowNegative) == FirstProblem(ps, items[i..], allowNegative)
    {
      var it := items[i];
      assert items[i..][0] == it && items[i..][1..] == items[i + 1..];
      if it.productId !in index {
        return Some(UnknownProduct(it.productId));
      }
      var have := ps[index[it.productId]].productStock;
      if !allowNegative && have - it.qty < 0 {
        return Some(InsufficientStock(it.productId, have, it.qty));
      }
    }
    problem := None;
  }

  /** Every item of an admitted list names a product. */
  predicate AllKnown(ps: seq<Product>, items: seq<Item>) {
    forall k :: 0 <= k < |items| ==> FindProduct(ps, items[k].productId).Some?
  }

  // ---------------------------------------------------------------- pricing

  /** The line for one item: the product's name and unit price at the
      time of ordering, and price times quantity. */
  function LineFor(p: Product, it: Item): LineItem {
    LineItem(it.productId, p.name, it.qty, p.price, p.price * it.qty)
  }

  /** One line per item, in item order, each priced from the product the
      index holds. */
  function LinesFor(ps: seq<Product>, items: seq<Item>): (r: seq<LineItem>)
    requires AllKnown(ps, items)
    ensures |r| == |items|
    ensures forall k :: 0 <= k < |items| ==>
              r[k].productId == items[k].productId && r[k].qty == items[k].qty
              && r[k].subtotal == r[k].price * r[k].qty
  {
    seq(|items|, k requires 0 <= k < |items| =>
      LineFor(ps[FindProduct(ps, items[k].productId).value], items[k]))
  }

  /** The grand total: the sum of the subtotals. */
  function Total(lines: seq<LineItem>): int {
    if lines == [] then 0 else Total(lines[..|lines| - 1]) + lines[|lines| - 1].subtotal
  }

  /** Stored lines read back as the items they were priced from. */
  lemma MovesOfLines(ps: seq<Product>, items: seq<Item>)
    requires AllKnown(ps, items)
    ensures Moves(LinesFor(ps, items)) == items
  {
  }

  /** Two product lists that agree on ids, names and prices price every
      order the same: stock moves never change a line. */
  predicate SameCatalog(a: seq<Product>, b: seq<Product>) {
    |a| == |b| && forall k :: 0 <= k < |a| ==>
      a[k].id == b[k].id && a[k].name == b[k].name && a[k].price == b[k].price
  }

  lemma {:induction false} ApplyKeepsCatalog(ps: seq<Product>, ms: seq<Item>, d: Direction)
    ensures SameCatalog(ps, Apply(ps, ms, d))
  {
    if ms != [] {
      ApplyKeepsCatalog(ps, ms[..|ms| - 1], d);
    }
  }

  lemma LinesForSameCatalog(a: seq<Product>, b: seq<Product>, items: seq<Item>)
    requires SameCatalog(a, b) && AllKnown(a, items)
    ensures AllKnown(b, items) && LinesFor(a, items) == LinesFor(b, items)
  {
    assert SameIds(a, b);
    forall pid {
      FindProductSameIds(a, b, pid);
    }
  }

  /** `_calc_lines_and_total`: the lines and the running total. Prices are
      in pence, so the rounding the source applies to each step is exact. */
  method CalcLines(ps: seq<Product>, index: map<int, nat>, items: seq<Item>)
    returns (lines: seq<LineItem>, total: int)
    requires Indexes(index, ps) && AllKnown(ps, items)
    ensures lines == LinesFor(ps, items) && total == Total(lines)
  {
    lines, total := [], 0;
    for i := 0 to |items|
      invariant lines == LinesFor(ps, items[..i]) && total == Total(lines)
    {
      assert items[..i + 1][..i] == items[..i];
      var p := ps[index[items[i].productId]];
      var line := LineFor(p, items[i]);
      assert (lines + [line])[..|lines|] == lines;
      lines := lines + [line];
      total := total + line.subtotal;
    }
    assert items[..|items|] == items;
  }

  /** Restocking the lines an order was priced with gives back exactly
      what taking its items removed. */
  lemma DeleteUndoesAdd(ps: seq<Product>, items: seq<Item>)
    requires AllKnown(ps, items)
    ensures Apply(Apply(ps, items, Take), Moves(LinesFor(ps, items)), Restock) == ps
  {
    MovesOfLines(ps, items);
    UndoRestores(ps, items, Take);
  }

  // ---------------------------------------------------------------- lookup and ids

  /** The position of the first order with the id: the loops of edit_order
      and delete_order stop at the first match. */
  function FindOrder(orders: seq<Order>, id: int): (r: Option<nat>)
    ensures r.Some? ==> r.value < |orders| && orders[r.value].id == id
    ensures r.Some? ==> forall k :: 0 <= k < r.value ==> orders[k].id != id
    ensures r.None? <==> forall k :: 0 <= k < |orders| ==> orders[k].id != id
  {
    if orders == [] then None
    else if orders[0].id == id then Some(0)
    else match FindOrder(orders[1..], id)
      case None => None
      case Some(i) => Some(i + 1)
  }

  method FindOrderIndex(orders: seq<Order>, id: int) returns (r: Option<nat>)
    ensures r == FindOrder(orders, id)
  {
    for i := 0 to |orders|
      invariant forall k :: 0 <= k < i ==> orders[k].id != id
    {
      if orders[i].id == id {
        return Some(i);
      }
    }
    r := None;
  }

  function OrderIds(orders: seq<Order>): (r: seq<int>)
    ensures |r| == |orders| && forall k :: 0 <= k < |orders| ==> r[k] == orders[k].id
  {
    seq(|orders|, k requires 0 <= k < |orders| => orders[k].id)
  }

  /** `id` is what `_next_order_id` gives: at least 1, above every order id,
      and one more than the largest of them when that is positive. */
  predicate IsNextOrderId(orders: seq<Order>, id: int) {
    && id >= 1
    && (forall k :: 0 <= k < |orders| ==> orders[k].id < id)
    && (id == 1 || id - 1 in OrderIds(orders))
  }

  method NextOrderId(orders: seq<Order>) returns (r: int)
    ensures IsNextOrderId(orders, r)
  {
    r := NextId(OrderIds(orders));
  }

  /** Only one value is the next id. */
  lemma NextOrderIdUnique(orders: seq<Order>, a: int, b: int)
    requires IsNextOrderId(orders, a) && IsNextOrderId(orders, b)
    ensures a == b
  {
    var ids := OrderIds(orders);
    if a != 1 {
      var k :| 0 <= k < |ids| && ids[k] == a - 1;
      assert orders[k].id == a - 1;
    }
    if b != 1 {
      var k :| 0 <= k < |ids| && ids[k] == b - 1;
      assert orders[k].id == b - 1;
    }
  }

  /** An order appended with the next id is the first with that id. */
  lemma AppendedOrderIsFound(orders: seq<Order>, o: Order)
    requires IsNextOrderId(orders, o.id)
    ensures FindOrder(orders + [o], o.id) == Some(|orders|)
  {
    var all := orders + [o];
    assert all[|orders|].id == o.id;
    assert forall k :: 0 <= k < |orders| ==> all[k].id == orders[k].id < o.id;
  }

  // ---------------------------------------------------------------- admission

  /** The checks of add_order, in the order it makes them: the items, the
      customer id, a non-empty product file, then each item on its own. */
  function AdmitOrder(arg: ItemsArg, customerId: int, ps: seq<Product>, allowNegative: bool)
    : (r: Result<seq<Item>, OrderError>)
    ensures r.Success? <==> Normalize(arg).Some? && customerId > 0 && ps != []
                            && FirstProblem(ps, Normalize(arg).value, allowNegative).None?
    ensures Normalize(arg).None? ==> r == Failure(InvalidItems)
    ensures Normalize(arg).Some? && customerId <= 0 ==> r == Failure(InvalidCustomer)
    ensures Normalize(arg).Some? && customerId > 0 && ps == [] ==> r == Failure(NoProductsExist)
    ensures r.Success? ==> r.value == Normalize(arg).value && AllKnown(ps, r.value)
    ensures r.Success? && !allowNegative ==> forall k :: 0 <= k < |r.value| ==>
              ps[FindProduct(ps, r.value[k].productId).value].productStock >= r.value[k].qty
  {
    match Normalize(arg)
    case None => Failure(InvalidItems)
    case Some(norm) =>
      if customerId <= 0 then Failure(InvalidCustomer)
      else if ps == [] then Failure(NoProductsExist)
      else match FirstProblem(ps, norm, allowNegative)
        case Some(e) => Failure(e)
        case None =>
          assert forall k :: 0 <= k < |norm| ==> ItemProblem(ps, norm[k], allowNegative).None?;
          Success(norm)
  }

  /** Each line is checked against stock on its own: two lines for the
      same product that each fit, but not together, are admitted, and the
      product's stock then goes negative. */
  lemma PerLineCheckAdmitsOversell(ps: seq<Product>, j: nat, q: int)
    requires j < |ps| && FindProduct(ps, ps[j].id) == Some(j)
    requires q >= 1 && q <= ps[j].productStock < 2 * q
    ensures FirstProblem(ps, [Item(ps[j].id, q), Item(ps[j].id, q)], false).None?
    ensures Apply(ps, [Item(ps[j].id, q), Item(ps[j].id, q)], Take)[j].productStock < 0
  {
    var pid := ps[j].id;
    var items := [Item(pid, q), Item(pid, q)];
    assert ItemProblem(ps, items[0], false).None?;
    assert FirstProblem(ps, items[1..], false).None?;
    TwoLinesDemand(Item(pid, q), pid);
    ApplyIsMoved(ps, items, Take);
    var moved := Moved(ps, items, Take);
    assert moved[j] == Move(ps[j], 2 * q, Take);
  }

  lemma TwoLinesDemand(m: Item, pid: int)
    requires m.productId == pid
    ensures Demand([m, m], pid) == 2 * m.qty
  {
    assert [m][..0] == [];
    assert Demand([m], pid) == m.qty;
    assert [m, m][..1] == [m];
    assert Demand([m, m], pid) == Demand([m], pid) + m.qty;
  }

  /** add_product writes `stock`, while the engine reads `product_stock`,
      which a new product does not have: whatever stock the product was
      created with, ordering it is refused unless negative stock is
      allowed. */
  lemma FreshProductCannotBeOrdered(ps: seq<Product>, id: int, f: NewFields, q: int)
    requires q >= 1
    ensures FirstProblem(ps + [FreshProduct(id, f)], [Item(id, q)], false)
            == Some(InsufficientStock(id, 0, q))
  {
    var all := ps + [FreshProduct(id, f)];
    assert FindProduct(all, id) == Some(|ps|);
  }

  // ---------------------------------------------------------------- the store

  /** The orders document, loaded. */
  class OrderStore {
    var orders: seq<Order>

    constructor (loaded: seq<Order>)
      ensures orders == loaded
    {
      orders := loaded;
    }

    /** add_order: on any refusal nothing changes; otherwise one order with
      the next id is appended and every line takes its quantity from its
      product's stock and adds it to the product's tally. */
    method AddOrder(items: ItemsArg, customerId: int, allowNegative: bool,
                    uuid: string, createdAt: string, store: ProductStore)
      returns (r: Result<Order, OrderError>)
      modifies this, store
      ensures var admitted := AdmitOrder(items, customerId, old(store.products), allowNegative);
        && (admitted.Failure? ==>
              r == Failure(admitted.error) && orders == old(orders)
              && store.products == old(store.products))
        && (admitted.Success? ==>
              && r.Success?
              && r.value.uuid == uuid && r.value.customerId == customerId
              && r.value.createdAt == createdAt
              && r.value.items == LinesFor(old(store.products), admitted.value)
              && r.value.total == Total(r.value.items)
              && IsNextOrderId(old(orders), r.value.id)
              && orders == old(orders) + [r.value]
              && store.products == Apply(old(store.products), admitted.value, Take))
    {
      var norm := NormalizeItems(items);
      if norm.None? {
        return Failure(InvalidItems);
      }
      if customerId <= 0 {
        return Failure(InvalidCustomer);
      }
      var ps := store.products;
      if ps == [] {
        return Failure(NoProductsExist);
      }
      var index := IndexProducts(ps);
      var problem := CheckStock(ps, index, norm.value, allowNegative);
      if problem.Some? {
        return Failure(problem.value);
      }
      assert AdmitOrder(items, customerId, ps, allowNegative) == Success(norm.value);
      var id := NextOrderId(orders);
      var lines, total := CalcLines(ps, index, norm.value);
      var order := Order(id, uuid, customerId, createdAt, lines, total);
      orders := orders + [order];
      var updated := ApplyMoves(ps, index, norm.value, Take);
      store.products := updated;
      r := Success(order);
    }

    /** edit_order: restock the order's old lines, check the new items
      against the restocked products, then either give the old lines'
      stock back (refusal) or take the new items and re-price the order. */
    method EditOrder(orderId: int, newItems: ItemsArg, allowNegative: bool, store: ProductStore)
      returns (r: Result<Order, OrderError>)
      modifies this, store
      ensures r.Failure? ==> orders == old(orders) && store.products == old(store.products)
      ensures FindOrder(old(orders), orderId).None? ==> r == Failure(OrderNotFound)
      ensures FindOrder(old(orders), orderId).Some? && Normalize(newItems).None? ==>
                r == Failure(InvalidItems)
      ensures FindOrder(old(orders), orderId).Some? && Normalize(newItems).Some? ==>
        var k := FindOrder(old(orders), orderId).value;
        var norm := Normalize(newItems).value;
        var restocked := Apply(old(store.products), Moves(old(orders)[k].items), Restock);
        match FirstProblem(restocked, norm, allowNegative)
        case Some(e) => r == Failure(e)
        case None =>
          && r.Success?
          && r.value == old(orders)[k].(items := LinesFor(restocked, norm),
                                        total := Total(LinesFor(restocked, norm)))
          && orders == old(orders)[k := r.value]
          && store.products == Apply(restocked, norm, Take)
    {
      var found := FindOrderIndex(orders, orderId);
      if found.None? {
        return Failure(OrderNotFound);
      }
      var k := found.value;
      var norm := NormalizeItems(newItems);
      if norm.None? {
        return Failure(InvalidItems);
      }
      var ps := store.products;
      var index := IndexProducts(ps);
      var oldMoves := Moves(orders[k].items);
      var restocked := ApplyMoves(ps, index, oldMoves, Restock);
      IndexesSameIds(index, ps, restocked);
      var problem := CheckStock(restocked, index, norm.value, allowNegative);
      if problem.Some? {
        var restored := ApplyMoves(restocked, index, oldMoves, Take);
        UndoRestores(ps, oldMoves, Restock);
        store.products := restored;
        return Failure(problem.value);
      }
      assert AllKnown(restocked, norm.value) by {
        assert forall i :: 0 <= i < |norm.value| ==> ItemProblem(restocked, norm.value[i], allowNegative).None?;
      }
      var updated := ApplyMoves(restocked, index, norm.value, Take);
      IndexesSameIds(index, restocked, updated);
      ApplyKeepsCatalog(restocked, norm.value, Take);
      LinesForSameCatalog(restocked, updated, norm.value);
      var lines, total := CalcLines(updated, index, norm.value);
      store.products := updated;
      var edited := orders[k].(items := lines, total := total);
      orders := orders[k := edited];
      r := Success(edited);
    }

    /** delete_order: the first order with the id goes, the others keep
      their order, and each of its lines gives its quantity back. */
    method DeleteOrder(orderId: int, store: ProductStore) returns (deleted: bool)
      modifies this, store
      ensures FindOrder(old(orders), orderId).None? ==>
                !deleted && orders == old(orders) && store.products == old(store.products)
      ensures FindOrder(old(orders), orderId).Some? ==>
        var k := FindOrder(old(orders), orderId).value;
        && deleted
        && orders == old(orders)[..k] + old(orders)[k + 1..]
        && store.products == Apply(old(store.products), Moves(old(orders)[k].items), Restock)
    {
      var found := FindOrderIndex(orders, orderId);
      if found.None? {
        return false;
      }
      var k := found.value;
      var ps := store.products;
      var index := IndexProducts(ps);
      var restocked := ApplyMoves(ps, index, Moves(orders[k].items), Restock);
      store.products := restocked;
      orders := orders[..k] + orders[k + 1..];
      deleted := true;
    }

    /** Adding an order and deleting it again leaves both files as they
      were: the new order is the only one with its id, its lines read
      back as the items that were taken, and restocking them undoes the
      take. */
    method AddThenDelete(items: ItemsArg, customerId: int, allowNegative: bool,
                         uuid: string, createdAt: string, store: ProductStore)
      returns (added: Result<Order, OrderError>)
      modifies this, store
      ensures orders == old(orders) && store.products == old(store.products)
    {
      ghost var ps := store.products;
      ghost var before := orders;
      added := AddOrder(items, customerId, allowNegative, uuid, createdAt, store);
      if added.Success? {
        ghost var norm := AdmitOrder(items, customerId, ps, allowNegative).value;
        AppendedOrderIsFound(before, added.value);
        DeleteUndoesAdd(ps, norm);
        var deleted := DeleteOrder(added.value.id, store);
        assert orders == (before + [added.value])[..|before|];
        assert orders == before;
      }
    }
  }

  // ---------------------------------------------------------------- listings

  /** Python's order on the key `(created_at, order_id)`. */
  predicate StampLe(at1: string, id1: int, at2: string, id2: int) {
    StrLt(at1, at2) || (at1 == at2 && id1 <= id2)
  }

  lemma StampLeTotal(at1: string, id1: int, at2: string, id2: int)
    ensures StampLe(at1, id1, at2, id2) || StampLe(at2, id2, at1, id1)
  {
    StrLeTotal(at1, at2);
  }

  lemma StampLeTransitive(at1: string, id1: int, at2: string, id2: int, at3: string, id3: int)
    requires StampLe(at1, id1, at2, id2) && StampLe(at2, id2, at3, id3)
    ensures StampLe(at1, id1, at3, id3)
  {
    if at1 != at2 && at2 != at3 {
      StrLeTransitive(at1, at2, at3);
      if at1 == at3 {
        StrLeAntisymmetric(at1, at2);
      }
    }
  }

  function OrderLe(): (Order, Order) -> bool {
    (a: Order, b: Order) => StampLe(a.createdAt, a.id, b.createdAt, b.id)
  }

  lemma OrderLeTotalPreorder()
    ensures TotalPreorder(OrderLe())
  {
    var le := OrderLe();
    forall a: Order, b: Order ensures le(a, b) || le(b, a) {
      StampLeTotal(a.createdAt, a.id, b.createdAt, b.id);
    }
    forall a: Order, b: Order, c: Order | le(a, b) && le(b, c) ensures le(a, c) {
      StampLeTransitive(a.createdAt, a.id, b.createdAt, b.id, c.createdAt, c.id);
    }
  }

  /** Most recent first: descending by `(created_at, order_id)`. */
  function NewestFirst(orders: seq<Order>): (r: seq<Order>)
    ensures multiset(r) == multiset(orders)
    ensures SortedBy(r, Flip(OrderLe()))
    ensures forall y :: Ties(r, y, Flip(OrderLe())) == Ties(orders, y, Flip(OrderLe()))
  {
    OrderLeTotalPreorder();
    FlipTotalPreorder(OrderLe());
    SortBySorted(orders, Flip(OrderLe()));
    SortByStable(orders, Flip(OrderLe()));
    SortBy(orders, Flip(OrderLe()))
  }

  /** list_orders: every order, most recent first. */
  function ListOrders(orders: seq<Order>): (r: seq<Order>)
    ensures multiset(r) == multiset(orders)
    ensures forall i, j :: 0 <= i < j < |r| ==>
              StampLe(r[j].createdAt, r[j].id, r[i].createdAt, r[i].id)
  {
    NewestFirst(orders)
  }

  /** The orders of one customer, in file order. */
  function OfCustomer(orders: seq<Order>, customerId: int): (r: seq<Order>)
    ensures forall k :: 0 <= k < |r| ==> r[k].customerId == customerId
  {
    if orders == [] then []
    else OfCustomer(orders[..|orders| - 1], customerId)
         + (if orders[|orders| - 1].customerId == customerId then [orders[|orders| - 1]] else [])
  }

  /** The filter keeps exactly the customer's orders, each as often as it
      occurs in the file. */
  lemma {:induction false} OfCustomerCounts(orders: seq<Order>, customerId: int, o: Order)
    ensures multiset(OfCustomer(orders, customerId))[o]
            == if o.customerId == customerId then multiset(orders)[o] else 0
  {
    if orders != [] {
      var init := orders[..|orders| - 1];
      OfCustomerCounts(init, customerId, o);
      assert orders == init + [orders[|orders| - 1]];
    }
  }

  /** list_orders_for_customer and get_customer_orders: the customer's
      orders, most recent first. */
  function ListOrdersForCustomer(orders: seq<Order>, customerId: int): (r: seq<Order>)
    ensures multiset(r) == multiset(OfCustomer(orders, customerId))
    ensures forall k :: 0 <= k < |r| ==> r[k].customerId == customerId
    ensures forall i, j :: 0 <= i < j < |r| ==>
              StampLe(r[j].createdAt, r[j].id, r[i].createdAt, r[i].id)
  {
    var mine := OfCustomer(orders, customerId);
    var r := NewestFirst(mine);
    forall k | 0 <= k < |r| ensures r[k].customerId == customerId {
      assert r[k] in multiset(mine);
    }
    r
  }

  /** One row of get_orders_for_product: an order line for the product
      with the order's id, uuid and time. */
  datatype ProductOrderRow = ProductOrderRow(
    orderId: int, uuid: string, qty: int, price: int, subtotal: int, createdAt: string)

  function LineRows(o: Order, items: seq<LineItem>, pid: int): seq<ProductOrderRow> {
    if items == [] then []
    else
      var li := items[|items| - 1];
      LineRows(o, items[..|items| - 1], pid)
      + (if li.productId == pid
         then [ProductOrderRow(o.id, o.uuid, li.qty, li.price, li.subtotal, o.createdAt)]
         else [])
  }

  /** The rows in file order: order by order, line by line. */
  function RowsFor(orders: seq<Order>, pid: int): seq<ProductOrderRow> {
    if orders == [] then []
    else RowsFor(orders[..|orders| - 1], pid)
         + LineRows(orders[|orders| - 1], orders[|orders| - 1].items, pid)
  }

  function RowOrderIds(rows: seq<ProductOrderRow>): (r: seq<int>)
    ensures |r| == |rows| && forall k :: 0 <= k < |rows| ==> r[k] == rows[k].orderId
  {
    seq(|rows|, k requires 0 <= k < |rows| => rows[k].orderId)
  }

  lemma RowOrderIdsAppend(a: seq<ProductOrderRow>, b: seq<ProductOrderRow>)
    ensures RowOrderIds(a + b) == RowOrderIds(a) + RowOrderIds(b)
  {
  }

  lemma {:induction false} LineRowsAreRefs(o: Order, items: seq<LineItem>, pid: int)
    ensures RowOrderIds(LineRows(o, items, pid)) == LineRefs(o.id, items, pid)
  {
    if items != [] {
      var li := items[|items| - 1];
      LineRowsAreRefs(o, items[..|items| - 1], pid);
      RowOrderIdsAppend(LineRows(o, items[..|items| - 1], pid),
        if li.productId == pid
        then [ProductOrderRow(o.id, o.uuid, li.qty, li.price, li.subtotal, o.createdAt)]
        else []);
    }
  }

  /** The rows name the same orders, in the same order and as often, as
      the references that block delete_product for the product. */
  lemma {:induction false} RowsAreBlockers(orders: seq<Order>, pid: int)
    ensures RowOrderIds(RowsFor(orders, pid)) == OrderRefs(orders, pid)
  {
    if orders != [] {
      var last := orders[|orders| - 1];
      RowsAreBlockers(orders[..|orders| - 1], pid);
      LineRowsAreRefs(last, last.items, pid);
      RowOrderIdsAppend(RowsFor(orders[..|orders| - 1], pid), LineRows(last, last.items, pid));
    }
  }

  function RowLe(): (ProductOrderRow, ProductOrderRow) -> bool {
    (a: ProductOrderRow, b: ProductOrderRow) => StampLe(a.createdAt, a.orderId, b.createdAt, b.orderId)
  }

  lemma RowLeTotalPreorder()
    ensures TotalPreorder(RowLe())
  {
    var le := RowLe();
    forall a: ProductOrderRow, b: ProductOrderRow ensures le(a, b) || le(b, a) {
      StampLeTotal(a.createdAt, a.orderId, b.createdAt, b.orderId);
    }
    forall a: ProductOrderRow, b: ProductOrderRow, c: ProductOrderRow | le(a, b) && le(b, c)
      ensures le(a, c)
    {
      StampLeTransitive(a.createdAt, a.orderId, b.createdAt, b.orderId, c.createdAt, c.orderId);
    }
  }

  /** get_orders_for_product: one row per line for the product, most
      recent first. */
  function OrdersForProduct(orders: seq<Order>, pid: int): (r: seq<ProductOrderRow>)
    ensures multiset(r) == multiset(RowsFor(orders, pid))
    ensures forall i, j :: 0 <= i < j < |r| ==>
              StampLe(r[j].createdAt, r[j].orderId, r[i].createdAt, r[i].orderId)
    ensures forall y :: Ties(r, y, Flip(RowLe())) == Ties(RowsFor(orders, pid), y, Flip(RowLe()))
  {
    RowLeTotalPreorder();
    FlipTotalPreorder(RowLe());
    SortBySorted(RowsFor(orders, pid), Flip(RowLe()));
    SortByStable(RowsFor(orders, pid), Flip(RowLe()));
    SortBy(RowsFor(orders, pid), Flip(RowLe()))
  }
}
