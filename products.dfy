/** The product store (functions/product_manager.py): parsing of the stock
    and price fields typed by a user, id allocation, adding a product,
    deleting one unless an order line refers to it, keyed sorting, and the
    recount of each product's order tally from the order lines. */
module Products {
  import opened Common
  import opened Records

  datatype ProductError =
    | NameRequired
    | InvalidPrice
    | InvalidStock
    | NoProducts
    | ReferencedByOrders(orderIds: set<int>)
    | ProductNotFound

  // ---------------------------------------------------------------- stock text

  /** `_convert_product_stock`: the stripped text must be a non-empty run
      of ASCII digits; leading zeros are allowed. */
  function ConvertStock(s: string): (r: Option<nat>)
    ensures r.Some? <==> Trim(s) != [] && AllDigits(Trim(s))
    ensures r.Some? ==> r.value == DigitsValue(Trim(s))
  {
    var t := Trim(s);
    if t != [] && AllDigits(t) then Some(DigitsValue(t)) else None
  }

  /** Any character other than a digit or whitespace makes the text
      invalid, wherever it stands. */
  lemma ConvertStockOnlyDigits(s: string, i: int)
    requires 0 <= i < |s| && !IsDigit(s[i]) && !IsSpace(s[i])
    ensures ConvertStock(s) == None
  {
    TrimKeeps(s, i);
  }

  /** A sign, a decimal point, or no digits at all: refused. */
  lemma ConvertStockRejects()
    ensures ConvertStock("") == None
    ensures ConvertStock("   ") == None
    ensures ConvertStock("-1") == None
    ensures ConvertStock("1.5") == None
  {
    ConvertStockOnlyDigits("-1", 0);
    ConvertStockOnlyDigits("1.5", 1);
  }

  /** Every stock figure, written in decimal and surrounded by any
      whitespace, reads back as itself. */
  lemma StockTextRoundTrip(n: nat, before: string, after: string)
    requires forall i :: 0 <= i < |before| ==> IsSpace(before[i])
    requires forall i :: 0 <= i < |after| ==> IsSpace(after[i])
    ensures ConvertStock(before + NatText(n) + after) == Some(n)
  {
    var d := NatText(n);
    var s := before + d + after;
    assert !IsSpace(d[0]) && !IsSpace(d[|d| - 1]);
    assert Trim(s) == d by {
      assert s == before + (d + after);
      TrimStartSkips(before, d + after);
      TrimEndSkips(d, after);
    }
  }

  /** The converse: accepted stock text is whitespace, then a run of
      digits (leading zeros allowed) whose value is the stock, then
      whitespace. */
  lemma ConvertStockShape(s: string)
    requires ConvertStock(s).Some?
    ensures exists i, j :: 0 <= i < j <= |s|
              && (forall k :: 0 <= k < i ==> IsSpace(s[k]))
              && (forall k :: j <= k < |s| ==> IsSpace(s[k]))
              && AllDigits(s[i..j]) && DigitsValue(s[i..j]) == ConvertStock(s).value
  {
    var t := TrimStart(s);
    var i := |s| - |t|;
    var j := i + |TrimEnd(t)|;
    assert Trim(s) == TrimEnd(t);
    assert s[i..j] == TrimEnd(t);
    forall k | j <= k < |s| ensures IsSpace(s[k]) {
      assert s[k] == t[k - i];
    }
  }

  lemma {:induction false} TrimStartSkips(spaces: string, rest: string)
    requires forall i :: 0 <= i < |spaces| ==> IsSpace(spaces[i])
    requires rest != [] && !IsSpace(rest[0])
    ensures TrimStart(spaces + rest) == rest
  {
    if spaces != [] {
      assert (spaces + rest)[1..] == spaces[1..] + rest;
      TrimStartSkips(spaces[1..], rest);
    } else {
      assert spaces + rest == rest;
    }
  }

  lemma {:induction false} TrimEndSkips(rest: string, spaces: string)
    requires forall i :: 0 <= i < |spaces| ==> IsSpace(spaces[i])
    requires rest != [] && !IsSpace(rest[|rest| - 1])
    ensures TrimEnd(rest + spaces) == rest
  {
    if spaces != [] {
      assert (rest + spaces)[..|rest + spaces| - 1] == rest + spaces[..|spaces| - 1];
      TrimEndSkips(rest, spaces[..|spaces| - 1]);
    } else {
      assert rest + spaces == rest;
    }
  }

  // ---------------------------------------------------------------- price text

  predicate IsCurrencySymbol(c: char) {
    c == '£' || c == '$' || c == '€'
  }

  function RemoveCommas(s: string): (r: string)
    ensures forall i :: 0 <= i < |r| ==> r[i] != ','
    ensures (forall i :: 0 <= i < |s| ==> s[i] != ',') ==> r == s
  {
    if s == [] then [] else (if s[0] == ',' then [] else [s[0]]) + RemoveCommas(s[1..])
  }

  /** One step of the comma removal, from the front. */
  lemma RemoveCommasCons(c: char, t: string)
    ensures RemoveCommas([c] + t) == (if c == ',' then [] else [c]) + RemoveCommas(t)
  {
    assert ([c] + t)[1..] == t;
  }

  /** The string handling of `_convert_product_price_from_string` before
      the text reaches float(): strip, drop every comma, then drop at most
      one leading currency symbol and strip again. */
  function PreprocessPrice(s: string): (r: string)
    ensures forall i :: 0 <= i < |r| ==> r[i] != ','
  {
    var t := RemoveCommas(Trim(s));
    if t != [] && IsCurrencySymbol(t[0]) then Trim(t[1..]) else t
  }

  /** Text with no commas and no surrounding whitespace passes the strip
      and comma steps unchanged. */
  lemma PreprocessCleanText(t: string)
    requires t != [] && !IsSpace(t[0]) && !IsSpace(t[|t| - 1])
    requires forall i :: 0 <= i < |t| ==> t[i] != ','
    ensures RemoveCommas(Trim(t)) == t
  {
    TrimFixed(t);
  }

  /** One leading symbol before clean text is dropped. */
  lemma PreprocessOneSymbol(c: char, t: string)
    requires IsCurrencySymbol(c)
    requires t != [] && !IsSpace(t[0]) && !IsSpace(t[|t| - 1])
    requires forall i :: 0 <= i < |t| ==> t[i] != ','
    ensures PreprocessPrice([c] + t) == t
  {
    var one := [c] + t;
    assert forall i :: 0 <= i < |one| ==> one[i] != ',';
    PreprocessCleanText(one);
    TrimFixed(t);
    assert one[1..] == t;
  }

  /** Of two leading symbols before clean text, only the first is dropped. */
  lemma PreprocessTwoSymbols(c: char, t: string)
    requires IsCurrencySymbol(c)
    requires t != [] && !IsSpace(t[0]) && !IsSpace(t[|t| - 1])
    requires forall i :: 0 <= i < |t| ==> t[i] != ','
    ensures PreprocessPrice([c, c] + t) == [c] + t
  {
    var one := [c] + t;
    var two := [c, c] + t;
    assert forall i :: 0 <= i < |two| ==> two[i] != ',';
    PreprocessCleanText(two);
    TrimFixed(one);
    assert two[1..] == one;
  }

  /** A price with no commas and no surrounding whitespace reaches
      float() as typed when it has no currency symbol, and without the
      symbol when it has one; a doubled symbol keeps its second copy, so
      float() sees it and refuses the text. */
  lemma PreprocessPriceSymbols(c: char, t: string)
    requires IsCurrencySymbol(c)
    requires t != [] && !IsSpace(t[0]) && !IsSpace(t[|t| - 1])
    requires forall i :: 0 <= i < |t| ==> t[i] != ','
    ensures !IsCurrencySymbol(t[0]) ==> PreprocessPrice(t) == t
    ensures PreprocessPrice([c] + t) == t
    ensures PreprocessPrice([c, c] + t) == [c] + t
  {
    PreprocessCleanText(t);
    PreprocessOneSymbol(c, t);
    PreprocessTwoSymbols(c, t);
  }

  /** round(v, 2) in pence, rounding halves up: the whole number of pence
      nearest to v. */
  function Pence(v: real): (r: int)
    requires v >= 0.0
    ensures r >= 0
    ensures (r as real) - 0.5 <= v * 100.0 < (r as real) + 0.5
  {
    (v * 100.0 + 0.5).Floor
  }

  /** `_convert_product_price_from_string` in pence. `toNumber` stands
      for Python's float() on the preprocessed text; a negative value is
      refused before rounding. */
  function ConvertPrice(s: string, toNumber: string -> Option<real>): (r: Option<int>)
    ensures r.Some? ==> r.value >= 0
    ensures r.None? <==> toNumber(PreprocessPrice(s)).None? || toNumber(PreprocessPrice(s)).value < 0.0
    ensures r.Some? ==> toNumber(PreprocessPrice(s)).Some?
                        && var v := toNumber(PreprocessPrice(s)).value;
                        (r.value as real) - 0.5 <= v * 100.0 < (r.value as real) + 0.5
  {
    match toNumber(PreprocessPrice(s))
    case None => None
    case Some(v) => if v < 0.0 then None else Some(Pence(v))
  }

  /** "£12.50" is 1250 pence when float() reads "12.50" as 12.5; the
      comma is dropped as a thousands separator, so "1,250" is 125000 pence
      when float() reads "1250" as 1250. */
  lemma ConvertPriceExamples(toNumber: string -> Option<real>)
    requires toNumber("12.50") == Some(12.5) && toNumber("1250") == Some(1250.0)
    ensures ConvertPrice("£12.50", toNumber) == Some(1250)
    ensures ConvertPrice("1,250", toNumber) == Some(125000)
  {
    assert "£12.50" == ['£'] + "12.50";
    PreprocessOneSymbol('£', "12.50");
    assert Pence(12.5) == 1250;
    PreprocessThousands();
    assert Pence(1250.0) == 125000;
  }

  /** The comma of "1,250" is removed before float() sees the text. */
  lemma PreprocessThousands()
    ensures PreprocessPrice("1,250") == "1250"
  {
    assert "1,250" == ['1', ','] + "250";
    PreprocessCommaAfterFirst('1', "250");
    assert ['1'] + "250" == "1250";
  }

  /** A comma after the first character of clean text is dropped, and
      nothing else changes when that character is not a currency symbol. */
  lemma PreprocessCommaAfterFirst(d: char, b: string)
    requires d != ',' && !IsSpace(d) && !IsCurrencySymbol(d)
    requires b != [] && !IsSpace(b[|b| - 1])
    requires forall i :: 0 <= i < |b| ==> b[i] != ','
    ensures PreprocessPrice([d, ','] + b) == [d] + b
  {
    var s := [d, ','] + b;
    assert s[0] == d && s[|s| - 1] == b[|b| - 1];
    TrimFixed(s);
    RemoveCommaAfter(d, b);
    var t := RemoveCommas(Trim(s));
    assert t == [d] + b;
    assert t[0] == d;
  }

  lemma RemoveCommaAfter(d: char, b: string)
    requires d != ','
    requires forall i :: 0 <= i < |b| ==> b[i] != ','
    ensures RemoveCommas([d, ','] + b) == [d] + b
  {
    assert RemoveCommas(b) == b;
    RemoveCommasCons(',', b);
    assert RemoveCommas([','] + b) == b;
    RemoveCommasCons(d, [','] + b);
    assert RemoveCommas([d] + ([','] + b)) == [d] + b;
    assert [d, ','] + b == [d] + ([','] + b);
  }






  // ---------------------------------------------------------------- adding

  /** The validated fields of a new product. */
  datatype NewFields = NewFields(name: string, price: int, stock: nat)

  /** The checks add_product makes before it touches the file, in the
      order it makes them: name, then price, then stock. */
  function CheckNewProduct(name: string, priceText: string, stockText: string,
                           toNumber: string -> Option<real>): (r: Result<NewFields, ProductError>)
    ensures r.Success? <==> !Blank(name) && ConvertPrice(priceText, toNumber).Some?
                            && ConvertStock(stockText).Some?
    ensures Blank(name) ==> r == Failure(NameRequired)
    ensures !Blank(name) && ConvertPrice(priceText, toNumber).None? ==> r == Failure(InvalidPrice)
    ensures !Blank(name) && ConvertPrice(priceText, toNumber).Some? && ConvertStock(stockText).None? ==>
              r == Failure(InvalidStock)
    ensures r.Success? ==> r.value.name == Trim(name) && !Blank(r.value.name)
                           && r.value.price >= 0
                           && Some(r.value.price) == ConvertPrice(priceText, toNumber)
                           && Some(r.value.stock) == ConvertStock(stockText)
  {
    TrimIdempotent(name);
    if Blank(name) then Failure(NameRequired)
    else match ConvertPrice(priceText, toNumber)
      case None => Failure(InvalidPrice)
      case Some(price) =>
        match ConvertStock(stockText)
        case None => Failure(InvalidStock)
        case Some(stock) => Success(NewFields(Trim(name), price, stock))
  }

  /** The record add_product appends: no category yet, and none of the
      keys the order engine and the tally recount write, so those read 0. */
  function FreshProduct(id: int, f: NewFields): Product {
    Product(id, f.name, f.price, f.stock, 0, 0, 0, None, None)
  }

  /** `_next_product_id`'s result: one more than the largest id, or 1 when
      no id is positive. */
  predicate IsNextProductId(ps: seq<Product>, id: int) {
    && id >= 1
    && (forall k :: 0 <= k < |ps| ==> ps[k].id < id)
    && (id == 1 || exists k :: 0 <= k < |ps| && ps[k].id == id - 1)
  }

  method NextProductId(ps: seq<Product>) returns (r: int)
    ensures IsNextProductId(ps, r)
  {
    var ids := seq(|ps|, k requires 0 <= k < |ps| => ps[k].id);
    r := NextId(ids);
    assert forall k :: 0 <= k < |ps| ==> ps[k].id == ids[k];
  }

  // ---------------------------------------------------------------- deleting

  /** The products whose id is not `pid`, in their original order. */
  function Without(ps: seq<Product>, pid: int): (r: seq<Product>)
    ensures |r| <= |ps|
    ensures forall k :: 0 <= k < |r| ==> r[k].id != pid
    ensures |r| == |ps| <==> forall k :: 0 <= k < |ps| ==> ps[k].id != pid
  {
    if ps == [] then []
    else
      var init := ps[..|ps| - 1];
      Without(init, pid) + (if ps[|ps| - 1].id != pid then [ps[|ps| - 1]] else [])
  }

  /** The filter keeps exactly the products with another id. */
  lemma {:induction false} WithoutMembers(ps: seq<Product>, pid: int)
    ensures forall p: Product :: p in Without(ps, pid) <==> p in ps && p.id != pid
  {
    if ps != [] {
      var init := ps[..|ps| - 1];
      WithoutMembers(init, pid);
      assert ps == init + [ps[|ps| - 1]];
    }
  }

  /** Filtering keeps order: the survivors of a concatenation are the
      survivors of each part, one after the other. */
  lemma {:induction false} WithoutAppend(a: seq<Product>, b: seq<Product>, pid: int)
    ensures Without(a + b, pid) == Without(a, pid) + Without(b, pid)
  {
    if b == [] {
      assert a + b == a;
    } else {
      var bi := b[..|b| - 1];
      assert (a + b)[..|a + b| - 1] == a + bi;
      WithoutAppend(a, bi, pid);
    }
  }

  /** The `kept` loop of delete_product: every product whose id differs
      is kept, in order, and `removed` says whether any matched. */
  method KeepOthers(ps: seq<Product>, pid: int) returns (kept: seq<Product>, removed: bool)
    ensures kept == Without(ps, pid)
    ensures !removed <==> forall k :: 0 <= k < |ps| ==> ps[k].id != pid
  {
    kept, removed := [], false;
    for i := 0 to |ps|
      invariant kept == Without(ps[..i], pid)
      invariant !removed <==> forall k :: 0 <= k < i ==> ps[k].id != pid
    {
      assert ps[..i + 1][..i] == ps[..i];
      if ps[i].id == pid {
        removed := true;
      } else {
        kept := kept + [ps[i]];
      }
    }
    assert ps[..|ps|] == ps;
  }

  /** The ids of the orders with a line for `pid`, once per such line. */
  function LineRefs(orderId: int, items: seq<LineItem>, pid: int): seq<int> {
    if items == [] then []
    else LineRefs(orderId, items[..|items| - 1], pid)
         + (if items[|items| - 1].productId == pid then [orderId] else [])
  }

  function OrderRefs(orders: seq<Order>, pid: int): seq<int> {
    if orders == [] then []
    else OrderRefs(orders[..|orders| - 1], pid)
         + LineRefs(orders[|orders| - 1].id, orders[|orders| - 1].items, pid)
  }

  predicate References(o: Order, pid: int) {
    exists k :: 0 <= k < |o.items| && o.items[k].productId == pid
  }

  lemma {:induction false} LineRefsSpec(orderId: int, items: seq<LineItem>, pid: int)
    ensures forall x :: x in LineRefs(orderId, items, pid) ==> x == orderId
    ensures LineRefs(orderId, items, pid) != []
            <==> exists k :: 0 <= k < |items| && items[k].productId == pid
  {
    if items != [] {
      var init := items[..|items| - 1];
      LineRefsSpec(orderId, init, pid);
      assert forall k :: 0 <= k < |init| ==> init[k] == items[k];
    }
  }

  /** An id is among the blockers exactly when it is the id of an order
      with a line for the product. */
  lemma {:induction false} OrderRefsSpec(orders: seq<Order>, pid: int)
    ensures forall x :: x in OrderRefs(orders, pid)
              <==> exists i :: 0 <= i < |orders| && orders[i].id == x && References(orders[i], pid)
  {
    if orders != [] {
      var init := orders[..|orders| - 1];
      var last := orders[|orders| - 1];
      OrderRefsSpec(init, pid);
      LineRefsSpec(last.id, last.items, pid);
      forall x ensures x in OrderRefs(orders, pid)
                <==> exists i :: 0 <= i < |orders| && orders[i].id == x && References(orders[i], pid)
      {
        var refs := LineRefs(last.id, last.items, pid);
        assert OrderRefs(orders, pid) == OrderRefs(init, pid) + refs;
        if x in OrderRefs(orders, pid) {
          if x in OrderRefs(init, pid) {
            var i :| 0 <= i < |init| && init[i].id == x && References(init[i], pid);
            assert orders[i] == init[i];
            assert orders[i].id == x && References(orders[i], pid);
          } else {
            assert x in refs;
            assert orders[|orders| - 1] == last && last.id == x && References(last, pid);
          }
        }
        if exists i :: 0 <= i < |orders| && orders[i].id == x && References(orders[i], pid) {
          var i :| 0 <= i < |orders| && orders[i].id == x && References(orders[i], pid);
          if i < |init| {
            assert init[i] == orders[i];
            assert x in OrderRefs(init, pid);
          } else {
            assert orders[i] == last && References(last, pid);
            assert refs != [] && refs[0] in refs;
            assert refs[0] == last.id == x;
          }
        }
      }
    }
  }

  /** The blocker scan of delete_product: the id of every order, once for
      each of its lines that refers to `pid`, in file order. */
  method FindBlockers(orders: seq<Order>, pid: int) returns (blockers: seq<int>)
    ensures blockers == OrderRefs(orders, pid)
  {
    blockers := [];
    for i := 0 to |orders|
      invariant blockers == OrderRefs(orders[..i], pid)
    {
      assert orders[..i + 1][..i] == orders[..i];
      var items := orders[i].items;
      var found := [];
      for k := 0 to |items|
        invariant found == LineRefs(orders[i].id, items[..k], pid)
      {
        assert items[..k + 1][..k] == items[..k];
        if items[k].productId == pid {
          found := found + [orders[i].id];
        }
      }
      assert items[..|items|] == items;
      blockers := blockers + found;
    }
    assert orders[..|orders|] == orders;
  }

  // ---------------------------------------------------------------- sorting

  datatype SortKey = ById | ByName | ByPrice | ByOrders | ByStock

  /** The `by` argument of `_sorted_product`; anything unknown sorts by id. */
  function SortKeyOf(field: string): SortKey {
    if field == "id" then ById
    else if field == "name" then ByName
    else if field == "price" then ByPrice
    else if field == "orders" then ByOrders
    else if field == "stock" then ByStock
    else ById
  }

  /** The comparison on the sort key: ids, casefolded names, prices,
      order tallies or the `stock` field. */
  function KeyLe(key: SortKey): (Product, Product) -> bool {
    match key
    case ById => (a: Product, b: Product) => a.id <= b.id
    case ByName => (a: Product, b: Product) => StrLe(Casefold(a.name), Casefold(b.name))
    case ByPrice => (a: Product, b: Product) => a.price <= b.price
    case ByOrders => (a: Product, b: Product) => a.orderTally <= b.orderTally
    case ByStock => (a: Product, b: Product) => a.stock <= b.stock
  }

  lemma KeyLeTotalPreorder(key: SortKey)
    ensures TotalPreorder(KeyLe(key))
  {
    if key == ByName {
      var le := KeyLe(key);
      forall a: Product, b: Product ensures le(a, b) || le(b, a) {
        StrLeTotal(Casefold(a.name), Casefold(b.name));
      }
      forall a: Product, b: Product, c: Product | le(a, b) && le(b, c) ensures le(a, c) {
        StrLeTransitive(Casefold(a.name), Casefold(b.name), Casefold(c.name));
      }
    }
  }

  /** `str(direction).lower() == "desc"`. */
  predicate IsDescending(direction: string) {
    Casefold(direction) == "desc"
  }

  /** `_sorted_product` / `sort_products`: a permutation of the products,
      ordered by the chosen key, largest first when the direction is
      "desc" in any letter case. */
  function SortProducts(ps: seq<Product>, field: string, direction: string): (r: seq<Product>)
    ensures multiset(r) == multiset(ps)
    ensures !IsDescending(direction) ==> SortedBy(r, KeyLe(SortKeyOf(field)))
    ensures IsDescending(direction) ==> SortedBy(r, Flip(KeyLe(SortKeyOf(field))))
    ensures !IsDescending(direction) ==> forall y :: Ties(r, y, KeyLe(SortKeyOf(field))) == Ties(ps, y, KeyLe(SortKeyOf(field)))
    ensures IsDescending(direction) ==> forall y :: Ties(r, y, Flip(KeyLe(SortKeyOf(field)))) == Ties(ps, y, Flip(KeyLe(SortKeyOf(field))))
  {
    var le := KeyLe(SortKeyOf(field));
    KeyLeTotalPreorder(SortKeyOf(field));
    FlipTotalPreorder(le);
    var cmp := if IsDescending(direction) then Flip(le) else le;
    SortBySorted(ps, cmp);
    SortByStable(ps, cmp);
    SortBy(ps, cmp)
  }

  // ---------------------------------------------------------------- tally

  function Max0(q: int): (r: nat)
    ensures r >= q
  {
    if q < 0 then 0 else q
  }

  /** The quantity the lines order of `pid`, negative quantities counting 0. */
  function LinesTally(items: seq<LineItem>, pid: int): (r: nat) {
    if items == [] then 0
    else LinesTally(items[..|items| - 1], pid)
         + (if items[|items| - 1].productId == pid then Max0(items[|items| - 1].qty) else 0)
  }

  function Tally(orders: seq<Order>, pid: int): (r: nat) {
    if orders == [] then 0
    else Tally(orders[..|orders| - 1], pid) + LinesTally(orders[|orders| - 1].items, pid)
  }

  /** The tally is additive over the order file: appending orders adds
      their lines and nothing else. */
  lemma {:induction false} TallyAppend(a: seq<Order>, b: seq<Order>, pid: int)
    ensures Tally(a + b, pid) == Tally(a, pid) + Tally(b, pid)
  {
    if b == [] {
      assert a + b == a;
    } else {
      assert (a + b)[..|a + b| - 1] == a + b[..|b| - 1];
      TallyAppend(a, b[..|b| - 1], pid);
    }
  }

  /** Orders with no line for the product add nothing to its tally. */
  lemma {:induction false} TallyIgnoresOtherProducts(orders: seq<Order>, pid: int)
    requires forall i :: 0 <= i < |orders| ==> !References(orders[i], pid)
    ensures Tally(orders, pid) == 0
  {
    if orders != [] {
      var last := orders[|orders| - 1];
      TallyIgnoresOtherProducts(orders[..|orders| - 1], pid);
      LinesTallyZero(last.items, pid);
    }
  }

  lemma {:induction false} LinesTallyZero(items: seq<LineItem>, pid: int)
    requires forall k :: 0 <= k < |items| ==> items[k].productId != pid
    ensures LinesTally(items, pid) == 0
  {
    if items != [] {
      LinesTallyZero(items[..|items| - 1], pid);
    }
  }

  /** The sums of the tally recount: for every id in `ids`, the ordered
      quantity over all order lines; lines for other ids are skipped. */
  method OrderTotals(orders: seq<Order>, ids: set<int>) returns (totals: map<int, int>)
    ensures totals.Keys == ids
    ensures forall pid :: pid in ids ==> totals[pid] == Tally(orders, pid)
  {
    totals := map pid | pid in ids :: 0;
    for i := 0 to |orders|
      invariant totals.Keys == ids
      invariant forall pid :: pid in ids ==> totals[pid] == Tally(orders[..i], pid)
    {
      assert orders[..i + 1][..i] == orders[..i];
      var items := orders[i].items;
      for k := 0 to |items|
        invariant totals.Keys == ids
        invariant forall pid :: pid in ids ==>
                    totals[pid] == Tally(orders[..i], pid) + LinesTally(items[..k], pid)
      {
        assert items[..k + 1][..k] == items[..k];
        var pid := items[k].productId;
        if pid in totals {
          totals := totals[pid := totals[pid] + Max0(items[k].qty)];
        }
      }
      assert items[..|items|] == items;
    }
    assert orders[..|orders|] == orders;
  }

  /** The products after the recount: the product a dictionary keyed by id
      would hold for each id gets that id's tally; every other field, the
      stock fields included, and every shadowed duplicate stay as they were. */
  function Retallied(ps: seq<Product>, orders: seq<Order>): (r: seq<Product>)
    ensures |r| == |ps|
    ensures forall j :: 0 <= j < |ps| && FindProduct(ps, ps[j].id) == Some(j) ==>
              r[j] == ps[j].(orderTally := Tally(orders, ps[j].id))
    ensures forall j :: 0 <= j < |ps| && FindProduct(ps, ps[j].id) != Some(j) ==> r[j] == ps[j]
  {
    seq(|ps|, j requires 0 <= j < |ps| =>
      if FindProduct(ps, ps[j].id) == Some(j) then ps[j].(orderTally := Tally(orders, ps[j].id))
      else ps[j])
  }

  /** The write-back step on its own: the position the index gives for
      an id that has a total receives that total; nothing else changes. */
  function WrittenBack(ps: seq<Product>, index: map<int, nat>, totals: map<int, int>): (r: seq<Product>)
    ensures |r| == |ps|
    ensures forall j :: 0 <= j < |ps| ==> r[j].id == ps[j].id
  {
    seq(|ps|, j requires 0 <= j < |ps| =>
      if ps[j].id in index && index[ps[j].id] == j && ps[j].id in totals
      then ps[j].(orderTally := totals[ps[j].id]) else ps[j])
  }

  /** The `for pid, total in totals.items()` loop: writes each total into
      the indexed product, and reports whether any stored tally differed. */
  method WriteBack(ps: seq<Product>, index: map<int, nat>, totals: map<int, int>)
    returns (qs: seq<Product>, changed: bool)
    ensures qs == WrittenBack(ps, index, totals)
    ensures changed <==> qs != ps
  {
    ghost var target := WrittenBack(ps, index, totals);
    qs, changed := ps, false;
    for j := 0 to |ps|
      invariant |qs| == |ps|
      invariant forall m :: j <= m < |ps| ==> qs[m] == ps[m]
      invariant forall m :: 0 <= m < j ==> qs[m] == target[m]
      invariant !changed <==> forall m :: 0 <= m < j ==> qs[m] == ps[m]
    {
      var p := ps[j];
      if p.id in index && index[p.id] == j && p.id in totals && p.orderTally != totals[p.id] {
        qs := qs[j := p.(orderTally := totals[p.id])];
        changed := true;
      }
    }
    if !changed {
      assert qs == ps;
    }
  }

  /** With the index `_index_products_by_id` builds and the sums of the
      order lines, the write-back is exactly the recount. */
  lemma WrittenBackRetallies(ps: seq<Product>, orders: seq<Order>, index: map<int, nat>,
                             totals: map<int, int>)
    requires Indexes(index, ps)
    requires totals.Keys == index.Keys
    requires forall pid :: pid in index ==> totals[pid] == Tally(orders, pid)
    ensures WrittenBack(ps, index, totals) == Retallied(ps, orders)
  {
    var w := WrittenBack(ps, index, totals);
    var r := Retallied(ps, orders);
    forall j | 0 <= j < |ps| ensures w[j] == r[j] {
      assert FindProduct(ps, ps[j].id).Some?;
    }
  }

  // ---------------------------------------------------------------- the store

  /** The products document, loaded. */
  class ProductStore {
    var products: seq<Product>

    constructor (loaded: seq<Product>)
      ensures products == loaded
    {
      products := loaded;
    }

    /** add_product: validate, then append one product with the next id. */
    method AddProduct(name: string, priceText: string, stockText: string,
                      toNumber: string -> Option<real>) returns (r: Result<Product, ProductError>)
      modifies this
      ensures var checked := CheckNewProduct(name, priceText, stockText, toNumber);
        && (checked.Failure? ==> r == Failure(checked.error) && products == old(products))
        && (checked.Success? ==>
              && r.Success?
              && r.value == FreshProduct(r.value.id, checked.value)
              && IsNextProductId(old(products), r.value.id)
              && products == old(products) + [r.value])
    {
      var checked := CheckNewProduct(name, priceText, stockText, toNumber);
      if checked.Failure? {
        return Failure(checked.error);
      }
      var id := NextProductId(products);
      var p := FreshProduct(id, checked.value);
      products := products + [p];
      r := Success(p);
    }

    /** delete_product: refused when the file is empty or an order line
      refers to the product; otherwise every product with that id goes. */
    method DeleteProduct(orders: seq<Order>, pid: int) returns (r: Status<ProductError>)
      modifies this
      ensures old(products) == [] ==> r == Refused(NoProducts)
      ensures old(products) != [] && OrderRefs(orders, pid) != [] ==>
                r == Refused(ReferencedByOrders(set x | x in OrderRefs(orders, pid)))
      ensures old(products) != [] && OrderRefs(orders, pid) == []
              && (forall k :: 0 <= k < |old(products)| ==> old(products)[k].id != pid) ==>
                r == Refused(ProductNotFound)
      ensures (old(products) != [] && OrderRefs(orders, pid) == []
               && exists k :: 0 <= k < |old(products)| && old(products)[k].id == pid) ==> r == Done
      ensures r.Refused? ==> products == old(products)
      ensures r.Done? ==> products == Without(old(products), pid) && |products| < |old(products)|
    {
      if products == [] {
        return Refused(NoProducts);
      }
      var blockers := FindBlockers(orders, pid);
      if blockers != [] {
        return Refused(ReferencedByOrders(set x | x in blockers));
      }
      var kept, removed := KeepOthers(products, pid);
      if !removed {
        return Refused(ProductNotFound);
      }
      products := kept;
      r := Done;
    }

    /** calculate_product_order_tally. `changed` says whether anything
      differed, which is when the source saves the file. */
    method RecalculateTally(orders: seq<Order>) returns (changed: bool)
      modifies this
      ensures products == Retallied(old(products), orders)
      ensures changed <==> products != old(products)
    {
      if products == [] {
        return false;
      }
      var index := IndexProducts(products);
      var totals := OrderTotals(orders, index.Keys);
      WrittenBackRetallies(products, orders, index, totals);
      var updated;
      updated, changed := WriteBack(products, index, totals);
      if changed {
        products := updated;
      }
    }
  }
}
