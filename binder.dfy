/** Assigning categories to products (functions/product_categories.py):
    the numbered category menu, the choice a 1-based selection makes in it
    (an existing category, or a new one when adding is allowed), writing
    the choice into a product, and doing so for the product at a 0-based
    position in the products file. */
module Binder {
  import opened Common
  import opened Records
  import opened Categories
  import Products

  datatype BindError =
    | InvalidSelection
    | NewNameRequired
    | AddRefused(reason: CategoryError)
    /** `int(None)` raises when the chosen category has no id under either
        key; the product is left as it was. */
    | MissingCategoryId

  // ---------------------------------------------------------------- menu

  /** `category.get('category_id', category.get('id'))` as printed. */
  function IdText(c: Category): string {
    match CategoryIdOf(c)
    case Some(n) => IntText(n)
    case None => "None"
  }

  function MenuLine(number: nat, c: Category): string {
    NatText(number) + ". " + c.name + " (id=" + IdText(c) + ")"
  }

  function AddLine(number: nat): string {
    NatText(number) + ". + Add a new category\U{2026}"
  }

  /** get_category_menu: one numbered line per category in listing order,
      then the add line when adding is allowed. */
  function CategoryMenu(categories: seq<Category>, allowAdd: bool): (r: seq<string>)
    ensures |r| == |categories| + (if allowAdd then 1 else 0)
  {
    var sorted := ListCategories(categories);
    seq(|sorted|, i requires 0 <= i < |sorted| => MenuLine(i + 1, sorted[i]))
      + (if allowAdd then [AddLine(|sorted| + 1)] else [])
  }

  /** The digits a line starts with. */
  function LeadingDigits(s: string): (r: string)
    ensures AllDigits(r) && r <= s
  {
    if s != [] && IsDigit(s[0]) then [s[0]] + LeadingDigits(s[1..]) else []
  }

  lemma {:induction false} LeadingDigitsOf(d: string, rest: string)
    requires AllDigits(d)
    requires rest != [] && !IsDigit(rest[0])
    ensures LeadingDigits(d + rest) == d
  {
    if d != [] {
      assert (d + rest)[1..] == d[1..] + rest;
      LeadingDigitsOf(d[1..], rest);
    } else {
      assert d + rest == rest;
    }
  }

  // ---------------------------------------------------------------- choice

  datatype Choice = OutOfRange | Existing(index: nat) | AddNew

  /** What a 1-based selection picks among `count` listed categories. */
  function Choose(count: nat, selection: int, allowAdd: bool): (r: Choice)
    ensures r.OutOfRange? <==> selection < 1 || selection > count + (if allowAdd then 1 else 0)
    ensures r.Existing? <==> 1 <= selection <= count
    ensures r.Existing? ==> r.index == selection - 1 < count
    ensures r.AddNew? <==> allowAdd && selection == count + 1
  {
    if selection < 1 || selection > count + (if allowAdd then 1 else 0) then OutOfRange
    else if selection <= count then Existing(selection - 1)
    else AddNew
  }

  /** A category line starts with its own number. */
  lemma MenuLineNumber(number: nat, c: Category)
    ensures DigitsValue(LeadingDigits(MenuLine(number, c))) == number
  {
    var rest := ". " + c.name + " (id=" + IdText(c) + ")";
    assert MenuLine(number, c) == NatText(number) + rest;
    LeadingDigitsOf(NatText(number), rest);
  }

  /** The add line starts with its own number. */
  lemma AddLineNumber(number: nat)
    ensures DigitsValue(LeadingDigits(AddLine(number))) == number
  {
    var rest := ". + Add a new category\U{2026}";
    assert AddLine(number) == NatText(number) + rest;
    LeadingDigitsOf(NatText(number), rest);
  }

  /** Menu line n (1-based) names the n-th listed category, or is the add
      line when n is one past the categories. */
  lemma MenuLineAt(categories: seq<Category>, allowAdd: bool, selection: int)
    requires 1 <= selection <= |CategoryMenu(categories, allowAdd)|
    ensures selection <= |categories| ==>
              CategoryMenu(categories, allowAdd)[selection - 1]
              == MenuLine(selection, ListCategories(categories)[selection - 1])
    ensures selection == |categories| + 1 ==>
              CategoryMenu(categories, allowAdd)[selection - 1] == AddLine(selection)
  {
  }

  /** The menu and the choice agree: the number a line starts with is the
      selection that picks it, line n names the category selection n
      chooses, and the number after the last category is the add line. */
  lemma MenuAgreesWithChoice(categories: seq<Category>, allowAdd: bool, selection: int)
    requires 1 <= selection <= |CategoryMenu(categories, allowAdd)|
    ensures var line := CategoryMenu(categories, allowAdd)[selection - 1];
            DigitsValue(LeadingDigits(line)) == selection
    ensures selection <= |categories| ==>
              && Choose(|categories|, selection, allowAdd) == Existing(selection - 1)
              && CategoryMenu(categories, allowAdd)[selection - 1]
                 == MenuLine(selection, ListCategories(categories)[selection - 1])
    ensures selection == |categories| + 1 ==>
              && Choose(|categories|, selection, allowAdd) == AddNew
              && CategoryMenu(categories, allowAdd)[selection - 1] == AddLine(selection)
  {
    MenuLineAt(categories, allowAdd, selection);
    if selection <= |categories| {
      MenuLineNumber(selection, ListCategories(categories)[selection - 1]);
    } else {
      AddLineNumber(selection);
    }
  }

  /** The product with the category written in. */
  function WithCategory(p: Product, c: Category): Product
    requires CategoryIdOf(c).Some?
  {
    p.(categoryId := CategoryIdOf(c), categoryName := Some(c.name))
  }

  /** apply_category_choice_to_product: pick from the listing, or add the
      stripped new name; on success the product carries the chosen
      category's id and name and the chosen category is in the store. */
  method ApplyCategoryChoice(product: Product, selection: int, newName: Option<string>, allowAdd: bool,
                             store: CategoryStore)
    returns (chosen: Result<Category, BindError>, updated: Product)
    modifies store
    ensures store.wrapped == old(store.wrapped)
    ensures chosen.Failure? ==> updated == product
    ensures chosen.Success? ==> CategoryIdOf(chosen.value).Some? && updated == WithCategory(product, chosen.value)
    ensures chosen.Success? ==> chosen.value in store.categories
    ensures Choose(|old(store.categories)|, selection, allowAdd).OutOfRange? ==>
              chosen == Failure(InvalidSelection) && store.categories == old(store.categories)
    ensures Choose(|old(store.categories)|, selection, allowAdd).Existing? ==>
              && store.categories == old(store.categories)
              && var c := ListCategories(old(store.categories))[selection - 1];
              && chosen == (if CategoryIdOf(c).Some? then Success(c) else Failure(MissingCategoryId))
    ensures Choose(|old(store.categories)|, selection, allowAdd).AddNew? && (newName.None? || Blank(newName.value)) ==>
              chosen == Failure(NewNameRequired) && store.categories == old(store.categories)
    ensures Choose(|old(store.categories)|, selection, allowAdd).AddNew? && newName.Some? && !Blank(newName.value) ==>
              if NameFree(old(store.categories), NameKey(newName.value)) then
                && chosen.Success?
                && chosen.value.name == Trim(newName.value)
                && chosen.value.key.CategoryIdKey?
                && IsNextCategoryId(old(store.categories), chosen.value.key.n)
                && store.categories == old(store.categories) + [chosen.value]
              else
                && chosen == Failure(AddRefused(DuplicateName))
                && store.categories == old(store.categories)
  {
    var categories := ListCategories(store.categories);
    var choice := Choose(|categories|, selection, allowAdd);
    updated := product;
    match choice {
      case OutOfRange =>
        return Failure(InvalidSelection), product;
      case Existing(i) =>
        var c := categories[i];
        assert c in multiset(categories);
        if CategoryIdOf(c).None? {
          return Failure(MissingCategoryId), product;
        }
        chosen := Success(c);
      case AddNew =>
        if newName.None? || Blank(newName.value) {
          return Failure(NewNameRequired), product;
        }
        var name := Trim(newName.value);
        TrimIdempotent(newName.value);
        NameKeyOfStripped(newName.value);
        assert !Blank(name);
        var added := store.AddCategory(name);
        if added.Failure? {
          return Failure(AddRefused(added.error)), product;
        }
        chosen := Success(added.value);
    }
    updated := WithCategory(product, chosen.value);
  }

  /** Products that name a category of the store, by id and name. */
  predicate Names(categories: seq<Category>, p: Product) {
    exists k :: 0 <= k < |categories| && CategoryIdOf(categories[k]) == p.categoryId
                && Some(categories[k].name) == p.categoryName
  }

  /** assign_category_to_product_by_index: refused for a position outside
      the products; otherwise it succeeds exactly when the choice does, and
      then only that product's category fields change, to the chosen
      category (an existing one from the listing, or the new one appended
      to the store). */
  method AssignCategoryByIndex(productIndex: int, selection: int, newName: Option<string>, allowAdd: bool,
                               products: Products.ProductStore, store: CategoryStore)
    returns (ok: bool)
    modifies products, store
    ensures store.wrapped == old(store.wrapped)
    ensures !ok ==> products.products == old(products.products)
    ensures !(0 <= productIndex < |old(products.products)|) ==>
              !ok && store.categories == old(store.categories)
    ensures 0 <= productIndex < |old(products.products)| ==>
              var p := old(products.products)[productIndex];
              match Choose(|old(store.categories)|, selection, allowAdd)
              case OutOfRange => !ok && store.categories == old(store.categories)
              case Existing(i) =>
                var c := ListCategories(old(store.categories))[i];
                && store.categories == old(store.categories)
                && (ok <==> CategoryIdOf(c).Some?)
                && (ok ==> products.products == old(products.products)[productIndex := WithCategory(p, c)])
              case AddNew =>
                if newName.None? || Blank(newName.value)
                   || !NameFree(old(store.categories), NameKey(newName.value)) then
                  !ok && store.categories == old(store.categories)
                else
                  && ok
                  && |store.categories| == |old(store.categories)| + 1
                  && store.categories[..|old(store.categories)|] == old(store.categories)
                  && var c := store.categories[|old(store.categories)|];
                  && c.name == Trim(newName.value)
                  && c.key.CategoryIdKey?
                  && IsNextCategoryId(old(store.categories), c.key.n)
                  && CategoryIdOf(c).Some?
                  && products.products == old(products.products)[productIndex := WithCategory(p, c)]
    ensures ok ==> 0 <= productIndex < |products.products| && Names(store.categories, products.products[productIndex])
  {
    if products.products == [] || productIndex < 0 || productIndex >= |products.products| {
      return false;
    }
    var product := products.products[productIndex];
    var chosen, updated := ApplyCategoryChoice(product, selection, newName, allowAdd, store);
    if chosen.Failure? {
      return false;
    }
    var k :| 0 <= k < |store.categories| && store.categories[k] == chosen.value;
    products.products := products.products[productIndex := updated];
    ok := true;
  }
}
