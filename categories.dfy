/** The category store (functions/category_manager.py): the two shapes of
    the categories document, id allocation, the name-ordered listing, and
    adding, renaming and deleting categories, with the checks against the
    products that refer to them. Categories are flat: an id and a name.
    Names are compared stripped and casefolded, and the store keeps them
    pairwise different under that comparison. */
module Categories {
  import opened Common
  import opened Records
  import Products

  datatype CategoryError =
    | NameRequired
    | DuplicateName
    | NoCategories
    | CategoryNotFound
    | InUse(productIds: seq<int>)

  // ---------------------------------------------------------------- document

  /** What the categories file holds: nothing, text that is not JSON, an
      object (with or without a list under "categories"), a list, or any
      other JSON value. */
  datatype CategoryDoc =
    | NoFile
    | Unreadable
    | ObjectDoc(listed: Option<seq<Category>>)
    | ListDoc(entries: seq<Category>)
    | OtherJson

  /** The categories and whether the document wraps them in an object. */
  datatype Loaded = Loaded(categories: seq<Category>, wrapped: bool)

  /** `_load_categories`. */
  function Load(doc: CategoryDoc): Loaded {
    match doc
    case ObjectDoc(Some(cs)) => Loaded(cs, true)
    case ListDoc(cs) => Loaded(cs, false)
    case _ => Loaded([], false)
  }

  /** `_save_categories`: the shape the document was loaded in. */
  function Save(categories: seq<Category>, wrapped: bool): CategoryDoc {
    if wrapped then ObjectDoc(Some(categories)) else ListDoc(categories)
  }

  /** Loading what was saved gives back the categories and the shape. */
  lemma LoadAfterSave(categories: seq<Category>, wrapped: bool)
    ensures Load(Save(categories, wrapped)) == Loaded(categories, wrapped)
  {
  }

  /** A wrapped or bare document is saved back exactly as it was loaded;
      anything else loads as an empty bare list. */
  lemma SaveAfterLoad(doc: CategoryDoc)
    ensures (doc.ObjectDoc? && doc.listed.Some?) || doc.ListDoc? ==>
              Save(Load(doc).categories, Load(doc).wrapped) == doc
    ensures !((doc.ObjectDoc? && doc.listed.Some?) || doc.ListDoc?) ==> Load(doc) == Loaded([], false)
  {
  }

  // ---------------------------------------------------------------- ids

  /** `category.get("category_id", category.get("id", 0))`. */
  function IdOrZero(c: Category): int {
    match CategoryIdOf(c)
    case Some(n) => n
    case None => 0
  }

  /** `_next_category_id`: at least 1 and above every id a category has,
      under either key. */
  /** `_next_category_id`'s result: one more than the largest id under
      either key (a category without one counts as 0), or 1 when no id is
      positive. */
  predicate IsNextCategoryId(categories: seq<Category>, id: int) {
    && id >= 1
    && (forall k :: 0 <= k < |categories| && CategoryIdOf(categories[k]).Some? ==>
          CategoryIdOf(categories[k]).value < id)
    && (id == 1 || exists k :: 0 <= k < |categories| && IdOrZero(categories[k]) == id - 1)
  }

  method NextCategoryId(categories: seq<Category>) returns (r: int)
    ensures IsNextCategoryId(categories, r)
  {
    var ids := seq(|categories|, k requires 0 <= k < |categories| => IdOrZero(categories[k]));
    r := NextId(ids);
    assert forall k :: 0 <= k < |categories| ==> ids[k] == IdOrZero(categories[k]);
  }

  // ---------------------------------------------------------------- names

  /** The comparison key of a name: stripped and casefolded. */
  function NameKey(name: string): string {
    Casefold(Trim(name))
  }

  /** No category has the key. */
  predicate NameFree(categories: seq<Category>, key: string) {
    forall k :: 0 <= k < |categories| ==> NameKey(categories[k].name) != key
  }

  /** The invariant add and rename keep: no two categories share a key. */
  predicate DistinctNames(categories: seq<Category>) {
    forall i, j :: 0 <= i < j < |categories| ==> NameKey(categories[i].name) != NameKey(categories[j].name)
  }

  /** The duplicate scan of add_category and update_category_name. */
  method NameClash(categories: seq<Category>, key: string) returns (clash: bool)
    ensures clash <==> !NameFree(categories, key)
  {
    for i := 0 to |categories|
      invariant forall k :: 0 <= k < i ==> NameKey(categories[k].name) != key
    {
      var own := NameKey(categories[i].name);
      if own == key {
        return true;
      }
      assert forall k :: 0 <= k < i + 1 ==> NameKey(categories[k].name) != key by {
        forall k | 0 <= k < i + 1 ensures NameKey(categories[k].name) != key {
          if k == i {
            assert own != key;
          }
        }
      }
    }
    clash := false;
  }

  /** A stored name is stripped, so its key is the key of what was typed. */
  lemma NameKeyOfStripped(name: string)
    ensures NameKey(Trim(name)) == NameKey(name)
  {
    TrimIdempotent(name);
  }

  /** Adding a category under the stripped form of a name whose key is
      free keeps the names distinct. */
  lemma AddKeepsDistinct(categories: seq<Category>, name: string, c: Category)
    requires NameFree(categories, NameKey(name)) && c.name == Trim(name)
    ensures DistinctNames(categories) ==> DistinctNames(categories + [c])
  {
    NameKeyOfStripped(name);
    if DistinctNames(categories) {
      DistinctAppend(categories, c);
    }
  }

  /** Appending a category whose key is free keeps the names distinct. */
  lemma DistinctAppend(categories: seq<Category>, c: Category)
    requires DistinctNames(categories) && NameFree(categories, NameKey(c.name))
    ensures DistinctNames(categories + [c])
  {
    var all := categories + [c];
    forall i, j | 0 <= i < j < |all| ensures NameKey(all[i].name) != NameKey(all[j].name) {
      assert all[i] == categories[i];
    }
  }

  /** Renaming one category to a key no category had keeps the names
      distinct. */
  lemma DistinctRename(categories: seq<Category>, k: int, name: string)
    requires 0 <= k < |categories|
    requires DistinctNames(categories) && NameFree(categories, NameKey(name))
    ensures DistinctNames(categories[k := categories[k].(name := name)])
  {
  }

  // ---------------------------------------------------------------- listing

  function NameLe(): (Category, Category) -> bool {
    (a: Category, b: Category) => StrLe(Casefold(a.name), Casefold(b.name))
  }

  lemma NameLeTotalPreorder()
    ensures TotalPreorder(NameLe())
  {
    var le := NameLe();
    forall a: Category, b: Category ensures le(a, b) || le(b, a) {
      StrLeTotal(Casefold(a.name), Casefold(b.name));
    }
    forall a: Category, b: Category, c: Category | le(a, b) && le(b, c) ensures le(a, c) {
      StrLeTransitive(Casefold(a.name), Casefold(b.name), Casefold(c.name));
    }
  }

  /** `list_categories`: the categories ordered by casefolded name (not
      stripped), equal names keeping file order. */
  function ListCategories(categories: seq<Category>): (r: seq<Category>)
    ensures multiset(r) == multiset(categories)
    ensures |r| == |categories|
    ensures forall i, j :: 0 <= i < j < |r| ==> StrLe(Casefold(r[i].name), Casefold(r[j].name))
    ensures forall y :: Ties(r, y, NameLe()) == Ties(categories, y, NameLe())
  {
    NameLeTotalPreorder();
    SortBySorted(categories, NameLe());
    SortByStable(categories, NameLe());
    var r := SortBy(categories, NameLe());
    assert |r| == |multiset(r)| == |multiset(categories)| == |categories|;
    r
  }

  // ---------------------------------------------------------------- lookups

  /** The position of the first category with the id, under either key:
      the rename loop stops there. */
  function FindCategory(categories: seq<Category>, id: int): (r: Option<nat>)
    ensures r.Some? ==> r.value < |categories| && CategoryIdOf(categories[r.value]) == Some(id)
    ensures r.Some? ==> forall k :: 0 <= k < r.value ==> CategoryIdOf(categories[k]) != Some(id)
    ensures r.None? <==> forall k :: 0 <= k < |categories| ==> CategoryIdOf(categories[k]) != Some(id)
  {
    if categories == [] then None
    else if CategoryIdOf(categories[0]) == Some(id) then Some(0)
    else match FindCategory(categories[1..], id)
      case None => None
      case Some(i) => Some(i + 1)
  }

  method FindCategoryIndex(categories: seq<Category>, id: int) returns (r: Option<nat>)
    ensures r == FindCategory(categories, id)
  {
    for i := 0 to |categories|
      invariant forall k :: 0 <= k < i ==> CategoryIdOf(categories[k]) != Some(id)
    {
      if CategoryIdOf(categories[i]) == Some(id) {
        return Some(i);
      }
    }
    r := None;
  }

  /** The categories whose id is not `id`, in order; a category with no
      id is always kept. */
  function WithoutCategory(categories: seq<Category>, id: int): (r: seq<Category>)
    ensures |r| <= |categories|
    ensures forall k :: 0 <= k < |r| ==> CategoryIdOf(r[k]) != Some(id)
    ensures |r| == |categories| <==> forall k :: 0 <= k < |categories| ==> CategoryIdOf(categories[k]) != Some(id)
  {
    if categories == [] then []
    else
      var init := categories[..|categories| - 1];
      var last := categories[|categories| - 1];
      WithoutCategory(init, id) + (if CategoryIdOf(last) != Some(id) then [last] else [])
  }

  /** The filter keeps exactly the categories with another id (or none). */
  lemma {:induction false} WithoutCategoryMembers(categories: seq<Category>, id: int)
    ensures forall c: Category :: c in WithoutCategory(categories, id)
              <==> c in categories && CategoryIdOf(c) != Some(id)
  {
    if categories != [] {
      var init := categories[..|categories| - 1];
      WithoutCategoryMembers(init, id);
      assert categories == init + [categories[|categories| - 1]];
    }
  }

  /** The last of distinctly named categories has a key free among the rest. */
  lemma LastNameFree(categories: seq<Category>)
    requires categories != [] && DistinctNames(categories)
    ensures NameFree(categories[..|categories| - 1], NameKey(categories[|categories| - 1].name))
  {
    var init := categories[..|categories| - 1];
    forall k | 0 <= k < |init| ensures NameKey(init[k].name) != NameKey(categories[|categories| - 1].name) {
      assert init[k] == categories[k];
    }
  }

  /** A key free among some categories is free among any of them. */
  lemma NameFreeAmongFewer(few: seq<Category>, many: seq<Category>, key: string)
    requires forall c :: c in few ==> c in many
    requires NameFree(many, key)
    ensures NameFree(few, key)
  {
    forall k | 0 <= k < |few| ensures NameKey(few[k].name) != key {
      assert few[k] in many;
    }
  }

  /** Removing categories keeps the names distinct. */
  lemma {:induction false} WithoutCategoryDistinct(categories: seq<Category>, id: int)
    requires DistinctNames(categories)
    ensures DistinctNames(WithoutCategory(categories, id))
  {
    if categories != [] {
      var init := categories[..|categories| - 1];
      var last := categories[|categories| - 1];
      assert DistinctNames(init) by {
        forall i, j | 0 <= i < j < |init| ensures NameKey(init[i].name) != NameKey(init[j].name) {
          assert init[i] == categories[i] && init[j] == categories[j];
        }
      }
      WithoutCategoryDistinct(init, id);
      if CategoryIdOf(last) != Some(id) {
        var kept := WithoutCategory(init, id);
        WithoutCategoryMembers(init, id);
        LastNameFree(categories);
        NameFreeAmongFewer(kept, init, NameKey(last.name));
        DistinctAppend(kept, last);
      }
    }
  }

  /** The `kept` loop of delete_category. */
  method KeepCategories(categories: seq<Category>, id: int) returns (kept: seq<Category>, removed: bool)
    ensures kept == WithoutCategory(categories, id)
    ensures !removed <==> forall k :: 0 <= k < |categories| ==> CategoryIdOf(categories[k]) != Some(id)
  {
    kept, removed := [], false;
    for i := 0 to |categories|
      invariant kept == WithoutCategory(categories[..i], id)
      invariant !removed <==> forall k :: 0 <= k < i ==> CategoryIdOf(categories[k]) != Some(id)
    {
      assert categories[..i + 1][..i] == categories[..i];
      if CategoryIdOf(categories[i]) == Some(id) {
        removed := true;
      } else {
        kept := kept + [categories[i]];
      }
    }
    assert categories[..|categories|] == categories;
  }

  // ---------------------------------------------------------------- renaming

  /** The categories after the one at `k` takes the stripped new name. */
  function Renamed(categories: seq<Category>, k: nat, newName: string): seq<Category>
    requires k < |categories|
  {
    categories[k := categories[k].(name := Trim(newName))]
  }

  /** The checks of update_category_name, in the source's order: a blank
      name, an empty store, a key some category already has (the target
      included, so a change of letter case alone is refused), an unknown
      id. On success, the position of the first category with the id. */
  function RenameOutcome(categories: seq<Category>, id: int, newName: string): (r: Result<nat, CategoryError>)
    ensures r.Success? ==> r.value < |categories| && CategoryIdOf(categories[r.value]) == Some(id)
  {
    if Blank(newName) then Failure(NameRequired)
    else if categories == [] then Failure(NoCategories)
    else if !NameFree(categories, NameKey(newName)) then Failure(DuplicateName)
    else match FindCategory(categories, id)
      case None => Failure(CategoryNotFound)
      case Some(k) => Success(k)
  }

  /** A rename is refused exactly when the name is blank, the store is
      empty, the key is taken or no category has the id, with the first
      of those reasons; it goes ahead on the first category with the id. */
  lemma RenameOutcomeCases(categories: seq<Category>, id: int, newName: string)
    ensures RenameOutcome(categories, id, newName).Failure? <==>
              || Blank(newName)
              || categories == []
              || !NameFree(categories, NameKey(newName))
              || forall k :: 0 <= k < |categories| ==> CategoryIdOf(categories[k]) != Some(id)
    ensures Blank(newName) ==> RenameOutcome(categories, id, newName) == Failure(NameRequired)
    ensures !Blank(newName) && categories == [] ==> RenameOutcome(categories, id, newName) == Failure(NoCategories)
    ensures (!Blank(newName) && categories != [] && !NameFree(categories, NameKey(newName))) ==>
              RenameOutcome(categories, id, newName) == Failure(DuplicateName)
    ensures RenameOutcome(categories, id, newName).Success? ==>
              forall k :: 0 <= k < RenameOutcome(categories, id, newName).value ==>
                CategoryIdOf(categories[k]) != Some(id)
  {
    var free := NameFree(categories, NameKey(newName));
    if !Blank(newName) && categories != [] && free {
      var f := FindCategory(categories, id);
      assert RenameOutcome(categories, id, newName)
             == if f.None? then Failure(CategoryNotFound) else Success(f.value);
    }
  }

  /** A rename that goes ahead keeps the names distinct. */
  lemma RenameKeepsDistinct(categories: seq<Category>, id: int, newName: string)
    requires DistinctNames(categories)
    requires RenameOutcome(categories, id, newName).Success?
    ensures DistinctNames(Renamed(categories, RenameOutcome(categories, id, newName).value, newName))
  {
    NameKeyOfStripped(newName);
    DistinctRename(categories, RenameOutcome(categories, id, newName).value, Trim(newName));
  }

  /** The checks of update_category_name as the source runs them. */
  method CheckRename(categories: seq<Category>, id: int, newName: string) returns (r: Result<nat, CategoryError>)
    ensures r == RenameOutcome(categories, id, newName)
  {
    if Blank(newName) {
      return Failure(NameRequired);
    }
    if categories == [] {
      return Failure(NoCategories);
    }
    var clash := NameClash(categories, NameKey(newName));
    if clash {
      return Failure(DuplicateName);
    }
    var found := FindCategoryIndex(categories, id);
    if found.None? {
      return Failure(CategoryNotFound);
    }
    r := Success(found.value);
  }

  // ---------------------------------------------------------------- products

  /** The ids of the products assigned to the category, in file order. */
  function Users(ps: seq<Product>, id: int): (r: seq<int>)
    ensures r == [] <==> forall j :: 0 <= j < |ps| ==> ps[j].categoryId != Some(id)
  {
    if ps == [] then []
    else Users(ps[..|ps| - 1], id)
         + (if ps[|ps| - 1].categoryId == Some(id) then [ps[|ps| - 1].id] else [])
  }

  /** The blocker scan of delete_category. */
  method FindUsers(ps: seq<Product>, id: int) returns (users: seq<int>)
    ensures users == Users(ps, id)
  {
    users := [];
    for j := 0 to |ps|
      invariant users == Users(ps[..j], id)
    {
      assert ps[..j + 1][..j] == ps[..j];
      if ps[j].categoryId == Some(id) {
        users := users + [ps[j].id];
      }
    }
    assert ps[..|ps|] == ps;
  }

  /** A product counts as assigned for delete_all_categories unless its
      category_id is null or 0. */
  predicate Assigned(p: Product) {
    p.categoryId.Some? && p.categoryId.value != 0
  }

  /** The ids of the products that block delete_all_categories. */
  function AssignedProducts(ps: seq<Product>): (r: seq<int>)
    ensures r == [] <==> forall j :: 0 <= j < |ps| ==> !Assigned(ps[j])
  {
    if ps == [] then []
    else AssignedProducts(ps[..|ps| - 1])
         + (if Assigned(ps[|ps| - 1]) then [ps[|ps| - 1].id] else [])
  }

  /** The products after a rename: every product assigned to the category
      shows the new name; nothing else in any product changes. */
  function Relabel(ps: seq<Product>, id: int, name: string): (r: seq<Product>)
    ensures |r| == |ps|
    ensures forall j :: 0 <= j < |ps| && ps[j].categoryId == Some(id) ==>
              r[j] == ps[j].(categoryName := Some(name))
    ensures forall j :: 0 <= j < |ps| && ps[j].categoryId != Some(id) ==> r[j] == ps[j]
  {
    seq(|ps|, j requires 0 <= j < |ps| =>
      if ps[j].categoryId == Some(id) then ps[j].(categoryName := Some(name)) else ps[j])
  }

  /** The propagation loop of update_category_name; `changed` says whether
      any product was assigned, which is when the source saves them. */
  method RelabelProducts(ps: seq<Product>, id: int, name: string)
    returns (qs: seq<Product>, changed: bool)
    ensures qs == Relabel(ps, id, name)
    ensures !changed <==> forall j :: 0 <= j < |ps| ==> ps[j].categoryId != Some(id)
  {
    qs, changed := ps, false;
    for j := 0 to |ps|
      invariant |qs| == |ps|
      invariant forall m :: 0 <= m < j ==> qs[m] == Relabel(ps, id, name)[m]
      invariant forall m :: j <= m < |ps| ==> qs[m] == ps[m]
      invariant !changed <==> forall m :: 0 <= m < j ==> ps[m].categoryId != Some(id)
    {
      if ps[j].categoryId == Some(id) {
        qs := qs[j := ps[j].(categoryName := Some(name))];
        changed := true;
      }
    }
  }

  // ---------------------------------------------------------------- the store

  /** The categories document, loaded: the list and its shape. */
  class CategoryStore {
    var categories: seq<Category>
    var wrapped: bool

    constructor (doc: CategoryDoc)
      ensures Loaded(categories, wrapped) == Load(doc)
    {
      var loaded := Load(doc);
      categories := loaded.categories;
      wrapped := loaded.wrapped;
    }

    /** The document the store saves. */
    function Document(): CategoryDoc
      reads this
    {
      Save(categories, wrapped)
    }

    /** add_category: refused for a blank name or a key already in use;
      otherwise the stripped name is appended with the next id. */
    method AddCategory(name: string) returns (r: Result<Category, CategoryError>)
      modifies this
      ensures wrapped == old(wrapped)
      ensures Blank(name) ==> r == Failure(NameRequired)
      ensures !Blank(name) && !NameFree(old(categories), NameKey(name)) ==> r == Failure(DuplicateName)
      ensures r.Failure? ==> categories == old(categories)
      ensures !Blank(name) && NameFree(old(categories), NameKey(name)) ==>
                && r.Success?
                && r.value.name == Trim(name)
                && r.value.key.CategoryIdKey?
                && IsNextCategoryId(old(categories), r.value.key.n)
                && categories == old(categories) + [r.value]
      ensures DistinctNames(old(categories)) ==> DistinctNames(categories)
    {
      if Blank(name) {
        return Failure(NameRequired);
      }
      var key := NameKey(name);
      var clash := NameClash(categories, key);
      if clash {
        return Failure(DuplicateName);
      }
      var id := NextCategoryId(categories);
      var c := Category(CategoryIdKey(id), Trim(name));
      AddKeepsDistinct(categories, name, c);
      categories := categories + [c];
      r := Success(c);
    }

    /** update_category_name: when `RenameOutcome` refuses, nothing
      changes; otherwise the first category with the id takes the stripped
      name and every product assigned to that id shows it. */
    method UpdateName(id: int, newName: string, store: Products.ProductStore) returns (r: Status<CategoryError>)
      modifies this, store
      ensures wrapped == old(wrapped)
      ensures RenameOutcome(old(categories), id, newName).Failure? ==>
                && r == Refused(RenameOutcome(old(categories), id, newName).error)
                && categories == old(categories)
                && store.products == old(store.products)
      ensures RenameOutcome(old(categories), id, newName).Success? ==>
                && r == Done
                && var k := RenameOutcome(old(categories), id, newName).value;
                && categories == Renamed(old(categories), k, newName)
                && store.products == Relabel(old(store.products), id, Trim(newName))
      ensures DistinctNames(old(categories)) ==> DistinctNames(categories)
    {
      var outcome := CheckRename(categories, id, newName);
      if outcome.Failure? {
        return Refused(outcome.error);
      }
      if DistinctNames(categories) {
        RenameKeepsDistinct(categories, id, newName);
      }
      categories := Renamed(categories, outcome.value, newName);
      var relabelled, changed := RelabelProducts(store.products, id, Trim(newName));
      if changed {
        store.products := relabelled;
      } else {
        assert relabelled == store.products;
      }
      r := Done;
    }

    /** delete_category: refused when the store is empty, when a product is
      assigned to the id (naming those products) or when no category has
      the id; otherwise every category with the id goes. */
    method Delete(id: int, ps: seq<Product>) returns (r: Status<CategoryError>)
      modifies this
      ensures wrapped == old(wrapped)
      ensures old(categories) == [] ==> r == Refused(NoCategories)
      ensures old(categories) != [] && Users(ps, id) != [] ==> r == Refused(InUse(Users(ps, id)))
      ensures (old(categories) != [] && Users(ps, id) == []
               && FindCategory(old(categories), id).None?) ==> r == Refused(CategoryNotFound)
      ensures (old(categories) != [] && Users(ps, id) == []
               && FindCategory(old(categories), id).Some?) ==> r == Done
      ensures r.Refused? ==> categories == old(categories)
      ensures r.Done? ==> categories == WithoutCategory(old(categories), id)
                          && |categories| < |old(categories)|
      ensures DistinctNames(old(categories)) ==> DistinctNames(categories)
    {
      if categories == [] {
        return Refused(NoCategories);
      }
      var users := FindUsers(ps, id);
      if users != [] {
        return Refused(InUse(users));
      }
      var kept, removed := KeepCategories(categories, id);
      if !removed {
        return Refused(CategoryNotFound);
      }
      if DistinctNames(categories) {
        WithoutCategoryDistinct(categories, id);
      }
      categories := kept;
      r := Done;
    }

    /** delete_all_categories: an empty store stays empty (and is saved);
      otherwise refused while any product has a category id other than
      null or 0, and cleared when none has. */
    method DeleteAll(ps: seq<Product>) returns (r: Status<CategoryError>)
      modifies this
      ensures wrapped == old(wrapped)
      ensures old(categories) == [] ==> r == Done
      ensures old(categories) != [] && AssignedProducts(ps) != [] ==>
                r == Refused(InUse(AssignedProducts(ps)))
      ensures AssignedProducts(ps) == [] ==> r == Done
      ensures r.Refused? ==> categories == old(categories)
      ensures r.Done? ==> categories == []
    {
      if categories == [] {
        categories := [];
        return Done;
      }
      var blockers := [];
      for j := 0 to |ps|
        invariant blockers == AssignedProducts(ps[..j])
      {
        assert ps[..j + 1][..j] == ps[..j];
        if Assigned(ps[j]) {
          blockers := blockers + [ps[j].id];
        }
      }
      assert ps[..|ps|] == ps;
      if blockers != [] {
        return Refused(InUse(blockers));
      }
      categories := [];
      r := Done;
    }
  }
}
