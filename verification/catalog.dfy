/** The product-category taxonomy as the plugin reads it: the top-level Store
    category (store-mm.php:54-81) and the Category X / Category Y names shown
    for a product (store-single-product.php:117-135, store-grid.php:219-237). */
module Catalog {
  import opened Wrappers

  /** A product category term. A `parent` of 0 marks a top-level term. */
  datatype Term = Term(id: nat, name: string, slug: string, parent: nat)

  const StoreName: string := "Store"
  const StoreSlug: string := "store"

  /** `terms[i]` is the first top-level term called `name`. */
  predicate FirstNamedAt(terms: seq<Term>, i: int, name: string) {
    0 <= i < |terms| && terms[i].parent == 0 && terms[i].name == name &&
    forall j :: 0 <= j < i ==> !(terms[j].parent == 0 && terms[j].name == name)
  }

  /** `terms[i]` is the first top-level term. */
  predicate FirstTopLevelAt(terms: seq<Term>, i: int) {
    0 <= i < |terms| && terms[i].parent == 0 &&
    forall j :: 0 <= j < i ==> terms[j].parent != 0
  }

  /** The first term satisfying the query `get_terms` was given, in the order it returns. */
  function FirstTopLevelNamed(terms: seq<Term>, name: string): (r: Option<Term>)
    ensures r.Some? ==> exists i :: FirstNamedAt(terms, i, name) && terms[i] == r.value
    ensures r.None? <==> forall t :: t in terms ==> !(t.parent == 0 && t.name == name)
  {
    if terms == [] then None
    else if terms[0].parent == 0 && terms[0].name == name then
      assert FirstNamedAt(terms, 0, name);
      Some(terms[0])
    else
      var r := FirstTopLevelNamed(terms[1..], name);
      if r.Some? then
        var i :| FirstNamedAt(terms[1..], i, name) && terms[1..][i] == r.value;
        assert FirstNamedAt(terms, i + 1, name);
        r
      else r
  }

  function FirstTopLevel(terms: seq<Term>): (r: Option<Term>)
    ensures r.Some? ==> exists i :: FirstTopLevelAt(terms, i) && terms[i] == r.value
    ensures r.None? <==> forall t :: t in terms ==> t.parent != 0
  {
    if terms == [] then None
    else if terms[0].parent == 0 then
      assert FirstTopLevelAt(terms, 0);
      Some(terms[0])
    else
      var r := FirstTopLevel(terms[1..]);
      if r.Some? then
        var i :| FirstTopLevelAt(terms[1..], i) && terms[1..][i] == r.value;
        assert FirstTopLevelAt(terms, i + 1);
        r
      else r
  }

  /** `store_mm_get_store_category`: the top-level term named Store if there
      is one, else the first top-level term, else nothing. */
  function GetStoreCategory(terms: seq<Term>): (r: Option<Term>)
    ensures r.None? <==> forall t :: t in terms ==> t.parent != 0
    ensures (exists t :: t in terms && t.parent == 0 && t.name == StoreName) ==>
              exists i :: FirstNamedAt(terms, i, StoreName) && terms[i] == r.value
    ensures (forall t :: t in terms ==> !(t.parent == 0 && t.name == StoreName)) && r.Some? ==>
              exists i :: FirstTopLevelAt(terms, i) && terms[i] == r.value
  {
    match FirstTopLevelNamed(terms, StoreName)
    case Some(t) => Some(t)
    case None => FirstTopLevel(terms)
  }

  /** `get_term($id)`: the term with that id, if any. */
  function FindTerm(terms: seq<Term>, id: nat): (r: Option<Term>)
    ensures r.Some? ==> r.value in terms && r.value.id == id
    ensures r.None? <==> forall t :: t in terms ==> t.id != id
  {
    if terms == [] then None
    else if terms[0].id == id then Some(terms[0])
    else FindTerm(terms[1..], id)
  }

  /** The effect of one category of the product on the (X, Y) pair shown for it. */
  function CategoryStep(acc: (string, string), cat: Term, terms: seq<Term>, storeId: nat): (string, string) {
    if cat.slug == StoreSlug then acc
    else if cat.parent == storeId then (cat.name, acc.1)
    else if cat.parent != 0 && FindTerm(terms, cat.parent).Some?
         && FindTerm(terms, cat.parent).value.parent == storeId
    then (FindTerm(terms, cat.parent).value.name, cat.name)
    else acc
  }

  /** The (X, Y) names after the product's categories have been scanned in order. */
  function CategoryXY(cats: seq<Term>, terms: seq<Term>, storeId: nat): (string, string) {
    if cats == [] then ("", "")
    else CategoryStep(CategoryXY(cats[..|cats| - 1], terms, storeId), cats[|cats| - 1], terms, storeId)
  }

  /** The category loop of the single-product page and of the store grid. */
  method DeriveCategoryXY(cats: seq<Term>, terms: seq<Term>, storeId: nat) returns (x: string, y: string)
    ensures (x, y) == CategoryXY(cats, terms, storeId)
  {
    x, y := "", "";
    for i := 0 to |cats|
      invariant (x, y) == CategoryXY(cats[..i], terms, storeId)
    {
      var cat := cats[i];
      assert cats[..i + 1][..i] == cats[..i];
      if cat.slug == StoreSlug {
        continue;
      }
      if cat.parent == storeId {
        x := cat.name;
      } else if cat.parent != 0 && FindTerm(terms, cat.parent).Some? {
        var parent := FindTerm(terms, cat.parent).value;
        if parent.parent == storeId {
          x := parent.name;
          y := cat.name;
        }
      }
    }
    assert cats[..|cats|] == cats;
  }

  /** A non-empty X is the name of a non-store category whose parent is Store,
      or of the parent of a category whose grandparent is Store; a non-empty Y
      is the name of such a grandchild. */
  lemma {:induction false} CategoryXYOrigin(cats: seq<Term>, terms: seq<Term>, storeId: nat)
    ensures var (x, y) := CategoryXY(cats, terms, storeId);
      (x != "" ==> (exists c :: c in cats && c.slug != StoreSlug &&
                      ((c.parent == storeId && c.name == x) ||
                       (FindTerm(terms, c.parent).Some? && FindTerm(terms, c.parent).value.parent == storeId &&
                        FindTerm(terms, c.parent).value.name == x)))) &&
      (y != "" ==> (exists c :: c in cats && c.slug != StoreSlug && c.name == y && c.parent != storeId &&
                      FindTerm(terms, c.parent).Some? && FindTerm(terms, c.parent).value.parent == storeId))
  {
    if cats != [] {
      var init := cats[..|cats| - 1];
      CategoryXYOrigin(init, terms, storeId);
      forall c | c in init ensures c in cats {
      }
    }
  }

  /** A product carrying exactly the Store, X and Y categories a submission
      assigns shows X and Y, whatever order the terms come back in. */
  lemma {:induction false} SubmittedCategoriesShow(cats: seq<Term>, terms: seq<Term>, store: Term, cx: Term, cy: Term)
    requires store.id != 0 && cx.id != 0 && cx.id != store.id
    requires cx.parent == store.id && cy.parent == cx.id
    requires cx.slug != StoreSlug && cy.slug != StoreSlug
    requires FindTerm(terms, cx.id) == Some(cx)
    requires store.parent == 0
    requires forall c :: c in cats ==> c == store || c == cx || c == cy
    ensures var (x, y) := CategoryXY(cats, terms, store.id);
      (x == "" || x == cx.name) && (y == "" || y == cy.name) &&
      ((cx in cats || cy in cats) ==> x == cx.name) &&
      (cy in cats ==> y == cy.name)
  {
    if cats != [] {
      var init := cats[..|cats| - 1];
      forall c | c in init ensures c == store || c == cx || c == cy {
        assert c in cats;
      }
      SubmittedCategoriesShow(init, terms, store, cx, cy);
      var last := cats[|cats| - 1];
      assert cats == init + [last];
      assert last in cats;
      var acc := CategoryXY(init, terms, store.id);
      if last == store {
        assert CategoryXY(cats, terms, store.id) == acc;
      } else if last == cx {
        assert CategoryXY(cats, terms, store.id) == (cx.name, acc.1);
      } else {
        assert last == cy && cy != cx;
        assert CategoryXY(cats, terms, store.id) == (cx.name, cy.name);
      }
    }
  }
}
