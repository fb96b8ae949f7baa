/** What shoppers see: the single-product page
    (includes/shortcodes/store-single-product.php) and the store grid query
    (includes/shortcodes/store-grid.php). */
module Storefront {
  import opened Wrappers
  import opened States
  import opened Catalog
  import opened Workflow
  import opened Text

  // ---------------------------------------------------------------------
  // Product id resolution (store-single-product.php:33-63)
  // ---------------------------------------------------------------------

  /** Where the page can learn its product id from, each read as PHP's
      `intval` reads it (0 when absent or empty); `singularPost` is the
      current post's id on a product page and 0 elsewhere. */
  datatype IdSources = IdSources(attribute: int, getParam: int, queryVar: int, singularPost: nat)

  /** The first nonzero value, or 0 when all are zero. */
  function FirstNonZero(xs: seq<int>): (r: int)
    ensures r == 0 <==> forall i :: 0 <= i < |xs| ==> xs[i] == 0
    ensures r != 0 ==> exists i :: 0 <= i < |xs| && xs[i] == r && forall j :: 0 <= j < i ==> xs[j] == 0
  {
    if xs == [] then 0
    else if xs[0] != 0 then xs[0]
    else
      var r := FirstNonZero(xs[1..]);
      assert forall i :: 1 <= i < |xs| ==> xs[i] == xs[1..][i - 1];
      r
  }

  /** The first nonzero of four values, written out. */
  lemma FirstNonZeroOfFour(a: int, b: int, c: int, d: int)
    ensures FirstNonZero([a, b, c, d]) == if a != 0 then a else if b != 0 then b else if c != 0 then c else d
  {
    assert [d][1..] == [];
    assert FirstNonZero([d]) == d;
    assert [c, d][1..] == [d];
    assert FirstNonZero([c, d]) == if c != 0 then c else d;
    assert [b, c, d][1..] == [c, d];
    assert FirstNonZero([b, c, d]) == if b != 0 then b else FirstNonZero([c, d]);
    assert [a, b, c, d][1..] == [b, c, d];
  }

  function Abs(v: int): nat {
    if v < 0 then -v else v
  }

  /** The product the page is about: the first nonzero source in priority
      order, made non-negative, or nothing when every source is zero. */
  function ResolvedId(c: IdSources): Option<nat> {
    var v := FirstNonZero([c.attribute, c.getParam, c.queryVar, c.singularPost]);
    if v == 0 then None else Some(Abs(v))
  }

  /** The successive reassignments that pick the product id. */
  method ResolveProductId(c: IdSources) returns (r: Option<nat>)
    ensures r == ResolvedId(c)
    ensures r.Some? ==> r.value > 0
    ensures c.attribute != 0 ==> r == Some(Abs(c.attribute))
    ensures r.None? <==> c.attribute == 0 && c.getParam == 0 && c.queryVar == 0 && c.singularPost == 0
  {
    var productId := 0;
    if c.attribute != 0 {
      productId := c.attribute;
    }
    if productId == 0 && c.getParam != 0 {
      productId := c.getParam;
    }
    if productId == 0 && c.queryVar != 0 {
      productId := c.queryVar;
    }
    if productId == 0 && c.singularPost != 0 {
      productId := c.singularPost;
    }
    FirstNonZeroOfFour(c.attribute, c.getParam, c.queryVar, c.singularPost);
    if productId == 0 {
      return None;
    }
    r := Some(Abs(productId));
  }

  // ---------------------------------------------------------------------
  // Display gate and purchase filters (store-single-product.php:65-91, 1161-1193)
  // ---------------------------------------------------------------------

  /** Approved and filed under the Store category. */
  predicate Displayable(rec: ProductRecord, storeCategory: Option<Term>) {
    rec.state == Approved && storeCategory.Some? && storeCategory.value.id in rec.categories
  }

  datatype PageView = SpecifyProduct | ProductNotFound | NotAvailable | ShowProduct(id: nat)

  /** What `store_mm_render_store_single_product` renders for a resolved id. */
  function SingleProductView(resolved: Option<nat>, products: map<nat, ProductRecord>,
                             storeCategory: Option<Term>): (v: PageView)
    ensures v == SpecifyProduct <==> resolved.None?
    ensures v == ProductNotFound <==> resolved.Some? && resolved.value !in products
    ensures v.ShowProduct? <==>
      resolved.Some? && resolved.value in products && Displayable(products[resolved.value], storeCategory)
    ensures v.ShowProduct? ==> v.id == resolved.value && products[v.id].state == Approved
  {
    match resolved
    case None => SpecifyProduct
    case Some(id) =>
      if id !in products then ProductNotFound
      else if !Displayable(products[id], storeCategory) then NotAvailable
      else ShowProduct(id)
  }

  /** `store_mm_hide_add_to_cart_for_non_approved`: the form is replaced by a
      notice for a plugin product (non-empty state) that is not approved. */
  predicate AddToCartHidden(state: WorkflowState) {
    StateTruthy(state) && state != Approved
  }

  /** `store_mm_filter_product_purchasable`. */
  function Purchasable(state: WorkflowState, purchasable: bool): (r: bool)
    ensures r ==> purchasable
    ensures !AddToCartHidden(state) ==> r == purchasable
  {
    if StateTruthy(state) && state != Approved then false else purchasable
  }

  /** The filter and the hidden form agree: a product is refused for sale
      exactly when its add-to-cart form is hidden (given WooCommerce would
      sell it), and a product without workflow state is left alone. */
  lemma PurchaseGatesAgree(state: WorkflowState, purchasable: bool)
    ensures purchasable ==> (Purchasable(state, purchasable) <==> !AddToCartHidden(state))
    ensures state == Other("") ==> Purchasable(state, purchasable) == purchasable
    ensures state != Approved && StateName(state) != "" && StateName(state) != "0" ==> !Purchasable(state, purchasable)
  {
  }

  /** Every product the page shows can be bought whenever WooCommerce allows it. */
  lemma DisplayedProductsArePurchasable(rec: ProductRecord, storeCategory: Option<Term>, purchasable: bool)
    requires Displayable(rec, storeCategory)
    ensures Purchasable(rec.state, purchasable) == purchasable
    ensures !AddToCartHidden(rec.state)
  {
  }

  /** The quantity field's `max`: WooCommerce's "unlimited" (-1) becomes 9999. */
  const UnlimitedQuantity: int := 9999

  function MaxQuantityAttr(maxQty: int): (r: int)
    ensures maxQty == -1 ==> r == UnlimitedQuantity
    ensures maxQty != -1 ==> r == maxQty
  {
    if maxQty != -1 then maxQty else UnlimitedQuantity
  }

  // ---------------------------------------------------------------------
  // Store product links (store-single-product.php:1255-1265)
  // ---------------------------------------------------------------------

  /** A link to the store-product page carrying `?product_id=`, or the
      product's own permalink. */
  datatype Link = StorePageLink(pageId: nat, productId: nat) | Permalink(postId: nat)

  /** `store_mm_get_store_product_url`, given the id of the `store-product` page if it exists. */
  function StoreProductUrl(storePage: Option<nat>, productId: nat): (l: Link)
    ensures storePage.Some? ==> l == StorePageLink(storePage.value, productId)
    ensures storePage.None? ==> l == Permalink(productId)
  {
    match storePage
    case Some(page) => StorePageLink(page, productId)
    case None => Permalink(productId)
  }

  /** The id sources a visit to a link provides: the store page's shortcode
      has no `id` attribute, so the `product_id` query parameter decides;
      a permalink opens the product's own page. */
  function VisitSources(l: Link): IdSources {
    match l
    case StorePageLink(_, id) => IdSources(0, id, 0, 0)
    case Permalink(id) => IdSources(0, 0, 0, id)
  }

  /** Following a generated link brings the shopper back to the same product. */
  lemma StoreLinkResolves(storePage: Option<nat>, productId: nat)
    requires productId > 0
    ensures ResolvedId(VisitSources(StoreProductUrl(storePage, productId))) == Some(productId)
  {
    var c := VisitSources(StoreProductUrl(storePage, productId));
    FirstNonZeroOfFour(c.attribute, c.getParam, c.queryVar, c.singularPost);
  }

  // ---------------------------------------------------------------------
  // Store grid query (store-grid.php:124-206)
  // ---------------------------------------------------------------------

  /** The posted `category`: absent, the literal 'all', or a value read by `intval`. */
  datatype CategoryParam = AbsentCategory | AllCategories | CategoryValue(v: int)

  function CategoryFilterId(p: CategoryParam): (r: int)
    ensures p.AbsentCategory? || p.AllCategories? ==> r == 0
    ensures p.CategoryValue? ==> r == p.v
  {
    match p
    case CategoryValue(v) => v
    case _ => 0
  }

  datatype OrderKey = ByDate | ByMetaNumber
  datatype Direction = Ascending | Descending

  /** One tax-query clause: products in `termId` (or, with
      `includeChildren`, in one of its descendants). */
  datatype TaxClause = TaxClause(termId: int, includeChildren: bool)

  /** The query arguments the grid hands to WordPress. */
  datatype GridQuery = GridQuery(
    postStatus: string, perPage: int, page: int,
    requiredState: WorkflowState,
    taxClauses: seq<TaxClause>,
    search: Option<string>,
    orderBy: OrderKey, order: Direction, metaKey: Option<string>)

  const PriceMetaKey: string := "_price"
  const SalesMetaKey: string := "_store_mm_sales_count"
  const SortKeys: seq<string> := ["oldest", "price_low", "price_high", "popular", "newest"]

  /** `store_mm_ajax_get_store_products` up to the query: the fixed
      approved, published and in-Store filter, an extra category clause
      for a nonzero category (WordPress includes a term's descendants unless
      told otherwise), the search term unless PHP reads it as false, and the
      sort switch. */
  method BuildGridQuery(storeCategory: Option<Term>, page: int, perPage: int, category: CategoryParam,
                        sort: string, search: string) returns (r: Result<GridQuery, string>)
    ensures r.Err? <==> storeCategory.None?
    ensures r.Ok? ==>
      var q := r.value;
      q.postStatus == "publish" && q.requiredState == Approved && q.page == page && q.perPage == perPage &&
      |q.taxClauses| >= 1 && q.taxClauses[0] == TaxClause(storeCategory.value.id, true) &&
      (CategoryFilterId(category) == 0 ==> |q.taxClauses| == 1) &&
      (CategoryFilterId(category) != 0 ==> q.taxClauses == [TaxClause(storeCategory.value.id, true), TaxClause(CategoryFilterId(category), true)]) &&
      (q.search.Some? <==> !Blank(search)) && (q.search.Some? ==> q.search.value == search)
    ensures r.Ok? ==>
      var q := r.value;
      (sort == "oldest" ==> q.orderBy == ByDate && q.order == Ascending && q.metaKey.None?) &&
      (sort == "price_low" ==> q.orderBy == ByMetaNumber && q.order == Ascending && q.metaKey == Some(PriceMetaKey)) &&
      (sort == "price_high" ==> q.orderBy == ByMetaNumber && q.order == Descending && q.metaKey == Some(PriceMetaKey)) &&
      (sort == "popular" ==> q.orderBy == ByMetaNumber && q.order == Descending && q.metaKey == Some(SalesMetaKey)) &&
      (sort !in ["oldest", "price_low", "price_high", "popular"] ==> q.orderBy == ByDate && q.order == Descending && q.metaKey.None?)
  {
    if storeCategory.None? {
      return Err("Store category not found.");
    }
    var store := storeCategory.value;
    var q := GridQuery("publish", perPage, page, Approved, [TaxClause(store.id, true)], None, ByDate, Descending, None);
    var cat := CategoryFilterId(category);
    if cat != 0 {
      q := q.(taxClauses := q.taxClauses + [TaxClause(cat, true)]);
    }
    if !Blank(search) {
      q := q.(search := Some(search));
    }
    if sort == "oldest" {
      q := q.(orderBy := ByDate, order := Ascending);
    } else if sort == "price_low" {
      q := q.(orderBy := ByMetaNumber, metaKey := Some(PriceMetaKey), order := Ascending);
    } else if sort == "price_high" {
      q := q.(orderBy := ByMetaNumber, metaKey := Some(PriceMetaKey), order := Descending);
    } else if sort == "popular" {
      q := q.(orderBy := ByMetaNumber, metaKey := Some(SalesMetaKey), order := Descending);
    } else {
      q := q.(orderBy := ByDate, order := Descending);
    }
    r := Ok(q);
  }

  /** What the grid's query admits: a published, approved product filed
      under the Store tree and, when a category is chosen, under it too. */
  predicate Matches(q: GridQuery, rec: ProductRecord, inTree: (nat, int) -> bool) {
    rec.postStatus == Published && rec.state == q.requiredState &&
    forall i :: 0 <= i < |q.taxClauses| ==>
      (exists c :: c in rec.categories && (c == q.taxClauses[i].termId || (q.taxClauses[i].includeChildren && inTree(c, q.taxClauses[i].termId))))
  }

  /** Choosing a category lists the live products filed under one of its
      sub-categories, even when they are not filed under the category itself. */
  lemma CategoryFilterListsSubcategories(q: GridQuery, rec: ProductRecord, inTree: (nat, int) -> bool,
                                         storeId: int, x: int, y: nat)
    requires q.requiredState == Approved && q.taxClauses == [TaxClause(storeId, true), TaxClause(x, true)]
    requires rec.postStatus == Published && rec.state == Approved
    requires y in rec.categories && inTree(y, storeId) && inTree(y, x)
    ensures Matches(q, rec, inTree)
  {
    forall i | 0 <= i < |q.taxClauses|
      ensures exists c :: c in rec.categories && (c == q.taxClauses[i].termId || (q.taxClauses[i].includeChildren && inTree(c, q.taxClauses[i].termId)))
    {
      assert y in rec.categories && inTree(y, q.taxClauses[i].termId);
    }
  }

  /** Whatever the sort, category or search, every product the grid lists is
      live: published and approved. */
  lemma GridListsOnlyLiveProducts(q: GridQuery, rec: ProductRecord, inTree: (nat, int) -> bool)
    requires q.postStatus == "publish" && q.requiredState == Approved
    requires Matches(q, rec, inTree)
    ensures rec.postStatus == Published && rec.state == Approved
  {
  }
}
