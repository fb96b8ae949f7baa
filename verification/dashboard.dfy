/** The rules of the review dashboard's script (assets/js/workflow.js): the
    checks made before a price or state change is sent, the pagination of
    both product lists, and the prefilled edit form. */
module Dashboard {
  import opened Wrappers
  import opened States
  import opened Workflow
  import opened Submission
  import ProductStore

  // ---------------------------------------------------------------------
  // Price and royalty check (workflow.js:477-478, 560-561)
  // ---------------------------------------------------------------------

  /** A numeric form field as the script reads it: empty, or the number
      `parseFloat` makes of it, in thousandths. */
  datatype NumField = EmptyField | Number(v: int)

  const InvalidPrice: string := "Please enter a valid price."
  const InvalidRoyalty: string := "Please enter a valid royalty percentage (1-50%)."

  /** The check both the "submit changes" and the "propose price" dialogs make
      before sending: the first complaint, or nothing when the values may go. */
  function PriceRoyaltyCheck(price: NumField, royalty: NumField): (r: Option<string>)
    ensures r.None? <==> price.Number? && price.v > 0 && royalty.Number? &&
                         MinRoyalty <= royalty.v <= MaxRoyalty
    ensures !(price.Number? && price.v > 0) ==> r == Some(InvalidPrice)
    ensures price.Number? && price.v > 0 && r.Some? ==> r == Some(InvalidRoyalty)
  {
    if price.EmptyField? || price.v <= 0 then Some(InvalidPrice)
    else if royalty.EmptyField? || royalty.v < MinRoyalty || royalty.v > MaxRoyalty then Some(InvalidRoyalty)
    else None
  }

  /** Values that pass the edit dialog's check, sent while no proposal is
      pending, are stored by `update_product` exactly as typed: a positive
      price and a royalty within 1-50%. */
  lemma CheckedEditIsStoredAsTyped(rec: ProductRecord, price: NumField, royalty: NumField)
    requires PriceRoyaltyCheck(price, royalty).None? && rec.proposal.None?
    ensures var stored := ProductStore.EditTerms(rec, price.v, Some(royalty.v));
      stored == (price.v, Some(royalty.v)) && stored.0 > 0 &&
      MinRoyalty <= stored.1.value <= MaxRoyalty
  {
  }

  // ---------------------------------------------------------------------
  // Rejection reason (workflow.js:587-592)
  // ---------------------------------------------------------------------

  const MissingReason: string := "Please specify the reason for rejection."

  /** The reason sent with a state change: the chosen one, or for 'other'
      the typed one, which must not be empty. */
  function RejectionReason(selected: string, custom: string): (r: Result<string, string>)
    ensures selected != "other" ==> r == Ok(selected)
    ensures selected == "other" ==> (r.Ok? <==> custom != "")
    ensures r.Ok? && selected == "other" ==> r.value == custom
    ensures r.Err? ==> r.error == MissingReason
  {
    if selected == "other" then
      if custom == "" then Err(MissingReason) else Ok(custom)
    else Ok(selected)
  }

  // ---------------------------------------------------------------------
  // Pagination (workflow.js:88-90, 107-122)
  // ---------------------------------------------------------------------

  predicate PrevDisabled(page: int) {
    page <= 1
  }

  predicate NextDisabled(page: int, totalPages: int) {
    page >= totalPages
  }

  /** The "Showing start - end of total" line and the state of the two buttons. */
  datatype PageInfo = PageInfo(start: int, end: int, total: int, prevDisabled: bool, nextDisabled: bool)

  function Pagination(page: int, perPage: int, totalItems: int, totalPages: int): (p: PageInfo)
    ensures p.total == totalItems
    ensures p.prevDisabled <==> PrevDisabled(page)
    ensures p.nextDisabled <==> NextDisabled(page, totalPages)
  {
    var upper := page * perPage;
    PageInfo((page - 1) * perPage + 1, if upper < totalItems then upper else totalItems, totalItems,
             PrevDisabled(page), NextDisabled(page, totalPages))
  }

  /** WordPress's page count: the items divided by the page size, rounded up. */
  function PageCount(totalItems: nat, perPage: nat): nat
    requires perPage > 0
  {
    (totalItems + perPage - 1) / perPage
  }

  /** The page count covers the items, and one page fewer does not. */
  lemma PageCountCovers(totalItems: nat, perPage: nat)
    requires perPage > 0
    ensures PageCount(totalItems, perPage) * perPage >= totalItems
    ensures (PageCount(totalItems, perPage) - 1) * perPage < totalItems || totalItems == 0
  {
    var n := PageCount(totalItems, perPage);
    var r := (totalItems + perPage - 1) % perPage;
    assert totalItems + perPage - 1 == n * perPage + r;
    assert (n - 1) * perPage == n * perPage - perPage;
  }

  lemma MulMono(a: int, b: int, c: nat)
    requires a <= b
    ensures a * c <= b * c
  {
    assert b * c - a * c == (b - a) * c;
  }

  /** On a page that holds items the line shows a non-empty range of at most
      one page's worth, and "next" is disabled exactly on the page showing
      the last item. */
  lemma PaginationBounds(page: int, perPage: nat, totalItems: nat)
    requires page >= 1 && perPage >= 1 && (page - 1) * perPage < totalItems
    ensures var p := Pagination(page, perPage, totalItems, PageCount(totalItems, perPage));
      1 <= p.start <= p.end <= totalItems && p.end - p.start + 1 <= perPage &&
      (p.nextDisabled <==> p.end == totalItems)
  {
    var n := PageCount(totalItems, perPage);
    assert page * perPage == (page - 1) * perPage + perPage;
    MulMono(0, page - 1, perPage);
    PageCountCovers(totalItems, perPage);
    if page >= n {
      MulMono(n, page, perPage);
    } else {
      MulMono(page, n - 1, perPage);
    }
  }

  /** The dashboard's list filters (state or category, designer, search). */
  datatype Filters = Filters(scope: string, designer: string, search: string)

  const DefaultFilters: Filters := Filters("all", "all", "")

  /** The page and filters a product list keeps between requests. */
  class ListPager {
    var currentPage: int
    var filters: Filters

    ghost predicate Valid()
      reads this
    {
      currentPage >= 1
    }

    constructor ()
      ensures Valid() && currentPage == 1 && filters == DefaultFilters
    {
      currentPage := 1;
      filters := DefaultFilters;
    }

    /** The "previous" button: moves back one page, and does nothing exactly
        when the button is shown disabled. */
    method Prev()
      requires Valid()
      modifies this
      ensures Valid() && filters == old(filters)
      ensures currentPage == if old(currentPage) > 1 then old(currentPage) - 1 else old(currentPage)
      ensures currentPage == old(currentPage) <==> PrevDisabled(old(currentPage))
    {
      if currentPage > 1 {
        currentPage := currentPage - 1;
      }
    }

    /** The "next" button: always moves on one page. */
    method Next()
      requires Valid()
      modifies this
      ensures Valid() && filters == old(filters)
      ensures currentPage == old(currentPage) + 1
    {
      currentPage := currentPage + 1;
    }

    method ApplyFilters(f: Filters)
      modifies this
      ensures Valid() && currentPage == 1 && filters == f
    {
      filters := f;
      currentPage := 1;
    }

    method ResetFilters()
      modifies this
      ensures Valid() && currentPage == 1 && filters == DefaultFilters
    {
      filters := DefaultFilters;
      currentPage := 1;
    }
  }

  /** "Next" then "previous" returns to the same page. */
  method NextThenPrev(pager: ListPager)
    requires pager.Valid()
    modifies pager
    ensures pager.Valid() && pager.currentPage == old(pager.currentPage) && pager.filters == old(pager.filters)
  {
    pager.Next();
    pager.Prev();
  }

  // ---------------------------------------------------------------------
  // Edit-form prefill (workflow.js:333-351)
  // ---------------------------------------------------------------------

  /** The price and royalty fields of the "submit changes" dialog once the
      product's details have arrived: the current values, replaced by the
      administrator's proposal when one with a price is pending (its royalty
      only when it has one). */
  function PrefillEditForm(d: EditDetails): (fields: (int, int))
    ensures d.hasProposedChanges && d.proposedPrice.Some? && d.proposedPrice.value != 0 ==>
      fields.0 == d.proposedPrice.value &&
      fields.1 == (if d.proposedRoyalty.Some? && d.proposedRoyalty.value != 0 then d.proposedRoyalty.value else d.currentRoyalty)
    ensures !(d.hasProposedChanges && d.proposedPrice.Some? && d.proposedPrice.value != 0) ==>
      fields == (d.currentPrice, d.currentRoyalty)
  {
    if d.hasProposedChanges && d.proposedPrice.Some? && d.proposedPrice.value != 0 then
      (d.proposedPrice.value,
       if d.proposedRoyalty.Some? && d.proposedRoyalty.value != 0 then d.proposedRoyalty.value else d.currentRoyalty)
    else (d.currentPrice, d.currentRoyalty)
  }

  /** The prefilled form agrees with what an edit stores: for a pending
      proposal with a price and a nonzero royalty, the fields show exactly
      the price and royalty `update_product` keeps whatever is typed; for a
      proposal without a royalty, the royalty field shows the current one,
      which is stored when the designer leaves it as shown. */
  lemma PrefillMatchesServerOverride(rec: ProductRecord, userId: nat, typedPrice: int, typedRoyalty: Option<int>)
    requires rec.designerId == userId && rec.state == ChangesRequested
    requires rec.proposal.Some? && rec.proposal.value.price != 0 && rec.proposal.value.royalty != Some(0)
    ensures GetEditDetails(rec, userId).Some?
    ensures var fields := PrefillEditForm(GetEditDetails(rec, userId).value);
      var stored := ProductStore.EditTerms(rec, typedPrice, typedRoyalty);
      fields.0 == stored.0 == rec.proposal.value.price &&
      (rec.proposal.value.royalty.Some? ==> stored.1 == Some(fields.1)) &&
      (rec.proposal.value.royalty.None? ==> fields.1 == rec.royalty && stored.1 == typedRoyalty)
  {
  }

  /** Where the two part ways: a proposal whose royalty is zero. The form,
      reading the proposal's royalty by truthiness, keeps showing the current
      royalty, while `update_product`, testing it with `isset`, stores zero
      whatever the designer sends. */
  lemma ZeroProposedRoyaltyDisagrees(rec: ProductRecord, userId: nat, typedPrice: int, typedRoyalty: Option<int>)
    requires rec.designerId == userId && rec.state == ChangesRequested
    requires rec.proposal.Some? && rec.proposal.value.price != 0 && rec.proposal.value.royalty == Some(0)
    ensures GetEditDetails(rec, userId).Some?
    ensures var fields := PrefillEditForm(GetEditDetails(rec, userId).value);
      var stored := ProductStore.EditTerms(rec, typedPrice, typedRoyalty);
      fields.1 == rec.royalty && stored.1 == Some(0)
  {
  }
}
