/** The design-submission handler (includes/shortcodes/submission-form.php:57-288). */
module Submission {
  import opened Wrappers
  import opened Text
  import opened States
  import opened Roles
  import opened Catalog
  import opened Uploads
  import opened Workflow
  import ProductStore

  /** The posted form. Category ids and the estimated price are the values
      PHP reads from their fields, 0 when a field is empty; the estimate and
      a custom royalty are in thousandths. `customRoyalty` is absent when
      its field is empty. */
  datatype SubmissionForm = SubmissionForm(
    title: string, description: string, categoryX: nat, categoryY: nat, estimatedPrice: int,
    agreeNda: bool, confirmTerms: bool, confirmReview: bool,
    royaltyOption: string, customRoyalty: Option<int>,
    images: seq<FileUpload>, designFiles: seq<FileUpload>)

  datatype SubmitError =
    | NotLoggedIn          // "You must be logged in to submit designs."
    | NotPermitted         // "You do not have permission to submit designs."
    | FormErrors(message: string)
    | NoStoreCategory      // "Store category not found. ..."
    | InvalidCategories    // "Invalid categories selected."
    | NotInMainCategory    // "Selected sub-category does not belong to the selected main category."
    | NotInStore           // "Selected category does not belong to Store."

  // ---------------------------------------------------------------------
  // Required fields (submission-form.php:73-100)
  // ---------------------------------------------------------------------

  const IsRequired: string := " is required"
  const NdaError: string := "You must agree to the NDA terms"
  const ConfirmError: string := "You must confirm all terms"

  /** Each required field's label, with whether it is empty. */
  function RequiredFields(f: SubmissionForm): seq<(string, bool)> {
    [("Design title", Blank(f.title)),
     ("Design description", Blank(f.description)),
     ("Main category", f.categoryX == 0),
     ("Sub-category", f.categoryY == 0),
     ("Estimated price", f.estimatedPrice == 0)]
  }

  /** One "<label> is required" message per empty field, in field order. */
  function MissingFieldErrors(fields: seq<(string, bool)>): seq<string> {
    if fields == [] then []
    else MissingFieldErrors(fields[..|fields| - 1]) +
         (if fields[|fields| - 1].1 then [fields[|fields| - 1].0 + IsRequired] else [])
  }

  /** Everything the form check complains about, in the handler's order. */
  function FormErrorList(f: SubmissionForm): seq<string> {
    MissingFieldErrors(RequiredFields(f)) +
    (if !f.agreeNda then [NdaError] else []) +
    (if !f.confirmTerms || !f.confirmReview then [ConfirmError] else [])
  }

  /** A form the handler accepts: every required field filled, the NDA
      accepted and both confirmations ticked. */
  predicate FormComplete(f: SubmissionForm) {
    !Blank(f.title) && !Blank(f.description) && f.categoryX != 0 && f.categoryY != 0 &&
    f.estimatedPrice != 0 && f.agreeNda && f.confirmTerms && f.confirmReview
  }

  /** The messages name exactly the empty fields. */
  lemma {:induction false} MissingFieldErrorsExactly(fields: seq<(string, bool)>)
    ensures forall e :: e in MissingFieldErrors(fields) <==>
      exists fld :: fld in fields && fld.1 && e == fld.0 + IsRequired
  {
    if fields != [] {
      var init := fields[..|fields| - 1];
      MissingFieldErrorsExactly(init);
      assert fields == init + [fields[|fields| - 1]];
    }
  }

  /** With every field filled there is no message. */
  lemma {:induction false} NoMissingFields(fields: seq<(string, bool)>)
    requires forall i :: 0 <= i < |fields| ==> !fields[i].1
    ensures MissingFieldErrors(fields) == []
  {
    if fields != [] {
      NoMissingFields(fields[..|fields| - 1]);
    }
  }

  /** The form check finds nothing exactly when the form is complete. */
  lemma FormErrorsIffIncomplete(f: SubmissionForm)
    ensures FormErrorList(f) == [] <==> FormComplete(f)
  {
    MissingFieldErrorsExactly(RequiredFields(f));
    var fields := RequiredFields(f);
    if FormComplete(f) {
      NoMissingFields(fields);
    } else if !f.agreeNda || !f.confirmTerms || !f.confirmReview {
    } else {
      var fld :| fld in fields && fld.1;
      assert fld.0 + IsRequired in MissingFieldErrors(fields);
    }
  }

  /** The required-field loop and the two agreement checks. */
  method CheckForm(f: SubmissionForm) returns (errors: seq<string>)
    ensures errors == FormErrorList(f)
    ensures errors == [] <==> FormComplete(f)
  {
    var fields := RequiredFields(f);
    errors := [];
    for i := 0 to |fields|
      invariant errors == MissingFieldErrors(fields[..i])
    {
      assert fields[..i + 1][..i] == fields[..i];
      if fields[i].1 {
        errors := errors + [fields[i].0 + IsRequired];
      }
    }
    assert fields[..|fields|] == fields;
    if !f.agreeNda {
      errors := errors + [NdaError];
    }
    if !f.confirmTerms || !f.confirmReview {
      errors := errors + [ConfirmError];
    }
    FormErrorsIffIncomplete(f);
  }

  /** PHP's `implode($sep, $parts)`. */
  function Join(parts: seq<string>, sep: string): string {
    if parts == [] then ""
    else if |parts| == 1 then parts[0]
    else Join(parts[..|parts| - 1], sep) + sep + parts[|parts| - 1]
  }

  // ---------------------------------------------------------------------
  // Royalty (submission-form.php:111-115)
  // ---------------------------------------------------------------------

  /** Royalties in thousandths of a percent. */
  const DefaultRoyalty: int := 10000
  const MinRoyalty: int := 1000
  const MaxRoyalty: int := 50000

  /** The royalty a submission records: 10% unless the designer chose a
      custom rate, which is then clamped to 1..50%. */
  function SubmissionRoyalty(option: string, custom: Option<int>): (r: int)
    ensures MinRoyalty <= r <= MaxRoyalty
    ensures (option != "custom" || custom.None? || custom.value == 0) ==> r == DefaultRoyalty
    ensures option == "custom" && custom.Some? && MinRoyalty <= custom.value <= MaxRoyalty ==> r == custom.value
    ensures option == "custom" && custom.Some? && custom.value != 0 && custom.value < MinRoyalty ==> r == MinRoyalty
    ensures option == "custom" && custom.Some? && custom.value > MaxRoyalty ==> r == MaxRoyalty
  {
    if option == "custom" && custom.Some? && custom.value != 0 then
      var capped := if custom.value < MaxRoyalty then custom.value else MaxRoyalty;
      if capped > MinRoyalty then capped else MinRoyalty
    else DefaultRoyalty
  }

  // ---------------------------------------------------------------------
  // Category hierarchy (submission-form.php:117-142)
  // ---------------------------------------------------------------------

  /** The Store, main and sub-category terms, or why they do not form a
      Store > X > Y chain. */
  function CheckCategories(terms: seq<Term>, x: nat, y: nat): (r: Result<(Term, Term, Term), SubmitError>)
    ensures r.Ok? <==>
      GetStoreCategory(terms).Some? && FindTerm(terms, x).Some? && FindTerm(terms, y).Some? &&
      FindTerm(terms, y).value.parent == x &&
      FindTerm(terms, x).value.parent == GetStoreCategory(terms).value.id
    ensures r.Ok? ==>
      var (store, cx, cy) := r.value;
      store in terms && cx in terms && cy in terms &&
      store.parent == 0 && cx.id == x && cy.id == y && cx.parent == store.id && cy.parent == cx.id
    ensures GetStoreCategory(terms).None? ==> r == Err(NoStoreCategory)
  {
    match GetStoreCategory(terms)
    case None => Err(NoStoreCategory)
    case Some(store) =>
      match (FindTerm(terms, x), FindTerm(terms, y))
      case (Some(cx), Some(cy)) =>
        if cy.parent != x then Err(NotInMainCategory)
        else if cx.parent != store.id then Err(NotInStore)
        else Ok((store, cx, cy))
      case _ => Err(InvalidCategories)
  }

  // ---------------------------------------------------------------------
  // The handler
  // ---------------------------------------------------------------------

  function SubmittedEntry(u: User, title: string, estimate: int, royalty: int, cats: seq<nat>, now: string): LogEntry {
    LogEntry(now, DesignSubmittedAction, u.id, u.displayName, "", false, SubmissionDetails(title, estimate, royalty, cats))
  }

  /** `store_mm_ajax_submit_design`: creates a draft product under review,
      owned by the submitting designer, filed under Store > X > Y. */
  method SubmitDesign(store: ProductStore.ProductStore, caller: Option<User>, form: SubmissionForm,
                      terms: seq<Term>, now: string) returns (r: Result<nat, SubmitError>)
    requires store.Valid()
    modifies store
    ensures store.Valid()
    ensures r.Ok? <==>
      caller.Some? && CanSubmit(caller.value) && FormComplete(form) &&
      CheckCategories(terms, form.categoryX, form.categoryY).Ok?
    ensures caller.None? ==> r == Err(NotLoggedIn)
    ensures caller.Some? && !CanSubmit(caller.value) ==> r == Err(NotPermitted)
    ensures caller.Some? && CanSubmit(caller.value) && !FormComplete(form) ==>
      r == Err(FormErrors(Join(FormErrorList(form), ", ")))
    ensures r.Err? ==> store.products == old(store.products) && store.nextId == old(store.nextId)
    ensures r.Ok? ==>
      var id := r.value;
      var u := caller.value;
      var (st, cx, cy) := CheckCategories(terms, form.categoryX, form.categoryY).value;
      var royalty := SubmissionRoyalty(form.royaltyOption, form.customRoyalty);
      var images := Kept(form.images, false);
      var cats := [st.id, form.categoryX, form.categoryY];
      id == old(store.nextId) && id !in old(store.products) && store.nextId == id + 1 &&
      store.products == old(store.products)[id := ProductRecord(
        title := form.title,
        state := Submitted,
        designerId := u.id,
        finalPrice := 0,
        proposedPrice := form.estimatedPrice,
        royalty := royalty,
        proposal := None,
        archived := false, archivedAt := "", archivedBy := 0,
        postStatus := DraftPost,
        listedPrice := 0,
        categories := cats,
        featuredImage := if images == [] then None else Some(images[0]),
        gallery := if images == [] then [] else images[1..],
        designFiles := Kept(form.designFiles, true),
        log := [SubmittedEntry(u, form.title, form.estimatedPrice, royalty, cats, now)],
        notification := None)]
  {
    if caller.None? {
      return Err(NotLoggedIn);
    }
    var u := caller.value;
    if !CanSubmit(u) {
      return Err(NotPermitted);
    }
    var errors := CheckForm(form);
    if errors != [] {
      return Err(FormErrors(Join(errors, ", ")));
    }
    var royalty := SubmissionRoyalty(form.royaltyOption, form.customRoyalty);
    var checked := CheckCategories(terms, form.categoryX, form.categoryY);
    if checked.Err? {
      return Err(checked.error);
    }
    var (st, cx, cy) := checked.value;
    var id := store.nextId;
    var cats := [st.id, form.categoryX, form.categoryY];
    var images := KeepUploads(form.images, false);
    var featured: Option<FileUpload> := None;
    var gallery: seq<FileUpload> := [];
    if images != [] {
      featured := Some(images[0]);
      if |images| > 1 {
        gallery := images[1..];
      } else {
        assert images[1..] == [];
      }
    }
    var design := KeepUploads(form.designFiles, true);
    var rec := ProductRecord(
      title := form.title, state := Submitted, designerId := u.id, finalPrice := 0,
      proposedPrice := form.estimatedPrice, royalty := royalty, proposal := None,
      archived := false, archivedAt := "", archivedBy := 0, postStatus := DraftPost, listedPrice := 0,
      categories := cats, featuredImage := featured, gallery := gallery, designFiles := design,
      log := [SubmittedEntry(u, form.title, form.estimatedPrice, royalty, cats, now)],
      notification := None);
    store.products := store.products[id := rec];
    store.nextId := id + 1;
    r := Ok(id);
  }

  /** A fresh submission is at once eligible for the review actions: its
      owner cannot resubmit it, staff may move it to prototyping or ask for
      changes, and an administrator may propose a price for it. */
  lemma SubmittedProductUnderReview(rec: ProductRecord, who: Standing)
    requires rec.state == Submitted
    ensures Transition(SubmitChanges, rec.state, who).None?
    ensures who.isModerator ==> Transition(MoveToPrototyping, rec.state, who).Some? &&
                                Transition(RequestChanges, rec.state, who).Some?
    ensures Transition(Approve, rec.state, who).None?
  {
  }
}
