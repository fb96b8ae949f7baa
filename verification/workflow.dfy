/** The product record, the transition table and the pure helpers of the
    review workflow (includes/shortcodes/my-products.php). */
module Workflow {
  import opened Wrappers
  import opened Text
  import opened States
  import opened Roles
  import opened Money
  import opened Uploads

  /** The WordPress post status of the product behind a record. */
  datatype PostStatus = DraftPost | Published | Trashed

  /** An administrator's price proposal awaiting the designer's confirmation. */
  datatype Proposal = Proposal(price: int, royalty: Option<int>, notes: string, proposedBy: nat, proposedAt: string)

  /** What a log entry records beyond who, when and which action. */
  datatype LogDetail =
    | NoDetail
    | StateChange(fromState: WorkflowState, toState: WorkflowState, reason: string)
    | PriceProposed(price: int, royalty: Option<int>)
    | DesignerEdit(price: int, royalty: Option<int>, filesUploaded: nat, acceptedProposal: bool)
    | SubmissionDetails(title: string, estimatedPrice: int, royaltyRate: int, categories: seq<nat>)

  /** One entry of the submission log. */
  datatype LogEntry = LogEntry(date: string, action: string, userId: nat, userName: string,
                               notes: string, internal: bool, detail: LogDetail)

  /** The pending-notification meta field, left for an external mailer. */
  datatype Notification =
    | StateChangeNotice(newState: WorkflowState, changedBy: nat, at: string)
    | PriceProposalNotice(newPrice: int, newRoyalty: Option<int>, setBy: nat, at: string)

  /** The plugin's meta fields of one product. Prices are thousandths of a
      currency unit and the royalty thousandths of a percent; a price of 0
      is an unset (PHP-falsy) field. `listedPrice` is the catalogue's own
      `_price` / `_regular_price`. */
  datatype ProductRecord = ProductRecord(
    title: string,
    state: WorkflowState,
    designerId: nat,
    finalPrice: int,
    proposedPrice: int,
    royalty: int,
    proposal: Option<Proposal>,
    archived: bool,
    archivedAt: string,
    archivedBy: nat,
    postStatus: PostStatus,
    listedPrice: int,
    categories: seq<nat>,
    featuredImage: Option<FileUpload>,
    gallery: seq<FileUpload>,
    designFiles: seq<FileUpload>,
    log: seq<LogEntry>,
    notification: Option<Notification>)

  // Log action names.
  const DesignSubmittedAction: string := "design_submitted"
  const StateChangedAction: string := "state_changed_frontend"
  const PriceProposedAction: string := "price_proposed_by_admin"
  const NoteAddedAction: string := "internal_note_added"
  const ProposalAcceptedAction: string := "price_proposal_accepted"
  const DesignerEditAction: string := "product_edited_by_designer"

  // ---------------------------------------------------------------------
  // Transition table (my-products.php:274-336)
  // ---------------------------------------------------------------------

  /** The `action_type` values the state-change handler knows. */
  datatype Action = RequestChanges | MoveToPrototyping | Approve | Reject | SubmitChanges

  function ActionName(a: Action): string {
    match a
    case RequestChanges => "request_changes"
    case MoveToPrototyping => "move_to_prototyping"
    case Approve => "approve"
    case Reject => "reject"
    case SubmitChanges => "submit_changes"
  }

  /** Looks the requested action up in the transition table's keys. */
  function ParseAction(s: string): (r: Option<Action>)
    ensures r.Some? ==> ActionName(r.value) == s
    ensures r.None? ==> forall a :: ActionName(a) != s
  {
    if s == "request_changes" then Some(RequestChanges)
    else if s == "move_to_prototyping" then Some(MoveToPrototyping)
    else if s == "approve" then Some(Approve)
    else if s == "reject" then Some(Reject)
    else if s == "submit_changes" then Some(SubmitChanges)
    else None
  }

  /** What the handler knows about the caller relative to one product. */
  datatype Standing = Standing(isAdmin: bool, isModerator: bool, isDesigner: bool, isOwner: bool)

  function StandingOf(u: User, designerId: nat): (s: Standing)
    ensures s.isAdmin ==> s.isModerator && s.isDesigner
  {
    Standing(IsAdministrator(u), CanModerate(u), CanSubmit(u), designerId == u.id)
  }

  /** The state each action leads to. */
  function Target(a: Action): WorkflowState {
    match a
    case RequestChanges => ChangesRequested
    case MoveToPrototyping => Prototyping
    case Approve => Approved
    case Reject => Rejected
    case SubmitChanges => Submitted
  }

  /** The permission test of the state-change handler: the new state, or
      nothing when the caller may not take this action from this state. */
  function Transition(a: Action, current: WorkflowState, who: Standing): (r: Option<WorkflowState>)
    ensures r.Some? ==> r.value == Target(a)
  {
    match a
    case RequestChanges =>
      if who.isAdmin && current in [Submitted, Prototyping] then Some(ChangesRequested)
      else if who.isModerator && current == Submitted then Some(ChangesRequested)
      else None
    case MoveToPrototyping =>
      if (who.isAdmin || who.isModerator) && current == Submitted then Some(Prototyping) else None
    case Approve =>
      if who.isAdmin && current in [Prototyping, Draft, Rejected] then Some(Approved) else None
    case Reject =>
      if who.isAdmin && current != Approved then Some(Rejected)
      else if who.isModerator && current == Submitted then Some(Rejected)
      else None
    case SubmitChanges =>
      if who.isDesigner && who.isOwner && current == ChangesRequested then Some(Submitted) else None
  }

  /** The combinations the state-change handler accepts, action by action. */
  lemma TransitionTable(current: WorkflowState, who: Standing)
    ensures Transition(RequestChanges, current, who).Some? <==>
      (who.isAdmin && (current == Submitted || current == Prototyping)) || (who.isModerator && current == Submitted)
    ensures Transition(MoveToPrototyping, current, who).Some? <==>
      (who.isAdmin || who.isModerator) && current == Submitted
    ensures Transition(Approve, current, who).Some? <==>
      who.isAdmin && (current == Prototyping || current == Draft || current == Rejected)
    ensures Transition(Reject, current, who).Some? <==>
      (who.isAdmin && current != Approved) || (who.isModerator && current == Submitted)
    ensures Transition(SubmitChanges, current, who).Some? <==>
      who.isDesigner && who.isOwner && current == ChangesRequested
  {
  }

  /** Nobody can reject an approved product, whatever their roles. */
  lemma ApprovedIsNeverRejected(who: Standing)
    ensures Transition(Reject, Approved, who).None?
  {
  }

  /** Only the owning designer submits changes; anyone else is refused in every state. */
  lemma OnlyOwnerSubmitsChanges(current: WorkflowState, who: Standing)
    requires !who.isOwner
    ensures Transition(SubmitChanges, current, who).None?
  {
  }

  /** A moderator who is not an administrator acts only on submitted products. */
  lemma ModeratorActsOnSubmittedOnly(a: Action, current: WorkflowState, who: Standing)
    requires !who.isAdmin && a != SubmitChanges
    requires Transition(a, current, who).Some?
    ensures current == Submitted && who.isModerator && a != Approve
  {
  }

  // ---------------------------------------------------------------------
  // Effective price (my-products.php:59-78)
  // ---------------------------------------------------------------------

  /** The price in force: the final price when set, else the proposed one. */
  function EffectivePrice(finalPrice: int, proposedPrice: int): (p: int)
    ensures finalPrice != 0 ==> p == finalPrice
    ensures finalPrice == 0 ==> p == proposedPrice
  {
    if finalPrice != 0 then finalPrice else proposedPrice
  }

  datatype PriceKind = FinalKind | ProposedKind

  /** What the dashboards show for a price. */
  datatype PriceInfo = PriceInfo(price: int, display: string, kind: PriceKind, proposedPrice: int)

  /** `store_mm_get_product_price_display`. */
  function GetPriceDisplay(finalPrice: int, proposedPrice: int): (r: PriceInfo)
    ensures r.kind == FinalKind <==> finalPrice != 0
    ensures r.price == EffectivePrice(finalPrice, proposedPrice)
    ensures ParsePrice(r.display) == Some(r.price)
    ensures r.proposedPrice == proposedPrice
  {
    var p := EffectivePrice(finalPrice, proposedPrice);
    FormatPriceRoundTrip(p);
    PriceInfo(p, FormatPrice(p), if finalPrice != 0 then FinalKind else ProposedKind, proposedPrice)
  }

  // ---------------------------------------------------------------------
  // Capability matrix of the development list (my-products.php:589-682)
  // ---------------------------------------------------------------------

  /** The action buttons the development list offers for one product. */
  datatype Caps = Caps(
    canEdit: bool, canRequestChanges: bool, canMoveToPrototyping: bool,
    canApprove: bool, canReject: bool, canSubmitChanges: bool, canViewFiles: bool,
    canSetPrice: bool, canAddNote: bool, canArchive: bool, canDelete: bool)

  const NoCaps: Caps := Caps(false, false, false, false, false, false, false, false, false, false, false)

  /** The per-state switch that sets the capability flags. */
  method DevCapabilities(state: WorkflowState, isAdmin: bool, isModerator: bool, isOwner: bool)
    returns (c: Caps)
    ensures !c.canEdit
    ensures c.canRequestChanges <==> state == Submitted && (isModerator || isAdmin)
    ensures c.canMoveToPrototyping <==> state == Submitted && (isModerator || isAdmin)
    ensures c.canApprove <==> isAdmin && state in [Draft, Submitted, ChangesRequested, Prototyping, Rejected]
    ensures c.canReject <==> (isAdmin && state in [Draft, Submitted, ChangesRequested, Prototyping])
                             || (isModerator && state == Submitted)
    ensures c.canSubmitChanges <==> state == ChangesRequested && isOwner
    ensures c.canViewFiles <==>
      (state in [Draft, Submitted, ChangesRequested, Prototyping, Rejected] && isAdmin) ||
      (state in [Submitted, ChangesRequested, Prototyping, Rejected] && isModerator) ||
      (state == Rejected && isOwner)
    ensures c.canSetPrice <==> state == Submitted && isAdmin
    ensures c.canAddNote <==> state == Prototyping && (isModerator || isAdmin)
    ensures c.canArchive <==> state == Rejected && isAdmin
    ensures c.canDelete <==> state == Rejected && isAdmin
  {
    c := NoCaps;
    match state {
      case Draft =>
        if isAdmin {
          c := c.(canApprove := true, canReject := true, canViewFiles := true);
        }
      case Submitted =>
        if isModerator {
          c := c.(canRequestChanges := true, canMoveToPrototyping := true, canReject := true, canViewFiles := true);
        }
        if isAdmin {
          c := c.(canApprove := true, canReject := true, canRequestChanges := true,
                  canMoveToPrototyping := true, canViewFiles := true, canSetPrice := true);
        }
      case ChangesRequested =>
        if isOwner {
          c := c.(canSubmitChanges := true);
        }
        if isModerator || isAdmin {
          c := c.(canViewFiles := true);
        }
        if isAdmin {
          c := c.(canApprove := true, canReject := true);
        }
      case Prototyping =>
        if isModerator {
          c := c.(canAddNote := true, canViewFiles := true);
        }
        if isAdmin {
          c := c.(canApprove := true, canReject := true, canAddNote := true, canViewFiles := true);
        }
      case Rejected =>
        if isOwner || isModerator || isAdmin {
          c := c.(canViewFiles := true);
        }
        if isAdmin {
          c := c.(canApprove := true, canArchive := true, canDelete := true);
        }
      case Approved =>
      case Other(_) =>
    }
  }

  /** The list offers an administrator "Approve" on submitted products and on
      products awaiting changes, yet the state-change handler refuses approval
      from both states. */
  lemma ApproveOfferedIsRefused(who: Standing)
    ensures Transition(Approve, Submitted, who).None?
    ensures Transition(Approve, ChangesRequested, who).None?
  {
  }

  /** The capability matrix with every state-changing button restricted to
      what the state-change handler accepts: approval only from prototyping,
      draft and rejected, and "Submit Changes" only for an owner who holds a
      designer role. */
  function ConsistentCapabilities(state: WorkflowState, who: Standing): Caps {
    var admin := who.isAdmin;
    var moderator := who.isModerator;
    Caps(
      canEdit := false,
      canRequestChanges := state == Submitted && (moderator || admin),
      canMoveToPrototyping := state == Submitted && (moderator || admin),
      canApprove := admin && state in [Draft, Prototyping, Rejected],
      canReject := (admin && state in [Draft, Submitted, ChangesRequested, Prototyping]) || (moderator && state == Submitted),
      canSubmitChanges := state == ChangesRequested && who.isOwner && who.isDesigner,
      canViewFiles := (state in [Draft, Submitted, ChangesRequested, Prototyping, Rejected] && admin) ||
                      (state in [Submitted, ChangesRequested, Prototyping, Rejected] && moderator) ||
                      (state == Rejected && who.isOwner),
      canSetPrice := state == Submitted && admin,
      canAddNote := state == Prototyping && (moderator || admin),
      canArchive := state == Rejected && admin,
      canDelete := state == Rejected && admin)
  }

  /** Every state-changing button of the corrected matrix is accepted by the
      state-change handler, given the caller's standing (in which an
      administrator is also a moderator and a designer). */
  lemma ConsistentCapabilitiesAccepted(state: WorkflowState, who: Standing)
    requires who.isAdmin ==> who.isModerator && who.isDesigner
    ensures var c := ConsistentCapabilities(state, who);
      (c.canRequestChanges ==> Transition(RequestChanges, state, who).Some?) &&
      (c.canMoveToPrototyping ==> Transition(MoveToPrototyping, state, who).Some?) &&
      (c.canApprove ==> Transition(Approve, state, who).Some?) &&
      (c.canReject ==> Transition(Reject, state, who).Some?) &&
      (c.canSubmitChanges ==> Transition(SubmitChanges, state, who).Some?)
  {
  }

  // ---------------------------------------------------------------------
  // Live list (my-products.php:758-759) and the unreachable unpublish
  // ---------------------------------------------------------------------

  /** The live list shows "Remove" to every administrator and "View Files" to
      staff and the owner. */
  function LiveCapabilities(who: Standing): (c: (bool, bool))
    ensures c.0 <==> who.isAdmin
    ensures c.1 <==> who.isAdmin || who.isModerator || who.isOwner
  {
    (who.isAdmin, who.isAdmin || who.isModerator || who.isOwner)
  }

  /** Whether a transition unpublishes the product (my-products.php:367-370). */
  predicate Unpublishes(current: WorkflowState, next: WorkflowState) {
    next == Rejected && current == Approved
  }

  /** Every live product is approved, and the "Remove" button the live list
      offers an administrator sends `reject`, which the handler refuses from
      `approved`: the button always fails and the unpublish never happens. */
  lemma RemoveButtonAlwaysFails(who: Standing)
    requires LiveCapabilities(who).0
    ensures Transition(Reject, Approved, who).None?
    ensures forall a, s :: Transition(a, s, who).Some? ==> !Unpublishes(s, Transition(a, s, who).value)
  {
  }

  /** The transition table with the administrator's rejection allowed from
      every state, as the live list's "Remove" button expects. */
  function TransitionAllowingRemoval(a: Action, current: WorkflowState, who: Standing): (r: Option<WorkflowState>)
    ensures r.Some? ==> r.value == Target(a)
  {
    if a == Reject && who.isAdmin then Some(Rejected) else Transition(a, current, who)
  }

  /** Under the corrected table the administrator's "Remove" on a live product
      succeeds and unpublishes it, and nothing else changes. */
  lemma RemovalUnpublishes(a: Action, current: WorkflowState, who: Standing)
    requires LiveCapabilities(who).0
    ensures TransitionAllowingRemoval(Reject, Approved, who) == Some(Rejected)
    ensures Unpublishes(Approved, TransitionAllowingRemoval(Reject, Approved, who).value)
    ensures a != Reject || current != Approved ==>
      TransitionAllowingRemoval(a, current, who) == Transition(a, current, who)
  {
  }

  // ---------------------------------------------------------------------
  // Design-file icon (my-products.php:879-886)
  // ---------------------------------------------------------------------

  /** The glyphs of the icon table: a box for 3D files, a gear for CAD files,
      a page for documents, a paper clip for anything else. */
  datatype Icon = Package | Gear | Document | Clip

  const IconTable: map<string, Icon> := map[
    "stl" := Package, "obj" := Package, "3mf" := Package, "step" := Package, "iges" := Package,
    "sldprt" := Gear, "f3d" := Gear, "skp" := Gear, "dwg" := Gear,
    "pdf" := Document, "doc" := Document, "docx" := Document, "txt" := Document]

  /** `store_mm_get_file_icon`: the icon of an extension, case-insensitively.
      The table covers exactly the design-file types the upload gate admits. */
  function FileIcon(extension: string): (r: Icon)
    ensures r != Clip <==> Lower(extension) in DesignExtensions
    ensures r == Package <==> Lower(extension) in ["stl", "obj", "3mf", "step", "iges"]
  {
    var key := Lower(extension);
    if key in IconTable then IconTable[key] else Clip
  }

  // ---------------------------------------------------------------------
  // Latest notes shown in the files dialog (my-products.php:847-868)
  // ---------------------------------------------------------------------

  /** The log actions whose notes the files dialog shows. */
  const NoteActions: seq<string> :=
    ["request_changes", "state_changed", "state_changed_frontend", "internal_note_added", "price_proposed_by_admin"]

  predicate CarriesNote(e: LogEntry) {
    e.action in NoteActions && !Blank(e.notes)
  }

  /** Entry `j` carries a note and no later entry does. */
  predicate LatestNoted(log: seq<LogEntry>, j: nat)
    requires j < |log|
  {
    CarriesNote(log[j]) && forall k :: j < k < |log| ==> !CarriesNote(log[k])
  }

  /** The notes of the most recent entry that carries one, or "". */
  function LatestNote(log: seq<LogEntry>): string {
    if log == [] then ""
    else if CarriesNote(log[|log| - 1]) then log[|log| - 1].notes
    else LatestNote(log[..|log| - 1])
  }

  /** `LatestNote` is empty exactly when no entry carries a note, and
      otherwise is the note of an entry no later entry supersedes. */
  lemma {:induction false} LatestNoteIsLatest(log: seq<LogEntry>)
    ensures LatestNote(log) == "" <==> forall i :: 0 <= i < |log| ==> !CarriesNote(log[i])
    ensures LatestNote(log) != "" ==> exists j :: 0 <= j < |log| && LatestNoted(log, j) && log[j].notes == LatestNote(log)
  {
    if log != [] {
      var init := log[..|log| - 1];
      LatestNoteIsLatest(init);
      if !CarriesNote(log[|log| - 1]) && LatestNote(init) != "" {
        var j :| 0 <= j < |init| && LatestNoted(init, j) && init[j].notes == LatestNote(init);
        assert log[j] == init[j];
        assert LatestNoted(log, j);
      }
    }
  }

  /** Appending entries that carry no note leaves the latest note unchanged. */
  lemma {:induction false} LatestNoteIgnoresSilentEntries(log: seq<LogEntry>, more: seq<LogEntry>)
    requires forall i :: 0 <= i < |more| ==> !CarriesNote(more[i])
    ensures LatestNote(log + more) == LatestNote(log)
  {
    if more == [] {
      assert log + more == log;
    } else {
      var init := more[..|more| - 1];
      assert (log + more)[..|log + more| - 1] == log + init;
      assert (log + more)[|log + more| - 1] == more[|more| - 1];
      assert !CarriesNote(more[|more| - 1]);
      assert LatestNote(log + more) == LatestNote(log + init);
      LatestNoteIgnoresSilentEntries(log, init);
    }
  }

  const ProposalBanner: string := "Admin Price Proposal:\n"

  /** The reverse scan for the latest note, then the proposal banner in front
      of it when a proposal carries notes. */
  method LatestNotes(log: seq<LogEntry>, proposal: Option<Proposal>) returns (notes: string, hasProposal: bool)
    ensures hasProposal <==> proposal.Some? && !Blank(proposal.value.notes)
    ensures !hasProposal ==> notes == LatestNote(log)
    ensures hasProposal ==> notes == ProposalBanner + proposal.value.notes + "\n\n" + LatestNote(log)
  {
    notes := "";
    var i := |log|;
    var found := false;
    assert log[..i] == log;
    while i > 0 && !found
      invariant 0 <= i <= |log|
      invariant !found ==> notes == "" && LatestNote(log) == LatestNote(log[..i])
      invariant found ==> notes == LatestNote(log)
    {
      i := i - 1;
      assert log[..i + 1][..i] == log[..i];
      if log[i].action in NoteActions && !Blank(log[i].notes) {
        notes := log[i].notes;
        found := true;
      }
    }
    if !found {
      assert log[..0] == [];
    }
    hasProposal := false;
    if proposal.Some? && !Blank(proposal.value.notes) {
      hasProposal := true;
      notes := ProposalBanner + proposal.value.notes + "\n\n" + notes;
    }
  }

  // ---------------------------------------------------------------------
  // Edit-form details (my-products.php:399-434)
  // ---------------------------------------------------------------------

  /** The data `store_mm_ajax_get_product_details` returns for the edit form. */
  datatype EditDetails = EditDetails(
    currentPrice: int, currentRoyalty: int, state: WorkflowState, hasProposedChanges: bool,
    proposedPrice: Option<int>, proposedRoyalty: Option<int>, proposedNotes: Option<string>)

  /** The edit-form data, returned only to the owner of a product awaiting changes. */
  function GetEditDetails(rec: ProductRecord, userId: nat): (r: Option<EditDetails>)
    ensures r.Some? <==> rec.designerId == userId && rec.state == ChangesRequested
    ensures r.Some? ==> r.value.currentPrice == rec.proposedPrice && r.value.currentRoyalty == rec.royalty
    ensures r.Some? ==> (r.value.hasProposedChanges <==> rec.proposal.Some?)
    ensures r.Some? && rec.proposal.Some? ==>
      r.value.proposedPrice == Some(rec.proposal.value.price) && r.value.proposedRoyalty == rec.proposal.value.royalty
  {
    if rec.designerId != userId || rec.state != ChangesRequested then None
    else
      match rec.proposal
      case Some(p) =>
        Some(EditDetails(rec.proposedPrice, rec.royalty, rec.state, true, Some(p.price), p.royalty, Some(p.notes)))
      case None =>
        Some(EditDetails(rec.proposedPrice, rec.royalty, rec.state, false, None, None, None))
  }
}
