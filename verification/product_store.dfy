/** The products' meta data and the AJAX handlers of the review workflow
    that change it (includes/shortcodes/my-products.php:80-540). */
module ProductStore {
  import opened Wrappers
  import opened Text
  import opened States
  import opened Roles
  import opened Uploads
  import opened Workflow

  /** Why a handler refused; each stands for the error message it sends. */
  datatype Refusal =
    | NotLoggedIn              // "You must be logged in."
    | InsufficientPermissions  // "Insufficient permissions."
    | AdministratorsOnly       // "Only administrators can ..."
    | MissingParameters        // "Missing parameters." / "Missing product ID." / "Missing required fields."
    | InvalidParameters        // "Invalid parameters."
    | ProductNotFound          // "Product not found."
    | WrongState               // the handler's "... can only be ..." message
    | NotArchived              // "Product must be archived before deletion."
    | TransitionRefused        // "You do not have permission ..., or invalid state transition."
    | CannotEdit               // "You cannot edit this product."

  datatype Outcome = Done | Refused(why: Refusal)

  function NoteEntry(u: User, notes: string, now: string): LogEntry {
    LogEntry(now, NoteAddedAction, u.id, u.displayName, notes, true, NoDetail)
  }

  function StateChangeEntry(u: User, from: WorkflowState, to: WorkflowState, notes: string, reason: string, now: string): LogEntry {
    LogEntry(now, StateChangedAction, u.id, u.displayName, notes, false, StateChange(from, to, reason))
  }

  function ProposalEntry(u: User, price: int, royalty: Option<int>, notes: string, now: string): LogEntry {
    LogEntry(now, PriceProposedAction, u.id, u.displayName, notes, false, PriceProposed(price, royalty))
  }

  function EditEntry(u: User, accepted: bool, price: int, royalty: Option<int>, files: nat, notes: string, now: string): LogEntry {
    LogEntry(now, if accepted then ProposalAcceptedAction else DesignerEditAction,
             u.id, u.displayName, notes, false, DesignerEdit(price, royalty, files, accepted))
  }

  /** The price and royalty an edit stores: a pending proposal replaces the
      typed price, and the typed royalty whenever it carries one, a royalty
      of zero included. */
  function EditTerms(was: ProductRecord, price: int, royalty: Option<int>): (terms: (int, Option<int>))
    ensures was.proposal.None? ==> terms == (price, royalty)
    ensures was.proposal.Some? ==> terms.0 == was.proposal.value.price
    ensures was.proposal.Some? && was.proposal.value.royalty.Some? ==> terms.1 == was.proposal.value.royalty
    ensures was.proposal.Some? && was.proposal.value.royalty.None? ==> terms.1 == royalty
  {
    match was.proposal
    case None => (price, royalty)
    case Some(p) => (p.price, if p.royalty.Some? then p.royalty else royalty)
  }

  /** All products by post id. `nextId` is the id the next new product gets. */
  class ProductStore {
    var products: map<nat, ProductRecord>
    var nextId: nat

    /** Post ids are positive and below the next id to be handed out. */
    ghost predicate Valid()
      reads this
    {
      0 < nextId && forall id :: id in products ==> 0 < id < nextId
    }

    constructor ()
      ensures Valid()
      ensures products == map[] && nextId == 1
    {
      products := map[];
      nextId := 1;
    }

    /** `store_mm_ajax_add_note`: staff add an internal note to a product in prototyping. */
    method AddNote(caller: Option<User>, productId: nat, notes: string, now: string) returns (r: Outcome)
      requires Valid()
      modifies this
      ensures Valid() && nextId == old(nextId)
      ensures r.Done? <==>
        caller.Some? && (IsAdministrator(caller.value) || CanModerate(caller.value)) &&
        productId != 0 && !Blank(notes) && productId in old(products) &&
        old(products)[productId].state == Prototyping
      ensures caller.None? ==> r == Refused(NotLoggedIn)
      ensures caller.Some? && !IsAdministrator(caller.value) && !CanModerate(caller.value) ==>
        r == Refused(InsufficientPermissions)
      ensures (caller.Some? && CanModerate(caller.value) && productId != 0 && !Blank(notes) &&
               productId in old(products) && old(products)[productId].state != Prototyping) ==>
        r == Refused(WrongState)
      ensures r.Refused? ==> products == old(products)
      ensures r.Done? ==>
        var was := old(products)[productId];
        products == old(products)[productId := was.(log := was.log + [NoteEntry(caller.value, notes, now)])]
    {
      if caller.None? {
        return Refused(NotLoggedIn);
      }
      var u := caller.value;
      if !IsAdministrator(u) && !CanModerate(u) {
        return Refused(InsufficientPermissions);
      }
      if productId == 0 || Blank(notes) {
        return Refused(MissingParameters);
      }
      if productId !in products {
        return Refused(ProductNotFound);
      }
      var rec := products[productId];
      if rec.state != Prototyping {
        return Refused(WrongState);
      }
      products := products[productId := rec.(log := rec.log + [NoteEntry(u, notes, now)])];
      r := Done;
    }

    /** `store_mm_ajax_archive_product`: an administrator archives a rejected product. */
    method Archive(caller: Option<User>, productId: nat, now: string) returns (r: Outcome)
      requires Valid()
      modifies this
      ensures Valid() && nextId == old(nextId)
      ensures r.Done? <==>
        caller.Some? && IsAdministrator(caller.value) && productId != 0 &&
        productId in old(products) && old(products)[productId].state == Rejected
      ensures (caller.None? || !IsAdministrator(caller.value)) ==> r == Refused(AdministratorsOnly)
      ensures (caller.Some? && IsAdministrator(caller.value) && productId != 0 && productId in old(products) &&
               old(products)[productId].state != Rejected) ==>
        r == Refused(WrongState)
      ensures r.Refused? ==> products == old(products)
      ensures r.Done? ==>
        var was := old(products)[productId];
        products == old(products)[productId := was.(archived := true, archivedAt := now, archivedBy := caller.value.id)]
    {
      if caller.None? || !IsAdministrator(caller.value) {
        return Refused(AdministratorsOnly);
      }
      if productId == 0 {
        return Refused(MissingParameters);
      }
      if productId !in products {
        return Refused(ProductNotFound);
      }
      var rec := products[productId];
      if rec.state != Rejected {
        return Refused(WrongState);
      }
      products := products[productId := rec.(archived := true, archivedAt := now, archivedBy := caller.value.id)];
      r := Done;
    }

    /** `store_mm_ajax_delete_product`: an administrator moves a rejected,
        archived product to the trash. */
    method Delete(caller: Option<User>, productId: nat) returns (r: Outcome)
      requires Valid()
      modifies this
      ensures Valid() && nextId == old(nextId)
      ensures r.Done? <==>
        caller.Some? && IsAdministrator(caller.value) && productId != 0 &&
        productId in old(products) && old(products)[productId].state == Rejected &&
        old(products)[productId].archived
      ensures (caller.None? || !IsAdministrator(caller.value)) ==> r == Refused(AdministratorsOnly)
      ensures (caller.Some? && IsAdministrator(caller.value) && productId != 0 && productId in old(products) &&
               old(products)[productId].state != Rejected) ==>
        r == Refused(WrongState)
      ensures (caller.Some? && IsAdministrator(caller.value) && productId in old(products) &&
               old(products)[productId].state == Rejected && !old(products)[productId].archived) ==>
        r == Refused(NotArchived)
      ensures r.Refused? ==> products == old(products)
      ensures r.Done? ==>
        products == old(products)[productId := old(products)[productId].(postStatus := Trashed)]
    {
      if caller.None? || !IsAdministrator(caller.value) {
        return Refused(AdministratorsOnly);
      }
      if productId == 0 {
        return Refused(MissingParameters);
      }
      if productId !in products {
        return Refused(ProductNotFound);
      }
      var rec := products[productId];
      if rec.state != Rejected {
        return Refused(WrongState);
      }
      if !rec.archived {
        return Refused(NotArchived);
      }
      products := products[productId := rec.(postStatus := Trashed)];
      r := Done;
    }

    /** `store_mm_ajax_set_final_price`: an administrator proposes a price
        (and optionally a royalty) for a submitted product; the product goes
        back to the designer, and the final price itself is not written. */
    method SetFinalPrice(caller: Option<User>, productId: nat, price: int, royalty: Option<int>,
                         notes: string, now: string) returns (r: Outcome)
      requires Valid()
      modifies this
      ensures Valid() && nextId == old(nextId)
      ensures r.Done? <==>
        caller.Some? && IsAdministrator(caller.value) && productId != 0 && price > 0 &&
        productId in old(products) && old(products)[productId].state == Submitted
      ensures (caller.None? || !IsAdministrator(caller.value)) ==> r == Refused(AdministratorsOnly)
      ensures caller.Some? && IsAdministrator(caller.value) && (productId == 0 || price <= 0) ==>
        r == Refused(InvalidParameters)
      ensures (caller.Some? && IsAdministrator(caller.value) && productId != 0 && price > 0 &&
               productId in old(products) && old(products)[productId].state != Submitted) ==>
        r == Refused(WrongState)
      ensures r.Refused? ==> products == old(products)
      ensures r.Done? ==>
        var was := old(products)[productId];
        var u := caller.value;
        products == old(products)[productId := was.(
          proposal := Some(Proposal(price, royalty, notes, u.id, now)),
          state := ChangesRequested,
          log := was.log + [ProposalEntry(u, price, royalty, notes, now)],
          notification := Some(PriceProposalNotice(price, royalty, u.id, now)))]
    {
      if caller.None? || !IsAdministrator(caller.value) {
        return Refused(AdministratorsOnly);
      }
      var u := caller.value;
      if productId == 0 || price <= 0 {
        return Refused(InvalidParameters);
      }
      if productId !in products {
        return Refused(ProductNotFound);
      }
      var rec := products[productId];
      if rec.state != Submitted {
        return Refused(WrongState);
      }
      rec := rec.(proposal := Some(Proposal(price, royalty, notes, u.id, now)));
      rec := rec.(state := ChangesRequested);
      rec := rec.(log := rec.log + [ProposalEntry(u, price, royalty, notes, now)]);
      rec := rec.(notification := Some(PriceProposalNotice(price, royalty, u.id, now)));
      products := products[productId := rec];
      r := Done;
    }

    /** `store_mm_ajax_change_state`: takes an action from the transition
        table. Resubmitting applies a pending proposal; approving publishes
        the product and lists it at its effective price when that is set. */
    method ChangeState(caller: Option<User>, productId: nat, action: string, notes: string,
                       reason: string, now: string) returns (r: Outcome)
      requires Valid()
      modifies this
      ensures Valid() && nextId == old(nextId)
      ensures r.Done? <==>
        caller.Some? && productId != 0 && !Blank(action) && productId in old(products) &&
        ParseAction(action).Some? &&
        Transition(ParseAction(action).value, old(products)[productId].state,
                   StandingOf(caller.value, old(products)[productId].designerId)).Some?
      ensures caller.None? ==> r == Refused(NotLoggedIn)
      ensures caller.Some? && (productId == 0 || Blank(action)) ==> r == Refused(MissingParameters)
      ensures caller.Some? && productId != 0 && !Blank(action) && productId !in old(products) ==>
        r == Refused(ProductNotFound)
      ensures r.Refused? && caller.Some? && productId != 0 && !Blank(action) && productId in old(products) ==>
        r == Refused(TransitionRefused)
      ensures r.Refused? ==> products == old(products)
      ensures r.Done? ==>
        var was := old(products)[productId];
        var a := ParseAction(action).value;
        var accepting := a == SubmitChanges && was.proposal.Some?;
        var price := EffectivePrice(was.finalPrice, was.proposedPrice);
        products == old(products)[productId := was.(
          state := Target(a),
          proposedPrice := if accepting then was.proposal.value.price else was.proposedPrice,
          royalty := if accepting && was.proposal.value.royalty.Some? then was.proposal.value.royalty.value else was.royalty,
          proposal := if accepting then None else was.proposal,
          postStatus := if a == Approve then Published else was.postStatus,
          listedPrice := if a == Approve && price != 0 then price else was.listedPrice,
          log := was.log + [StateChangeEntry(caller.value, was.state, Target(a), notes, reason, now)],
          notification := Some(StateChangeNotice(Target(a), caller.value.id, now)))]
    {
      if caller.None? {
        return Refused(NotLoggedIn);
      }
      var u := caller.value;
      if productId == 0 || Blank(action) {
        return Refused(MissingParameters);
      }
      if productId !in products {
        return Refused(ProductNotFound);
      }
      var rec := products[productId];
      var current := rec.state;
      var a := ParseAction(action);
      if a.None? {
        return Refused(TransitionRefused);
      }
      var next := Transition(a.value, current, StandingOf(u, rec.designerId));
      if next.None? {
        return Refused(TransitionRefused);
      }
      var newState := next.value;
      if a.value == SubmitChanges && current == ChangesRequested && rec.proposal.Some? {
        var p := rec.proposal.value;
        rec := rec.(proposedPrice := p.price);
        if p.royalty.Some? {
          rec := rec.(royalty := p.royalty.value);
        }
        rec := rec.(proposal := None);
      }
      rec := rec.(state := newState);
      if newState == Approved {
        var price := EffectivePrice(rec.finalPrice, rec.proposedPrice);
        rec := rec.(postStatus := Published);
        if price != 0 {
          rec := rec.(listedPrice := price);
        }
      }
      if newState == Rejected && current == Approved {
        rec := rec.(postStatus := DraftPost);
      }
      rec := rec.(log := rec.log + [StateChangeEntry(u, current, newState, notes, reason, now)]);
      rec := rec.(notification := Some(StateChangeNotice(newState, u.id, now)));
      products := products[productId := rec];
      r := Done;
    }

    /** `store_mm_ajax_update_product`: the owning designer of a product
        awaiting changes sets its price and royalty and adds design files. A
        pending proposal overrides the typed price, and the typed royalty
        when it names one, and is consumed. The state is left as it is. */
    method UpdateProduct(caller: Option<User>, productId: nat, price: int, royalty: Option<int>,
                         notes: string, files: seq<FileUpload>, now: string) returns (r: Outcome)
      requires Valid()
      modifies this
      ensures Valid() && nextId == old(nextId)
      ensures r.Done? <==>
        caller.Some? && productId != 0 && price != 0 && productId in old(products) &&
        old(products)[productId].designerId == caller.value.id &&
        old(products)[productId].state == ChangesRequested
      ensures caller.None? ==> r == Refused(NotLoggedIn)
      ensures caller.Some? && (productId == 0 || price == 0) ==> r == Refused(MissingParameters)
      ensures (caller.Some? && productId != 0 && price != 0 && productId in old(products) &&
               (old(products)[productId].designerId != caller.value.id ||
                old(products)[productId].state != ChangesRequested)) ==>
        r == Refused(CannotEdit)
      ensures r.Refused? ==> products == old(products)
      ensures r.Done? ==>
        var was := old(products)[productId];
        var accepting := was.proposal.Some?;
        var newPrice := EditTerms(was, price, royalty).0;
        var newRoyalty := EditTerms(was, price, royalty).1;
        var kept := Kept(files, true);
        products == old(products)[productId := was.(
          proposedPrice := newPrice,
          royalty := if newRoyalty.Some? then newRoyalty.value else was.royalty,
          designFiles := was.designFiles + kept,
          proposal := None,
          log := was.log + [EditEntry(caller.value, accepting, newPrice, newRoyalty, |kept|, notes, now)])]
    {
      if caller.None? {
        return Refused(NotLoggedIn);
      }
      var u := caller.value;
      if productId == 0 || price == 0 {
        return Refused(MissingParameters);
      }
      if productId !in products {
        return Refused(ProductNotFound);
      }
      var rec := products[productId];
      if rec.designerId != u.id || rec.state != ChangesRequested {
        return Refused(CannotEdit);
      }
      var newPrice := price;
      var newRoyalty := royalty;
      var accepting := false;
      if rec.proposal.Some? {
        accepting := true;
        newPrice := rec.proposal.value.price;
        if rec.proposal.value.royalty.Some? {
          newRoyalty := rec.proposal.value.royalty;
        }
      }
      rec := rec.(proposedPrice := newPrice);
      if newRoyalty.Some? {
        rec := rec.(royalty := newRoyalty.value);
      }
      var kept := KeepUploads(files, true);
      if kept != [] {
        rec := rec.(designFiles := rec.designFiles + kept);
      } else {
        assert rec.designFiles + kept == rec.designFiles;
      }
      rec := rec.(proposal := None);
      rec := rec.(log := rec.log + [EditEntry(u, accepting, newPrice, newRoyalty, |kept|, notes, now)]);
      products := products[productId := rec];
      r := Done;
    }
  }

  /** A price negotiation end to end: the administrator proposes, the
      designer confirms through the edit form and resubmits, a moderator
      moves the product to prototyping and the administrator approves. The
      product goes live listed at exactly the proposed price, with the
      proposed royalty, whatever the designer typed. */
  method NegotiatedProductGoesLive(store: ProductStore, admin: User, moderator: User, designer: User,
                                   id: nat, price: int, royalty: int,
                                   typedPrice: int, typedRoyalty: Option<int>,
                                   files: seq<FileUpload>, now: string)
    requires store.Valid() && id in store.products
    requires store.products[id].state == Submitted && store.products[id].designerId == designer.id
    requires store.products[id].finalPrice == 0
    requires IsAdministrator(admin) && CanModerate(moderator) && CanSubmit(designer)
    requires price > 0 && typedPrice != 0
    modifies store
    ensures store.Valid() && id in store.products
    ensures store.products.Keys == old(store.products.Keys)
    ensures var rec := store.products[id];
      rec.state == Approved && rec.postStatus == Published && rec.listedPrice == price &&
      rec.proposedPrice == price && rec.royalty == royalty && rec.proposal.None?
  {
    assert id != 0;
    var r1 := store.SetFinalPrice(Some(admin), id, price, Some(royalty), "", now);
    assert r1.Done?;
    var r2 := store.UpdateProduct(Some(designer), id, typedPrice, typedRoyalty, "", files, now);
    assert r2.Done?;
    var r3 := store.ChangeState(Some(designer), id, "submit_changes", "", "", now);
    assert r3.Done?;
    var r4 := store.ChangeState(Some(moderator), id, "move_to_prototyping", "", "", now);
    assert r4.Done?;
    AdministratorHasEveryRole(admin);
    var r5 := store.ChangeState(Some(admin), id, "approve", "", "", now);
    assert r5.Done?;
  }

  /** Deletion waits for archiving: on a rejected product that is not yet
      archived the administrator's delete is refused, and after archiving it
      moves the product to the trash. */
  method ArchiveBeforeDelete(store: ProductStore, admin: User, id: nat, now: string)
    requires store.Valid() && id in store.products
    requires store.products[id].state == Rejected && !store.products[id].archived
    requires IsAdministrator(admin)
    modifies store
    ensures store.Valid() && id in store.products
    ensures store.products[id].archived && store.products[id].postStatus == Trashed
    ensures store.products[id].state == Rejected
  {
    var r1 := store.Delete(Some(admin), id);
    assert r1 == Refused(NotArchived);
    var r2 := store.Archive(Some(admin), id, now);
    assert r2.Done?;
    var r3 := store.Delete(Some(admin), id);
    assert r3.Done?;
  }

  /** Once a proposal is out the product awaits changes, so a second proposal
      is refused until the designer has resubmitted. */
  method SecondProposalRefused(store: ProductStore, admin: User, id: nat, p1: int, p2: int, now: string)
    requires store.Valid() && id in store.products && store.products[id].state == Submitted
    requires IsAdministrator(admin) && p1 > 0 && p2 > 0
    modifies store
    ensures store.Valid() && id in store.products
    ensures store.products[id].proposal.Some? && store.products[id].proposal.value.price == p1
    ensures store.products[id].state == ChangesRequested
  {
    var r1 := store.SetFinalPrice(Some(admin), id, p1, None, "", now);
    assert r1.Done?;
    var r2 := store.SetFinalPrice(Some(admin), id, p2, None, "", now);
    assert r2 == Refused(WrongState);
  }
}
