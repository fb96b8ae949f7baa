# store-mm: review workflow, submission and storefront rules in Dafny

This project models the core of the store-mm WordPress/WooCommerce plugin.
Designers submit product designs. Moderators and administrators review them
through a six-state workflow: draft, submitted, changes requested,
prototyping, approved, rejected. Along the way they negotiate a price and
royalty, and approved products are listed in a "Store" category tree.

The model covers:

- **Workflow handlers.** The AJAX handlers that move a product record through
  the workflow are methods of a `ProductStore` class:
  - state change
  - price proposal
  - designer edit and proposal acceptance
  - internal note
  - archive and delete

  The class holds a map from product id to record. Each handler either
  refuses with nothing written, or applies its writes. Every handler except
  archive and delete also appends one entry to the record's log; those two
  write no log entry.
- **Pure rules beside the handlers:**
  - the transition table
  - the effective-price rule
  - the capability matrix of the development list
  - the latest-note scan
  - the design-file icon lookup
- **Shared rules:**
  - role resolution, including the optional Ultimate Member role
  - price formatting
  - the choice of the Store category
- **Submission intake:**
  - form validation, which collects every error
  - the royalty clamp
  - the category-hierarchy check
  - the upload size and type gate
  - creation of the new record
- **Storefront:**
  - product-id resolution on the product page
  - the display and purchase gates
  - derivation of Category X and Category Y
  - the store-product link
  - construction of the grid query
- **Client-side rules from the three scripts:**
  - the dashboard's price and royalty checks
  - pagination
  - the proposal prefill
  - the upload fields with their previews and remove buttons
  - the three-tab submission wizard
  - the product page's gallery and quantity field

Amounts are integers in thousandths, because prices carry three decimals:
12.5 TND is `12500`. Royalties are in thousandths of a percent: 10% is
`10000`, and the range 1–50% is `1000..50000`.

The current user, the clock and the values of form fields are parameters.
Ultimate Member's `um_user('role')` appears as `User.umRole`, which is `Some`
when that plugin is active.

Modules, one file each:

- `Wrappers`, `Text`
- `States`, `Money`, `Roles`, `Catalog`: store-mm.php
- `Uploads`, `Submission`: submission-form.php
- `Workflow`, `ProductStore`: my-products.php
- `Storefront`: store-single-product.php, store-grid.php
- `Dashboard`: workflow.js
- `FilePreview`: workflow.js, frontend.js
- `Wizard`: frontend.js
- `ProductPage`: store-single-product.js

## Model

| member | source | states |
|---|---|---|
| States.ParseState | store-mm.php:25-30 | reading a stored state string and naming the result gives the same string back, for the six constants and for any other stored value |
| States.StateNamesDistinct | store-mm.php:25-30 | the six state constants are pairwise distinct, and each one parses back to itself |
| Money.ParseNatDigits | store-mm.php:46-49 | the decimal digits written for a whole number read back as that number |
| Money.ParseFraction | store-mm.php:35 | the three fractional digits of an amount read back as its thousandths |
| Money.ParseUnsignedFormat | store-mm.php:46-49 | "whole.fraction" read back gives the non-negative amount it was written from |
| Money.FormatPriceRoundTrip | store-mm.php:46-49 | a formatted price parses back to exactly the amount that was formatted, negative amounts included |
| Money.FormatPriceShape | store-mm.php:33-49 | a formatted price is the symbol "TND", one space, an optional minus, at least one whole digit, a '.', and exactly three fractional digits, with no thousands separator |
| Roles.AdministratorHasEveryRole | store-mm.php:134-167 | an administrator can both moderate and submit, whatever the other roles are |
| Roles.ModeratorCanSubmit | store-mm.php:145-176 | whoever can moderate can also submit, because each moderator role list is contained in the matching designer list |
| Roles.UmRoleOverridesWordPressRoles | store-mm.php:145-172 | for a non-administrator with Ultimate Member active, moderating and submitting are decided by the UM role alone, against the three-role and five-role lists |
| Roles.WordPressFallback | store-mm.php:150-176 | without Ultimate Member, moderating and submitting hold exactly when some WordPress role is in the corresponding fallback list |
| Catalog.FirstTopLevelNamed | store-mm.php:55-64 | the result is the first top-level term with the given name in the order the terms come back (no earlier term is top-level with that name), and there is none exactly when no such term exists |
| Catalog.FirstTopLevel | store-mm.php:67-76 | the result is the first top-level term in the order the terms come back (every earlier term has a parent), and there is none exactly when every term has a parent |
| Catalog.GetStoreCategory | store-mm.php:54-81 | the Store category is the first top-level term named "Store" when there is one, otherwise the first top-level term, and none only when there is no top-level term |
| Catalog.FindTerm | includes/shortcodes/submission-form.php:127-132 | a term is found only with the requested id, and it is missing exactly when no term has that id |
| Catalog.DeriveCategoryXY | includes/shortcodes/store-single-product.php:120-135 | the loop over the product's categories computes the Category X/Y pair, in which later categories overwrite earlier ones |
| Catalog.CategoryXYOrigin | includes/shortcodes/store-grid.php:225-237 | a non-empty X names a direct child of Store, or the parent of a grandchild of Store; a non-empty Y names such a grandchild; the term with slug 'store' never contributes |
| Catalog.SubmittedCategoriesShow | includes/shortcodes/store-single-product.php:123-135 | a product carrying the Store, X and Y categories that a submission assigns shows X and Y, whatever order the terms come back in |
| Uploads.UploadRefusal | includes/shortcodes/submission-form.php:293-329 | an upload is refused exactly when it is a design file over 50 MB, an image over 5 MB, or its extension is not in the allowed list for its kind |
| Uploads.KeepUploads | includes/shortcodes/submission-form.php:196-211 | the upload loop keeps, in upload order, exactly the named files that pass the gate |
| Uploads.KeptExactly | includes/shortcodes/submission-form.php:230-245 | a file is kept if and only if it was uploaded, has a name, and passes the gate |
| Uploads.KeptAllHandled | includes/shortcodes/my-products.php:476-506 | when every file passes, all of them are kept, in order |
| Workflow.ParseAction | includes/shortcodes/my-products.php:278-306 | an action name is recognised exactly when it is one of the five action names, and it names that action |
| Workflow.StandingOf | includes/shortcodes/my-products.php:255-259 | an administrator's standing is also that of a moderator and a designer |
| Workflow.Transition | includes/shortcodes/my-products.php:306-336 | an allowed transition always leads to its action's target state |
| Workflow.TransitionTable | includes/shortcodes/my-products.php:278-336 | each action is allowed exactly in the combinations of the table: request changes (admin from submitted or prototyping, moderator from submitted); move to prototyping (admin or moderator from submitted); approve (admin from prototyping, draft or rejected); reject (admin from any state but approved, moderator from submitted); submit changes (owning designer from changes requested) |
| Workflow.ApprovedIsNeverRejected | includes/shortcodes/my-products.php:324-328 | no caller can reject an approved product |
| Workflow.OnlyOwnerSubmitsChanges | includes/shortcodes/my-products.php:329-332 | no one but the owning designer can submit changes |
| Workflow.ModeratorActsOnSubmittedOnly | includes/shortcodes/my-products.php:306-328 | a moderator who is not an administrator acts only on submitted products, and never approves |
| Workflow.EffectivePrice | includes/shortcodes/my-products.php:59-64 | the final price when it is set, otherwise the proposed price |
| Workflow.GetPriceDisplay | includes/shortcodes/my-products.php:59-78 | the kind is "final" exactly when a final price is set; the price shown is the effective price; its formatted text parses back to that price; the proposed price is passed through |
| Workflow.DevCapabilities | includes/shortcodes/my-products.php:589-682 | each of the eleven flags of the development list holds exactly in the states and for the roles that the switch grants it |
| Workflow.ApproveOfferedIsRefused | includes/shortcodes/my-products.php:626-648 | the approve button offered in submitted and changes requested is refused by the transition table for every caller; the approve transition at line 291 admits only prototyping, draft and rejected |
| Workflow.ConsistentCapabilitiesAccepted | includes/shortcodes/my-products.php:605-682 | in the corrected matrix approval is offered only from prototyping, draft and rejected, and submitting changes only to an owner with a designer role; every workflow button it offers is then accepted by the state-change handler |
| Workflow.LiveCapabilities | includes/shortcodes/my-products.php:758-759 | the live list offers "Remove" exactly to administrators, and file viewing to administrators, moderators and the owner |
| Workflow.RemoveButtonAlwaysFails | includes/shortcodes/my-products.php:324-370 | for an administrator offered "Remove", rejecting an approved product is refused, and no allowed transition ever takes the unpublish branch |
| Workflow.RemovalUnpublishes | includes/shortcodes/my-products.php:367-370 | with the approved state allowed for an administrator's reject, removal succeeds and unpublishes, and every other transition is unchanged |
| Workflow.FileIcon | includes/shortcodes/my-products.php:879-886 | an extension gets an icon other than the clip exactly when its lower-case form is one of the thirteen design extensions, and the package icon exactly for the five 3D formats |
| Workflow.LatestNoteIsLatest | includes/shortcodes/my-products.php:853-862 | the note shown is empty exactly when no entry of a noted action carries a note; otherwise it is the note of the last such entry |
| Workflow.LatestNoteIgnoresSilentEntries | includes/shortcodes/my-products.php:853-862 | appending entries that carry no note leaves the note shown unchanged |
| Workflow.LatestNotes | includes/shortcodes/my-products.php:847-868 | the reverse scan yields the latest note, prefixed by the pending proposal's notes when the proposal has notes, and reports a proposal exactly then |
| Workflow.GetEditDetails | includes/shortcodes/my-products.php:399-434 | details are returned exactly to the owning designer in changes requested: the current price and royalty, and whether a proposal is pending together with its price and royalty |
| ProductStore.ProductStore.AddNote | includes/shortcodes/my-products.php:80-120 | succeeds exactly for a moderator or administrator with a non-blank note on a prototyping product; appends one internal note entry; never changes the state; on refusal nothing is written |
| ProductStore.ProductStore.Archive | includes/shortcodes/my-products.php:122-145 | succeeds exactly for an administrator on a rejected product; sets the archived flag, date and user and keeps the state; on refusal nothing is written |
| ProductStore.ProductStore.Delete | includes/shortcodes/my-products.php:147-174 | succeeds exactly for an administrator on a rejected product that is archived; trashes it; otherwise nothing is written |
| ProductStore.ProductStore.SetFinalPrice | includes/shortcodes/my-products.php:176-246 | succeeds exactly for an administrator with a positive price on a submitted product; stores the proposal, moves to changes requested, and leaves the final price untouched; on refusal nothing is written |
| ProductStore.ProductStore.ChangeState | includes/shortcodes/my-products.php:248-397 | succeeds exactly when the transition table allows it; submit changes adopts a pending proposal's price and royalty and clears the proposal; approval publishes the product and lists the effective price when it is nonzero; every success appends one state-change entry and a notification; on refusal nothing is written |
| ProductStore.ProductStore.UpdateProduct | includes/shortcodes/my-products.php:436-540 | succeeds exactly for the owner of a changes-requested product with a nonzero price; a pending proposal's price and royalty replace the typed ones; kept design files are appended; the proposal is cleared and the state is left unchanged |
| ProductStore.NegotiatedProductGoesLive | includes/shortcodes/my-products.php:176-540 | proposal, acceptance, resubmission, prototyping and approval take a submitted product live at the proposed price and royalty |
| ProductStore.ArchiveBeforeDelete | includes/shortcodes/my-products.php:122-174 | deleting a rejected product is refused until it has been archived, and succeeds after |
| ProductStore.SecondProposalRefused | includes/shortcodes/my-products.php:197-200 | once a proposal has moved a product to changes requested, a second proposal is refused as being in the wrong state |
| Submission.MissingFieldErrorsExactly | includes/shortcodes/submission-form.php:75-88 | the messages collected are exactly "<label> is required" for each missing required field |
| Submission.FormErrorsIffIncomplete | includes/shortcodes/submission-form.php:75-102 | the error list is empty exactly when every required field is present, the NDA is agreed, and both confirmations are given |
| Submission.CheckForm | includes/shortcodes/submission-form.php:83-98 | the validation loop collects every error, and collects none exactly for a complete form |
| Submission.SubmissionRoyalty | includes/shortcodes/submission-form.php:113-117 | the royalty is 10% unless the option is 'custom' with a nonzero value, which is then clamped to 1–50% |
| Submission.CheckCategories | includes/shortcodes/submission-form.php:119-142 | the check passes exactly when a Store category exists, both terms exist, the sub-category's parent is the main category and the main category's parent is Store; a missing Store category is reported first |
| Submission.SubmitDesign | includes/shortcodes/submission-form.php:57-288 | a submission succeeds exactly for a permitted user with a complete form and valid categories; the new record is a submitted draft owned by the submitter, with the estimate as proposed price, the clamped royalty, categories [Store, X, Y], the first kept image as featured image and the rest as gallery, and one "design_submitted" log entry; on failure nothing is written |
| Submission.SubmittedProductUnderReview | includes/shortcodes/submission-form.php:179 | a freshly submitted product can be moved on by a moderator, cannot have changes submitted, and cannot be approved directly |
| Storefront.FirstNonZero | includes/shortcodes/store-single-product.php:33-55 | the result is zero exactly when every candidate is zero, and otherwise is the first nonzero candidate |
| Storefront.FirstNonZeroOfFour | includes/shortcodes/store-single-product.php:36-55 | the four id sources are tried in priority order: shortcode attribute, GET parameter, query var, current product |
| Storefront.ResolveProductId | includes/shortcodes/store-single-product.php:33-63 | the resolved id is positive, comes from the attribute whenever that is set, and is missing exactly when all four sources are zero |
| Storefront.SingleProductView | includes/shortcodes/store-single-product.php:57-91 | the page asks for a product when there is no id, reports an unknown id, and shows a product only when it is approved and carries the Store category |
| Storefront.Purchasable | includes/shortcodes/store-single-product.php:1161-1171 | the filter never makes a product purchasable, and passes its input through unless the state is set and not approved |
| Storefront.PurchaseGatesAgree | includes/shortcodes/store-single-product.php:1161-1193 | the purchasable filter and the add-to-cart suppression apply under the same condition |
| Storefront.DisplayedProductsArePurchasable | includes/shortcodes/store-single-product.php:1163-1189 | a product the page displays is neither filtered nor stripped of its add-to-cart form; the page itself displays only approved products in the Store tree (line 85) |
| Storefront.MaxQuantityAttr | includes/shortcodes/store-single-product.php:391-394 | an unlimited maximum (-1) is rendered as 9999; any other maximum is rendered unchanged |
| Storefront.StoreProductUrl | includes/shortcodes/store-single-product.php:1255-1266 | the link uses the store-product page with the product id when that page exists, otherwise the product's permalink |
| Storefront.StoreLinkResolves | includes/shortcodes/store-single-product.php:1255-1261 | visiting the store-product link resolves to the linked product; the page reads the id back from the query parameter (lines 42-44) |
| Storefront.CategoryFilterId | includes/shortcodes/store-grid.php:131 | an absent category or 'all' gives 0, and any other value is passed through |
| Storefront.BuildGridQuery | includes/shortcodes/store-grid.php:124-206 | the query always requires published, approved products in the Store tree; it adds a category clause, descendants included, only for a nonzero category, and a search only for a term PHP reads as true (not empty, not "0"); the sort keys map to their orderings, and any unknown key means newest first |
| Storefront.GridListsOnlyLiveProducts | includes/shortcodes/store-grid.php:142-163 | every product the grid query matches is published and approved |
| Dashboard.PriceRoyaltyCheck | assets/js/workflow.js:477-478 | the values may be sent exactly when the price is present and positive and the royalty is present and within 1–50%; the price complaint comes first; the price-proposal dialog makes the same check at lines 560-561 |
| Dashboard.CheckedEditIsStoredAsTyped | assets/js/workflow.js:477-478 | values that pass the edit dialog's check, sent with no proposal pending, are stored by the edit exactly as typed: a positive price and a royalty within 1–50% |
| Dashboard.RejectionReason | assets/js/workflow.js:587-592 | a chosen reason is sent as is; 'other' needs a non-empty typed reason and sends that one |
| Dashboard.Pagination | assets/js/workflow.js:88-90 | "previous" is disabled exactly on page 1 or lower, and "next" exactly from the last page on |
| Dashboard.PaginationBounds | assets/js/workflow.js:88-90 | on a page that holds items, the range shown is non-empty, within the total and at most one page long, and "next" is disabled exactly when the last item is shown; the live list repeats it at lines 175-177 |
| Dashboard.ListPager.Prev | assets/js/workflow.js:121 | the page goes back by one, and stays put exactly when the button is shown disabled |
| Dashboard.ListPager.Next | assets/js/workflow.js:122 | the page always advances by one |
| Dashboard.ListPager.ApplyFilters | assets/js/workflow.js:107-112 | the filters are taken and the page returns to 1 |
| Dashboard.ListPager.ResetFilters | assets/js/workflow.js:114-119 | the filters return to "all, all, empty" and the page to 1 |
| Dashboard.NextThenPrev | assets/js/workflow.js:121-122 | "next" then "previous" returns to the same page with the same filters |
| Dashboard.PrefillEditForm | assets/js/workflow.js:333-351 | with a pending proposal that has a price, the price field shows that price, and the royalty field shows the proposal's royalty when there is one; otherwise the current values are shown |
| Dashboard.PrefillMatchesServerOverride | assets/js/workflow.js:340-351 | for a pending proposal with a price and a royalty other than zero, the prefilled price, and the prefilled royalty when the proposal has one, are those `update_product` stores whatever is typed; without a proposed royalty the field shows the current royalty and the typed one is stored |
| Dashboard.ZeroProposedRoyaltyDisagrees | includes/shortcodes/my-products.php:462-468 | for a proposal whose royalty is zero the form keeps showing the current royalty (the truthiness test at workflow.js:348-350) while the edit stores zero (the `isset` test) |
| FilePreview.Truncate | assets/js/workflow.js:255 | a short name is shown unchanged; a long one is cut to its first characters followed by "..." |
| FilePreview.TruncateFitsAndSettles | assets/js/frontend.js:72 | a shown name always fits the width, and cutting it again changes nothing |
| FilePreview.Preview | assets/js/workflow.js:238-266 | the first maxFiles files are previewed; the i-th preview carries index i and that file's shortened name; the warning appears exactly when there are more files |
| FilePreview.UploadField.Select | assets/js/frontend.js:44-47 | the input keeps every chosen file, and the previews are rendered from them |
| FilePreview.UploadField.Drop | assets/js/workflow.js:230-233 | the input keeps only the first maxFiles dropped files, and the warning still reports the excess; the input copy is capped at line 295 |
| FilePreview.UploadField.RemovePreview | assets/js/workflow.js:269-284 | the clicked preview goes, and the file at the index its button carries leaves the input when that index is in range; the other files keep their order |
| FilePreview.StaleIndexRemovesWrongFile | assets/js/frontend.js:138-149 | removing the first preview twice from three files leaves the file whose preview was removed, while the preview left on screen names a deleted file |
| FilePreview.UploadField.RemovePreviewRenumbered | assets/js/workflow.js:276-284 | the removed file is the one the clicked preview shows, and every remaining preview again names the file at its index |
| FilePreview.RenumberedRemovesShownFile | assets/js/workflow.js:276-284 | with renumbering, the same two clicks leave exactly the file still on screen |
| Wizard.TabErrors | assets/js/frontend.js:20-36 | tab 1 may be left exactly when the title, description, both categories and the NDA are set, with one message per missing item; tab 2 exactly when an image is chosen; tab 3 checks nothing |
| Wizard.ValidateTab | assets/js/frontend.js:20-36 | the accumulated verdict is true exactly when no message was shown |
| Wizard.ServerAcceptedPassesFirstTab | assets/js/frontend.js:24-29 | every form the server accepts passes the first tab |
| Wizard.ZeroTitlePassesWizardOnly | assets/js/frontend.js:25 | a title of "0" passes the wizard but is refused by the server as missing |
| Wizard.StepClasses | assets/js/frontend.js:4-10 | steps before the current tab are completed, the current one is active, and later ones are neither |
| Wizard.TabWizard.SwitchTab | assets/js/frontend.js:11-19 | a target outside 1..3 is ignored; otherwise the current tab is checked, in either direction, and the move happens exactly when it passes |
| Wizard.TabWizard.StepClick | assets/js/frontend.js:122 | a step click moves to the clicked step exactly when that step comes before the current tab and the current tab passes, and otherwise leaves the tab unchanged |
| Wizard.TabWizard.Submit | assets/js/frontend.js:124-127 | submitting checks the current tab only |
| Wizard.ForwardToReview | assets/js/frontend.js:11-36 | two "next" clicks from a fresh wizard reach the review tab exactly when the first two tabs pass; the next button is wired at line 120 |
| ProductPage.ArrowsStayInRangeAndInvert | assets/js/store-single-product.js:24-38 | next and previous stay within the gallery, wrapping from the last slide to the first and back, and each undoes the other; the arrow keys at lines 93-102 do the same |
| ProductPage.NextTimesWraps | assets/js/store-single-product.js:36 | within one round, k "next" presses move k slides on, wrapping past the last, and a full round returns to the start |
| ProductPage.Gallery.CurrentIndex | assets/js/store-single-product.js:27 | the index read is that of the slide on view, or 0 for an empty gallery |
| ProductPage.Gallery.ShowSlide | assets/js/store-single-product.js:130-146 | an index outside the gallery changes nothing; otherwise exactly the chosen slide and its thumbnail are active |
| ProductPage.Gallery.Next | assets/js/store-single-product.js:31-38 | the "next" arrow shows the next slide, cyclically, and marks exactly that slide's thumbnail |
| ProductPage.Gallery.Prev | assets/js/store-single-product.js:23-30 | the "previous" arrow shows the previous slide, cyclically, and marks exactly that slide's thumbnail |
| ProductPage.OrDefault | assets/js/store-single-product.js:167-168 | a value that is not a number, or is zero, gives the default, and any other value is kept |
| ProductPage.QuantityInput.Settle | assets/js/store-single-product.js:225-238 | a value that is not a number or is below min becomes min; one above max becomes max; whenever min ≤ max the field then holds a value in range |
| ProductPage.QuantityInput.Type | assets/js/store-single-product.js:225-238 | a typed value within bounds is kept; a non-number or a value below the minimum becomes the minimum, one above the maximum becomes the maximum, so anything typed leaves the field in range |
| ProductPage.QuantityInput.Minus | assets/js/store-single-product.js:189-204 | the value drops by one step only when the result is at least min |
| ProductPage.QuantityInput.Plus | assets/js/store-single-product.js:207-222 | the value rises by one step only when the result is at most max |
| ProductPage.QuantityInput.CheckSubmit | assets/js/store-single-product.js:272-280 | the cart submission goes ahead exactly when the quantity is within [min, max], and sends that quantity |
| ProductPage.ButtonsKeepQuantityInRange | assets/js/store-single-product.js:189-222 | any sequence of minus and plus presses keeps an in-range field in range, so its value can always be submitted; the add-to-cart check is at lines 272-280 |

## Left out

- Nonce checks, `wp_get_current_user`, `wc_get_product` and the other WordPress and WooCommerce calls are left out. The caller is a parameter, and the product store is a map.
- A failure of `wp_insert_post` is left out: record creation always succeeds.
- Email notifications are left out; the source marks them as still to be written.
- The upload mechanics (`wp_handle_upload`, attachment metadata, original file names) are left out. Uploads are modelled by name and size only.
- Floating point is left out: `floatval`, `parseFloat` and `toFixed`, `store_mm_format_file_size` and the royalty preview calculator. Amounts are integer thousandths instead, so `empty("0.0")` and parsing of non-numeric text are not modelled.
- Submission.SubmitDesign: extra metadata without behaviour is not stored. This covers designer name and email, royalty option, requested royalty, submission date and the NDA flag.
- The designer portfolio counts and submission statistics are left out, because they are raw SQL and table writes.
- The admin dashboard and grid scripts (`assets/js/admin.js`, `assets/js/store-grid.js`) are left out. They contain the same pagination arithmetic modelled in `Dashboard`.
- HTML rendering, modals, animations, the lightbox, thumbnail scrolling and the inline stylesheet are left out.
- Image previews read through `FileReader` are left out.
- Running the grid's `WP_Query` and its product loop is left out. `Storefront.Matches` describes the products a query admits.
- Concurrency is left out: handlers are sequential operations, with no interleaving of the two-step "update, then submit changes" sequence.
- Only the dashboard checks that a price is positive and a royalty lies within 1–50% (`assets/js/workflow.js:477-478`, `Dashboard.PriceRoyaltyCheck`), and only a new submission clamps the royalty to that range (`includes/shortcodes/submission-form.php:115-117`). The server handlers check neither for proposals or edits: `SetFinalPrice` accepts any royalty, and `UpdateProduct` accepts any nonzero price, negative ones included. The model follows the handlers.
- Accepting a proposal takes two requests: `update_product`, then `change_state` with `submit_changes` (`assets/js/workflow.js:485-499`). The model keeps them as two handlers; nothing makes the pair atomic.
- Workflow.GetEditDetails: only the owner and state gate of `get_product_details` is modelled, not its checks of the id and of the product's existence.
- ProductStore.ProductStore.Delete: trashing is modelled as a post status. WordPress's trash bin and restoring from it are not modelled.
- ProductPage.Gallery: slide data-indices are assumed to equal positions, as the page renders them.
- Catalog.FirstTopLevelNamed: names are compared exactly. The `get_terms` name query compares them under the database collation, which usually ignores case, so a top-level "store" would also be found there.
- FilePreview.Truncate: lengths count Dafny characters, not the UTF-16 code units of JavaScript's `name.length`, so names outside the Basic Multilingual Plane are cut at a different point.

## Findings

| source | as written | input that shows it | evidently intended | confidence | as-written member | corrected member |
|---|---|---|---|---|---|---|
| includes/shortcodes/my-products.php:626-648 | the development list offers administrators "Approve" on submitted and changes-requested products (lines 627 and 647), but the transition table (line 291) allows approve only from prototyping, draft or rejected | an administrator clicks "Approve" on a submitted product: the state change is refused | offer each button only where the state-change handler accepts it | high (not executed) | Workflow.ApproveOfferedIsRefused | Workflow.ConsistentCapabilitiesAccepted |
| includes/shortcodes/my-products.php:324-370 | the live list's "Remove" button sends a reject for an approved product, but reject is refused from approved for administrators and allowed to moderators only from submitted, so the unpublish branch can never run | an administrator clicks "Remove" on any live product: the request is refused and the product stays published | allow an administrator's reject from approved, which then unpublishes | high (not executed) | Workflow.RemoveButtonAlwaysFails | Workflow.RemovalUnpublishes |
| assets/js/workflow.js:269-284 | after a preview is removed, the remaining remove buttons keep the indices they were rendered with, while the file list has shifted; the same code is in frontend.js:138-149 | files a, b, c: remove the first preview (index 0), then the new first preview, which shows b but carries index 1: file c is removed, b stays, and the preview left shows c | re-render the previews after each removal so that every button carries its file's current index | high (not executed) | FilePreview.StaleIndexRemovesWrongFile | FilePreview.UploadField.RemovePreviewRenumbered |
