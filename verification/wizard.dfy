/** The three-tab submission wizard of assets/js/frontend.js: which fields
    each tab checks before the visitor may leave it, how the current tab
    moves, and the progress bar above the tabs. The values of the form's
    fields at the moment of a click are a parameter. */
module Wizard {
  import opened Text
  import opened Submission

  const TotalTabs: int := 3

  /** What the wizard's checks look at. Form values are strings, and the
      script treats only the empty string as missing. */
  datatype WizardFields = WizardFields(
    title: string, description: string, categoryX: string, categoryY: string,
    ndaChecked: bool, imageCount: nat)

  const TitleRequired: string := "Design title required"
  const DescriptionRequired: string := "Design description required"
  const MainCategoryRequired: string := "Main category required"
  const SubCategoryRequired: string := "Sub-category required"
  const NdaRequired: string := "NDA agreement required"
  const ImageRequired: string := "At least one image required"

  /** The message of one check: shown when its field is missing. */
  function Flag(missing: bool, msg: string): seq<string> {
    if missing then [msg] else []
  }

  /** The messages shown when the visitor tries to leave `tab`, in the order
      the fields are checked; the tab may be left when there are none. The
      third tab checks nothing. */
  function TabErrors(tab: int, f: WizardFields): (errors: seq<string>)
    ensures tab == 1 ==> (errors == [] <==>
      f.title != "" && f.description != "" && f.categoryX != "" && f.categoryY != "" && f.ndaChecked)
    ensures tab == 1 ==>
      (TitleRequired in errors <==> f.title == "") &&
      (DescriptionRequired in errors <==> f.description == "") &&
      (MainCategoryRequired in errors <==> f.categoryX == "") &&
      (SubCategoryRequired in errors <==> f.categoryY == "") &&
      (NdaRequired in errors <==> !f.ndaChecked)
    ensures tab == 2 ==> errors == (if f.imageCount == 0 then [ImageRequired] else [])
    ensures tab != 1 && tab != 2 ==> errors == []
  {
    if tab == 1 then
      Flag(f.title == "", TitleRequired) +
      Flag(f.description == "", DescriptionRequired) +
      Flag(f.categoryX == "", MainCategoryRequired) +
      Flag(f.categoryY == "", SubCategoryRequired) +
      Flag(!f.ndaChecked, NdaRequired)
    else if tab == 2 then
      Flag(f.imageCount == 0, ImageRequired)
    else []
  }

  /** One check of the script: a missing field shows its message and clears
      the verdict. */
  method Check(missing: bool, msg: string, isValid: bool, errors: seq<string>)
    returns (isValid': bool, errors': seq<string>)
    ensures errors' == errors + Flag(missing, msg)
    ensures isValid' == (isValid && !missing)
  {
    isValid', errors' := isValid, errors;
    if missing {
      errors' := errors' + [msg];
      isValid' := false;
    }
  }

  /** The script's check of a tab: each failing field shows its message
      and clears the verdict, which starts out true. */
  method ValidateTab(tab: int, f: WizardFields) returns (isValid: bool, errors: seq<string>)
    ensures errors == TabErrors(tab, f)
    ensures isValid <==> errors == []
  {
    isValid := true;
    errors := [];
    if tab == 1 {
      isValid, errors := Check(f.title == "", TitleRequired, isValid, errors);
      isValid, errors := Check(f.description == "", DescriptionRequired, isValid, errors);
      isValid, errors := Check(f.categoryX == "", MainCategoryRequired, isValid, errors);
      isValid, errors := Check(f.categoryY == "", SubCategoryRequired, isValid, errors);
      isValid, errors := Check(!f.ndaChecked, NdaRequired, isValid, errors);
    } else if tab == 2 {
      isValid, errors := Check(f.imageCount == 0, ImageRequired, isValid, errors);
    }
  }

  /** Every form the server would accept passes the first tab: the server's
      test for a missing text (empty or "0") and for a missing category (id
      zero) is at least as strict as the wizard's. */
  lemma ServerAcceptedPassesFirstTab(f: WizardFields, s: SubmissionForm)
    requires s.title == f.title && s.description == f.description && s.agreeNda == f.ndaChecked
    requires f.categoryX == "" ==> s.categoryX == 0
    requires f.categoryY == "" ==> s.categoryY == 0
    requires FormComplete(s)
    ensures TabErrors(1, f) == []
  {
  }

  /** Where the two disagree: a text field holding "0", here the title,
      passes the wizard and is refused by the server as missing (a
      description of "0" behaves the same). */
  lemma ZeroTitlePassesWizardOnly(f: WizardFields, s: SubmissionForm)
    requires f.title == "0" && f.description != "" && f.categoryX != "" && f.categoryY != "" && f.ndaChecked
    requires s.title == f.title
    ensures TabErrors(1, f) == []
    ensures !FormComplete(s)
  {
  }

  datatype StepClass = Completed | Active | Plain

  /** The classes of the three progress steps: the steps before the current
      tab completed, the current one active, the rest plain. */
  method StepClasses(currentTab: int) returns (classes: seq<StepClass>)
    ensures |classes| == TotalTabs
    ensures forall i :: 0 <= i < |classes| ==>
      (classes[i] == Completed <==> i + 1 < currentTab) &&
      (classes[i] == Active <==> i + 1 == currentTab)
  {
    classes := [];
    for i := 1 to TotalTabs + 1
      invariant |classes| == i - 1
      invariant forall j :: 0 <= j < |classes| ==>
        (classes[j] == Completed <==> j + 1 < currentTab) &&
        (classes[j] == Active <==> j + 1 == currentTab)
    {
      if i < currentTab {
        classes := classes + [Completed];
      } else if i == currentTab {
        classes := classes + [Active];
      } else {
        classes := classes + [Plain];
      }
    }
  }

  /** The wizard's position. */
  class TabWizard {
    var currentTab: int

    ghost predicate Valid()
      reads this
    {
      1 <= currentTab <= TotalTabs
    }

    constructor ()
      ensures Valid() && currentTab == 1
    {
      currentTab := 1;
    }

    /** The "next" and "previous" buttons: a tab outside the wizard is
        ignored; otherwise the current tab is checked, in either direction,
        and the move happens only when it passes. The messages shown are
        returned. */
    method SwitchTab(tab: int, f: WizardFields) returns (errors: seq<string>)
      requires Valid()
      modifies this
      ensures Valid()
      ensures !(1 <= tab <= TotalTabs) ==> errors == [] && currentTab == old(currentTab)
      ensures 1 <= tab <= TotalTabs ==> errors == TabErrors(old(currentTab), f)
      ensures currentTab == if 1 <= tab <= TotalTabs && errors == [] then tab else old(currentTab)
    {
      if tab < 1 || tab > TotalTabs {
        return [];
      }
      var isValid;
      isValid, errors := ValidateTab(currentTab, f);
      if !isValid {
        return;
      }
      currentTab := tab;
    }

    /** A click on a progress step: only steps before the current tab react. */
    method StepClick(step: int, f: WizardFields)
      requires Valid()
      modifies this
      ensures Valid()
      ensures currentTab <= old(currentTab)
      ensures currentTab != old(currentTab) <==>
        1 <= step < old(currentTab) && TabErrors(old(currentTab), f) == []
      ensures currentTab == if 1 <= step < old(currentTab) && TabErrors(old(currentTab), f) == [] then step
                            else old(currentTab)
    {
      if step < currentTab {
        var _ := SwitchTab(step, f);
      }
    }

    /** Submitting the form: only the current tab is checked before sending. */
    method Submit(f: WizardFields) returns (send: bool)
      requires Valid()
      ensures send <==> TabErrors(currentTab, f) == []
    {
      var shown;
      send, shown := ValidateTab(currentTab, f);
    }
  }

  /** Clicking "next" twice from a fresh wizard reaches the review tab
      exactly when the first two tabs pass their checks. */
  method ForwardToReview(f: WizardFields) returns (reached: int)
    ensures reached == TotalTabs <==> TabErrors(1, f) == [] && TabErrors(2, f) == []
    ensures reached == 1 <==> TabErrors(1, f) != []
  {
    var w := new TabWizard();
    var _ := w.SwitchTab(2, f);
    var _ := w.SwitchTab(3, f);
    reached := w.currentTab;
  }
}
