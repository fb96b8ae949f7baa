/** The six workflow states a product record moves through (store-mm.php). */
module States {

  /** The value of a product's workflow-state meta field. `Other` stands for an
      empty or unrecognised meta value, which products created outside the
      plugin carry. */
  datatype WorkflowState =
    | Draft
    | Submitted
    | ChangesRequested
    | Prototyping
    | Approved
    | Rejected
    | Other(raw: string)

  /** The string each state is stored as. */
  function StateName(s: WorkflowState): string {
    match s
    case Draft => "draft"
    case Submitted => "submitted"
    case ChangesRequested => "changes_requested"
    case Prototyping => "prototyping"
    case Approved => "approved"
    case Rejected => "rejected"
    case Other(raw) => raw
  }

  /** Reads a stored meta value back into a state. */
  function ParseState(meta: string): (s: WorkflowState)
    ensures StateName(s) == meta
  {
    if meta == "draft" then Draft
    else if meta == "submitted" then Submitted
    else if meta == "changes_requested" then ChangesRequested
    else if meta == "prototyping" then Prototyping
    else if meta == "approved" then Approved
    else if meta == "rejected" then Rejected
    else Other(meta)
  }

  predicate IsNamed(s: WorkflowState) {
    !s.Other?
  }

  /** The six named states are stored under pairwise distinct strings, so
      reading a stored state back gives the same state. */
  lemma StateNamesDistinct(s: WorkflowState, t: WorkflowState)
    requires IsNamed(s) && IsNamed(t)
    ensures StateName(s) == StateName(t) <==> s == t
    ensures ParseState(StateName(s)) == s
  {
    var names := [StateName(Draft), StateName(Submitted), StateName(ChangesRequested),
                  StateName(Prototyping), StateName(Approved), StateName(Rejected)];
    assert names[4] != names[5] by { assert names[4][0] != names[5][0]; }
    assert names[0] != names[3] by { assert names[0][0] != names[3][0]; }
  }

  /** PHP truthiness of the stored state: an empty meta value (and "0") is false. */
  predicate StateTruthy(s: WorkflowState) {
    !(s == Other("") || s == Other("0"))
  }
}
