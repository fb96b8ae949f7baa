/** The upload fields of the submission wizard (assets/js/frontend.js) and of
    the dashboard's "submit changes" dialog (assets/js/workflow.js): the
    files an input holds, the previews shown beneath it, and what the
    preview's remove button does. Both scripts share the logic and differ
    only in their limits. */
module FilePreview {

  /** How many previews a field shows, and how long a shown name may be
      before it is cut to its first `keep` characters and an ellipsis. */
  datatype Limits = Limits(maxFiles: nat, maxLen: nat, keep: nat)

  predicate WellFormed(lim: Limits) {
    0 < lim.maxFiles && lim.keep + 3 <= lim.maxLen
  }

  /** The dashboard dialog: ten files, names over 25 characters cut to 22. */
  const DashboardLimits: Limits := Limits(10, 25, 22)

  /** The submission wizard: five files, names over 15 characters cut to 12. */
  const WizardLimits: Limits := Limits(5, 15, 12)

  const Ellipsis: string := "..."

  /** The name shown in a preview. */
  function Truncate(name: string, lim: Limits): (r: string)
    requires lim.keep <= lim.maxLen
    ensures |name| <= lim.maxLen ==> r == name
    ensures |name| > lim.maxLen ==> |r| == lim.keep + 3 && r[..lim.keep] == name[..lim.keep] && r[lim.keep..] == Ellipsis
  {
    if |name| > lim.maxLen then name[..lim.keep] + Ellipsis else name
  }

  /** A shown name always fits, so cutting it again changes nothing. */
  lemma TruncateFitsAndSettles(name: string, lim: Limits)
    requires WellFormed(lim)
    ensures |Truncate(name, lim)| <= lim.maxLen
    ensures Truncate(Truncate(name, lim), lim) == Truncate(name, lim)
  {
  }

  function Min(a: nat, b: nat): nat {
    if a < b then a else b
  }

  /** One preview: the position its remove button carries and the name it shows. */
  datatype PreviewItem = PreviewItem(index: nat, caption: string)

  /** The previews of `files` as a fresh rendering shows them: the first
      `maxFiles` files, the i-th preview carrying index i and that file's name. */
  ghost predicate Renders(previews: seq<PreviewItem>, files: seq<string>, lim: Limits)
    requires lim.keep <= lim.maxLen
  {
    |previews| == Min(|files|, lim.maxFiles) &&
    forall i :: 0 <= i < |previews| ==> previews[i] == PreviewItem(i, Truncate(files[i], lim))
  }

  /** Renders the previews of a file list, with the "too many files" warning
      when the list is longer than the field shows. */
  method Preview(files: seq<string>, lim: Limits) returns (previews: seq<PreviewItem>, warning: bool)
    requires WellFormed(lim)
    ensures Renders(previews, files, lim)
    ensures warning <==> |files| > lim.maxFiles
  {
    var count := Min(|files|, lim.maxFiles);
    previews := [];
    for i := 0 to count
      invariant |previews| == i
      invariant forall j :: 0 <= j < i ==> previews[j] == PreviewItem(j, Truncate(files[j], lim))
    {
      previews := previews + [PreviewItem(i, Truncate(files[i], lim))];
    }
    warning := |files| > lim.maxFiles;
  }

  /** A file input together with the previews rendered beneath it. */
  class UploadField {
    const lim: Limits
    var files: seq<string>
    var previews: seq<PreviewItem>
    var warning: bool

    /** Every preview shows the file at the index its button carries. */
    ghost predicate Consistent()
      reads this
    {
      WellFormed(lim) && Renders(previews, files, lim)
    }

    constructor (lim: Limits)
      requires WellFormed(lim)
      ensures this.lim == lim && files == [] && previews == [] && !warning
      ensures Consistent()
    {
      this.lim := lim;
      files := [];
      previews := [];
      warning := false;
    }

    /** Choosing files through the browser's dialog: the input keeps every
        chosen file, the previews show the first `maxFiles`. */
    method Select(chosen: seq<string>)
      requires WellFormed(lim)
      modifies this
      ensures files == chosen
      ensures Consistent()
      ensures warning <==> |chosen| > lim.maxFiles
    {
      files := chosen;
      previews, warning := Preview(chosen, lim);
    }

    /** Dropping files on the zone: the input keeps only the first
        `maxFiles`, the warning still reports the files beyond them. */
    method Drop(dropped: seq<string>)
      requires WellFormed(lim)
      modifies this
      ensures files == dropped[..Min(|dropped|, lim.maxFiles)]
      ensures Consistent()
      ensures warning <==> |dropped| > lim.maxFiles
    {
      files := dropped[..Min(|dropped|, lim.maxFiles)];
      previews, warning := Preview(dropped, lim);
      assert Renders(previews, files, lim);
    }

    /** The remove button of the preview at position `k`, as the scripts
        handle it: the preview disappears and the file at the index its
        button carries, if there is one, leaves the input; the remaining
        previews keep the indices they were rendered with. */
    method RemovePreview(k: nat)
      requires k < |previews|
      modifies this
      ensures previews == old(previews[..k] + previews[k + 1..])
      ensures var idx := old(previews[k].index);
        files == if idx < |old(files)| then old(files[..idx] + files[idx + 1..]) else old(files)
      ensures warning == old(warning)
    {
      var idx := previews[k].index;
      previews := previews[..k] + previews[k + 1..];
      if idx < |files| {
        files := files[..idx] + files[idx + 1..];
      }
    }

    /** The remove button as it is evidently meant to work: the file the
        preview shows leaves the input and the previews are rendered again,
        so every button still names its own file. */
    method RemovePreviewRenumbered(k: nat)
      requires Consistent() && k < |previews|
      modifies this
      ensures old(previews[k].caption) == Truncate(old(files[k]), lim)
      ensures files == old(files[..k] + files[k + 1..])
      ensures Consistent()
      ensures warning <==> |files| > lim.maxFiles
    {
      files := files[..k] + files[k + 1..];
      previews, warning := Preview(files, lim);
    }
  }

  /** Removing two previews of three files, the first one each time: the
      second click carries the stale index 1 and removes the last file, so
      the input keeps the file whose preview was removed while the preview
      left on screen names a file that is gone. */
  method StaleIndexRemovesWrongFile() returns (remaining: seq<string>, shown: seq<string>)
    ensures remaining == ["b.stl"] && shown == ["c.stl"]
  {
    var field := new UploadField(DashboardLimits);
    field.Select(["a.stl", "b.stl", "c.stl"]);
    assert field.previews == [PreviewItem(0, "a.stl"), PreviewItem(1, "b.stl"), PreviewItem(2, "c.stl")];
    field.RemovePreview(0);
    assert field.previews == [PreviewItem(1, "b.stl"), PreviewItem(2, "c.stl")];
    field.RemovePreview(0);
    remaining := field.files;
    shown := [field.previews[0].caption];
  }

  /** With re-rendering the same two clicks leave exactly the file still shown. */
  method RenumberedRemovesShownFile() returns (remaining: seq<string>, shown: seq<string>)
    ensures remaining == ["c.stl"] && shown == ["c.stl"]
  {
    var field := new UploadField(DashboardLimits);
    field.Select(["a.stl", "b.stl", "c.stl"]);
    field.RemovePreviewRenumbered(0);
    assert field.files == ["b.stl", "c.stl"];
    field.RemovePreviewRenumbered(0);
    assert field.files == ["c.stl"];
    remaining := field.files;
    shown := [field.previews[0].caption];
  }
}
