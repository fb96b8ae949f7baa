/** The size and file-type gate every uploaded file passes
    (submission-form.php:293-329), and the loops that keep the files which
    pass it (submission-form.php:186-251, my-products.php:476-506). */
module Uploads {
  import opened Text

  /** One entry of PHP's `$_FILES` array: the client's file name and its size in bytes. */
  datatype FileUpload = FileUpload(name: string, size: nat)

  const MiB: nat := 1024 * 1024
  /** Largest design file accepted: 50 MB. */
  const MaxDesignFileSize: nat := 50 * MiB
  /** Largest image accepted: 5 MB. */
  const MaxImageSize: nat := 5 * MiB

  /** The extensions of the allowed-MIME list for design files. */
  const DesignExtensions: seq<string> :=
    ["stl", "obj", "3mf", "step", "iges", "sldprt", "f3d", "skp", "dwg", "pdf", "doc", "docx", "txt"]
  /** The extensions of the allowed-MIME list for images ('jpg|jpeg' is one key matching both). */
  const ImageExtensions: seq<string> := ["jpg", "jpeg", "png", "gif", "webp"]

  function MaxSize(isDesignFile: bool): nat {
    if isDesignFile then MaxDesignFileSize else MaxImageSize
  }

  function AllowedExtensions(isDesignFile: bool): seq<string> {
    if isDesignFile then DesignExtensions else ImageExtensions
  }

  /** The file name ends in '.' followed by `ext`, ignoring ASCII case, as
      WordPress's file-type check matches it. */
  predicate HasExtension(name: string, ext: string) {
    |name| >= |ext| + 1 && name[|name| - |ext| - 1] == '.' && Lower(name[|name| - |ext|..]) == ext
  }

  /** `store_mm_handle_file_upload` lets a file through to WordPress's upload
      handling exactly when it is small enough and has an allowed extension. */
  predicate UploadAccepted(f: FileUpload, isDesignFile: bool) {
    f.size <= MaxSize(isDesignFile) &&
    exists ext :: ext in AllowedExtensions(isDesignFile) && HasExtension(f.name, ext)
  }

  /** The refusal conditions, stated on their own: too large, or of no allowed type. */
  lemma UploadRefusal(f: FileUpload, isDesignFile: bool)
    ensures !UploadAccepted(f, isDesignFile) <==>
      (isDesignFile && f.size > 50 * 1024 * 1024) ||
      (!isDesignFile && f.size > 5 * 1024 * 1024) ||
      (forall ext :: ext in AllowedExtensions(isDesignFile) ==> !HasExtension(f.name, ext))
  {
  }

  /** Whether the upload loop handles an entry at all: one with an empty name is skipped. */
  predicate Handled(f: FileUpload, isDesignFile: bool) {
    !Blank(f.name) && UploadAccepted(f, isDesignFile)
  }

  /** The files the upload loop keeps, in upload order. */
  function Kept(files: seq<FileUpload>, isDesignFile: bool): (r: seq<FileUpload>)
    ensures |r| <= |files|
  {
    if files == [] then []
    else Kept(files[..|files| - 1], isDesignFile) +
         (if Handled(files[|files| - 1], isDesignFile) then [files[|files| - 1]] else [])
  }

  /** The upload loop: every named file that passes the gate is kept, in order. */
  method KeepUploads(files: seq<FileUpload>, isDesignFile: bool) returns (kept: seq<FileUpload>)
    ensures kept == Kept(files, isDesignFile)
  {
    kept := [];
    for i := 0 to |files|
      invariant kept == Kept(files[..i], isDesignFile)
    {
      assert files[..i + 1][..i] == files[..i];
      if !Blank(files[i].name) && UploadAccepted(files[i], isDesignFile) {
        kept := kept + [files[i]];
      }
    }
    assert files[..|files|] == files;
  }

  /** Every kept file is a named upload that passed the gate, and every such
      upload is kept. */
  lemma {:induction false} KeptExactly(files: seq<FileUpload>, isDesignFile: bool)
    ensures forall f :: f in Kept(files, isDesignFile) <==> f in files && Handled(f, isDesignFile)
  {
    if files != [] {
      var init := files[..|files| - 1];
      KeptExactly(init, isDesignFile);
      assert files == init + [files[|files| - 1]];
    }
  }

  /** Files that all pass the gate are all kept, in the same order. */
  lemma {:induction false} KeptAllHandled(files: seq<FileUpload>, isDesignFile: bool)
    requires forall i :: 0 <= i < |files| ==> Handled(files[i], isDesignFile)
    ensures Kept(files, isDesignFile) == files
  {
    if files != [] {
      KeptAllHandled(files[..|files| - 1], isDesignFile);
      assert files == files[..|files| - 1] + [files[|files| - 1]];
    }
  }
}
