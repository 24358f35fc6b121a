/**
 * The file list of the structured-notes view: fresh names for new notes and
 * uploaded PDFs, and the selection updates after a rename or a delete.
 */
module StructuredNotes {
  import opened Wrappers
  import opened JsText

  datatype FileType = Note | Pdf

  /** `VaultFile` as the client receives it. */
  datatype VaultFile = VaultFile(
    fileId: string,
    fileType: FileType,
    title: string,
    content: Option<string>,
    originalSize: Option<int>,
    compressedSize: Option<int>,
    createdAt: string,
    updatedAt: string)

  /** `files.map(f => f.title)` */
  function Titles(files: seq<VaultFile>): (titles: seq<string>)
    ensures |titles| == |files|
    ensures forall i :: 0 <= i < |files| ==> titles[i] == files[i].title
  {
    if files == [] then [] else [files[0].title] + Titles(files[1..])
  }

  /** `files.filter(f => f.type === 'note').map(f => f.title)` */
  function NoteTitles(files: seq<VaultFile>): (titles: seq<string>)
    ensures |titles| <= |files|
    ensures forall t :: t in titles <==> exists f :: f in files && f.fileType == Note && f.title == t
  {
    if files == [] then []
    else
      var rest := NoteTitles(files[1..]);
      assert forall f :: f in files <==> f == files[0] || f in files[1..];
      if files[0].fileType == Note then [files[0].title] + rest else rest
  }

  /** The candidate name `${base}-${n}${ext}`. */
  function Suffixed(base: string, ext: string, n: nat): string {
    base + "-" + Dec(n) + ext
  }

  lemma SuffixedInjective(base: string, ext: string, a: nat, b: nat)
    requires Suffixed(base, ext, a) == Suffixed(base, ext, b)
    ensures a == b
  {
    var sa, sb := Suffixed(base, ext, a), Suffixed(base, ext, b);
    assert |Dec(a)| == |Dec(b)|;
    assert Dec(a) == sa[|base| + 1..|sa| - |ext|] == sb[|base| + 1..|sb| - |ext|] == Dec(b);
    DecInjective(a, b);
  }

  /** `xs` with every occurrence of `x` removed. */
  function Without(xs: seq<string>, x: string): (r: seq<string>)
    ensures forall y :: y in r <==> y in xs && y != x
    ensures x in xs ==> |r| < |xs|
    ensures |r| <= |xs|
  {
    if xs == [] then []
    else if xs[0] == x then Without(xs[1..], x)
    else [xs[0]] + Without(xs[1..], x)
  }

  /** When the names for 1..n are all taken, there are at least n existing titles. */
  lemma {:induction false} TakenBound(existing: seq<string>, base: string, ext: string, n: nat)
    requires forall k :: 1 <= k <= n ==> Suffixed(base, ext, k) in existing
    ensures n <= |existing|
    decreases n
  {
    if n > 0 {
      var rest := Without(existing, Suffixed(base, ext, n));
      forall k | 1 <= k <= n - 1 ensures Suffixed(base, ext, k) in rest {
        if Suffixed(base, ext, k) == Suffixed(base, ext, n) {
          SuffixedInjective(base, ext, k, n);
        }
      }
      TakenBound(rest, base, ext, n - 1);
    }
  }

  /**
   * The counting loop `let n = 1; while (existing.includes(name(n))) n++;`:
   * the least free suffix, which never exceeds `|existing| + 1`.
   */
  method LeastFreeSuffix(existing: seq<string>, base: string, ext: string) returns (n: nat)
    ensures 1 <= n <= |existing| + 1
    ensures Suffixed(base, ext, n) !in existing
    ensures forall k :: 1 <= k < n ==> Suffixed(base, ext, k) in existing
  {
    n := 1;
    while Suffixed(base, ext, n) in existing
      invariant 1 <= n <= |existing| + 1
      invariant forall k :: 1 <= k < n ==> Suffixed(base, ext, k) in existing
      decreases |existing| + 1 - n
    {
      TakenBound(existing, base, ext, n);
      n := n + 1;
    }
  }

  /** `getNextNoteName`: `Note-n` for the least n that no note is titled with. */
  method NextNoteName(files: seq<VaultFile>) returns (name: string)
    ensures name !in NoteTitles(files)
    ensures exists n: nat :: (1 <= n <= |files| + 1 && name == Suffixed("Note", "", n)
      && forall k :: 1 <= k < n ==> Suffixed("Note", "", k) in NoteTitles(files))
  {
    var existing := NoteTitles(files);
    var n := LeastFreeSuffix(existing, "Note", "");
    name := Suffixed("Note", "", n);
  }

  /** The `Note-n` rule counts note titles only: a PDF with the same title does not block a name. */
  lemma NoteNamesIgnorePdfs(files: seq<VaultFile>, pdf: VaultFile)
    requires pdf.fileType == Pdf
    ensures forall t :: t in NoteTitles(files + [pdf]) <==> t in NoteTitles(files)
  {
    forall t ensures t in NoteTitles(files + [pdf]) <==> t in NoteTitles(files) {
      if t in NoteTitles(files + [pdf]) {
        var f :| f in files + [pdf] && f.fileType == Note && f.title == t;
        assert f in files;
      }
      if t in NoteTitles(files) {
        var f :| f in files && f.fileType == Note && f.title == t;
        assert f in files + [pdf];
      }
    }
  }

  /** The split of `getUniquePDFName`: at the last dot, only when that dot is not the first character. */
  function SplitExtension(name: string): (parts: (string, string))
    ensures parts.0 + parts.1 == name
    ensures parts.1 != [] ==> parts.1[0] == '.' && 0 < |parts.0| && '.' !in parts.1[1..]
    ensures parts.1 == [] ==> LastIndexOf(name, '.') <= 0
  {
    var dot := LastIndexOf(name, '.');
    if dot > 0 then (name[..dot], name[dot..]) else (name, "")
  }

  /** `getUniquePDFName`: the name itself when no file has it, else `base-n.ext` for the least free n. */
  method UniquePdfName(files: seq<VaultFile>, name: string) returns (unique: string)
    ensures unique !in Titles(files)
    ensures name !in Titles(files) ==> unique == name
    ensures name in Titles(files) ==>
      var (base, ext) := SplitExtension(name);
      exists n: nat :: (1 <= n <= |files| + 1 && unique == Suffixed(base, ext, n)
        && forall k :: 1 <= k < n ==> Suffixed(base, ext, k) in Titles(files))
  {
    var existing := Titles(files);
    if name !in existing {
      return name;
    }
    var dot := LastIndexOf(name, '.');
    var base := if dot > 0 then name[..dot] else name;
    var ext := if dot > 0 then name[dot..] else "";
    assert (base, ext) == SplitExtension(name);
    var n := LeastFreeSuffix(existing, base, ext);
    unique := Suffixed(base, ext, n);
  }

  /** The component state that the rename and delete handlers update. */
  class NotesState {
    var files: seq<VaultFile>
    var activeFileId: Option<string>
    var activeFile: Option<VaultFile>

    constructor ()
      ensures files == [] && activeFileId == None && activeFile == None
    {
      files := [];
      activeFileId := None;
      activeFile := None;
    }

    /**
     * `handleDelete`. `deleted` says whether `api.deleteFile` resolved and
     * `reloaded` is the list `loadFiles` fetched (None where it rejected).
     * A rejected delete changes nothing. Otherwise the selection is cleared
     * only when it was the deleted file, the effect on `activeFileId` then
     * clears the open file, and the list is replaced when the reload succeeds.
     */
    method HandleDelete(fileId: string, deleted: bool, reloaded: Option<seq<VaultFile>>)
      modifies this
      ensures !deleted ==> files == old(files) && activeFileId == old(activeFileId) && activeFile == old(activeFile)
      ensures deleted ==>
        && files == (if reloaded.Some? then reloaded.value else old(files))
        && activeFileId == (if old(activeFileId) == Some(fileId) then None else old(activeFileId))
        && activeFile == (if old(activeFileId) == Some(fileId) then None else old(activeFile))
    {
      if !deleted {
        return;
      }
      if activeFileId == Some(fileId) {
        activeFileId := None;
        activeFile := None;
      }
      if reloaded.Some? {
        files := reloaded.value;
      }
    }

    /**
     * `handleRename`. `renamed` says whether `api.updateFile` resolved and
     * `reloaded` is the list `loadFiles` fetched (None where it rejected).
     * Nothing after a rejected call runs; after both calls only a matching
     * open file is retitled.
     */
    method HandleRename(fileId: string, title: string, renamed: bool, reloaded: Option<seq<VaultFile>>)
      modifies this
      ensures activeFileId == old(activeFileId)
      ensures !(renamed && reloaded.Some?) ==> files == old(files) && activeFile == old(activeFile)
      ensures renamed && reloaded.Some? ==>
        && files == reloaded.value
        && (old(activeFile).Some? && old(activeFile).value.fileId == fileId ==>
              activeFile == Some(old(activeFile).value.(title := title)))
        && (!(old(activeFile).Some? && old(activeFile).value.fileId == fileId) ==> activeFile == old(activeFile))
    {
      if !renamed || reloaded.None? {
        return;
      }
      files := reloaded.value;
      if activeFile.Some? && activeFile.value.fileId == fileId {
        activeFile := Some(activeFile.value.(title := title));
      }
    }
  }
}
