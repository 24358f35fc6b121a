/** The sidebar's inline rename and its hidden PDF file input. */
module Sidebar {
  import opened Wrappers
  import opened JsText
  import StructuredNotes

  class SidebarState {
    var renamingId: Option<string>
    var renameValue: string
    /** The `value` of the hidden file input. */
    var inputValue: string

    constructor ()
      ensures renamingId == None && renameValue == "" && inputValue == ""
    {
      renamingId := None;
      renameValue := "";
      inputValue := "";
    }

    /** `startRename`: the file's id is being renamed, starting from its title. */
    method StartRename(file: StructuredNotes.VaultFile)
      modifies this`renamingId, this`renameValue
      ensures renamingId == Some(file.fileId) && renameValue == file.title
    {
      renamingId := Some(file.fileId);
      renameValue := file.title;
    }

    /** Typing in the rename field. */
    method EditRename(value: string)
      modifies this`renameValue
      ensures renameValue == value
    {
      renameValue := value;
    }

    /**
     * `commitRename`: `onRename(id, title)` is called, with the trimmed text,
     * only when an id is being renamed and the text is not blank; the rename
     * ends either way.
     */
    method CommitRename() returns (renamed: Option<(string, string)>)
      modifies this`renamingId
      ensures renamingId == None
      ensures renamed.Some? <==> Truthy(old(renamingId)) && Trim(renameValue) != ""
      ensures renamed.Some? ==> renamed.value == (old(renamingId).value, Trim(renameValue))
      ensures renamed.Some? ==> renamed.value.1 != "" && Trim(renamed.value.1) == renamed.value.1
    {
      renamed := None;
      var trimmed := Trim(renameValue);
      if Truthy(renamingId) && trimmed != "" {
        TrimIdempotent(renameValue);
        renamed := Some((renamingId.value, trimmed));
      }
      renamingId := None;
    }

    /** `onKeyDown` of the rename field: Enter commits, Escape cancels without renaming. */
    method KeyDown(key: string) returns (renamed: Option<(string, string)>)
      modifies this`renamingId
      ensures key != "Enter" && key != "Escape" ==> renamed == None && renamingId == old(renamingId)
      ensures key == "Escape" ==> renamed == None && renamingId == None
      ensures key == "Enter" ==>
        && renamingId == None
        && (renamed.Some? <==> Truthy(old(renamingId)) && Trim(renameValue) != "")
        && (renamed.Some? ==> renamed.value == (old(renamingId).value, Trim(renameValue)))
    {
      renamed := None;
      if key == "Enter" {
        renamed := CommitRename();
      }
      if key == "Escape" {
        renamingId := None;
      }
    }

    /** `handleFileInput`: only the first chosen file is uploaded, and the input is always cleared. */
    method HandleFileInput<F>(files: seq<F>) returns (upload: Option<F>)
      modifies this`inputValue
      ensures inputValue == ""
      ensures files == [] ==> upload == None
      ensures files != [] ==> upload == Some(files[0])
    {
      upload := None;
      if |files| > 0 {
        upload := Some(files[0]);
      }
      inputValue := "";
    }
  }
}
