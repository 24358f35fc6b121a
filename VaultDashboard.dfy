/**
 * The dashboard of an open vault: the remembered editing mode, kept in local
 * storage under a key of its own per vault, and the change-password dialog.
 */
module VaultDashboard {
  import opened Wrappers
  import opened JsText
  import opened Api
  import VaultRoutes

  /** The local storage key of a vault's mode: `sv-mode-${vaultId}`. */
  function ModeKey(vaultId: string): (key: string)
    ensures StartsWith(key, "sv-mode-") && key[8..] == vaultId
  {
    "sv-mode-" + vaultId
  }

  /** Each vault has its own key, so one vault's mode never overwrites another's. */
  lemma ModeKeysDistinct(a: string, b: string)
    requires a != b
    ensures ModeKey(a) != ModeKey(b)
  {
    assert ModeKey(a)[8..] == a;
  }

  /**
   * The initial mode: whatever string is stored, when it is not empty, and
   * `quickpad` otherwise. The stored text is not checked against the two modes.
   */
  function InitialMode(stored: Option<string>): (mode: string)
    ensures mode != ""
    ensures Truthy(stored) ==> mode == stored.value
    ensures !Truthy(stored) ==> mode == "quickpad"
  {
    if Truthy(stored) then stored.value else "quickpad"
  }

  /** The mode state and the local storage it is persisted to. */
  class Dashboard {
    const vaultId: string
    var mode: string
    var storage: map<string, string>

    /** Mounting reads the stored mode, and the effect writes it back under the vault's key. */
    constructor (vaultId: string, storage: map<string, string>)
      ensures this.vaultId == vaultId
      ensures mode == InitialMode(Lookup(storage, ModeKey(vaultId)))
      ensures this.storage == storage[ModeKey(vaultId) := mode]
    {
      this.vaultId := vaultId;
      mode := InitialMode(Lookup(storage, ModeKey(vaultId)));
      this.storage := storage[ModeKey(vaultId) := InitialMode(Lookup(storage, ModeKey(vaultId)))];
    }

    /** A mode tab: the mode changes and the effect persists it. */
    method SetMode(m: string)
      requires m == "quickpad" || m == "structured"
      modifies this
      ensures mode == m && storage == old(storage)[ModeKey(vaultId) := m]
    {
      mode := m;
      storage := storage[ModeKey(vaultId) := m];
    }
  }

  /** A mode chosen with a tab is the mode the next mount of the same vault starts in. */
  lemma ModeRestored(storage: map<string, string>, vaultId: string, m: string)
    requires m == "quickpad" || m == "structured"
    ensures InitialMode(Lookup(storage[ModeKey(vaultId) := m], ModeKey(vaultId))) == m
  {
  }

  /** Another vault's stored mode does not affect this vault's start mode. */
  lemma ModeIsolated(storage: map<string, string>, vaultId: string, other: string, m: string)
    requires other != vaultId
    ensures InitialMode(Lookup(storage[ModeKey(other) := m], ModeKey(vaultId)))
         == InitialMode(Lookup(storage, ModeKey(vaultId)))
  {
    ModeKeysDistinct(other, vaultId);
  }

  /** `handleSubmit`'s checks, in their order: all fields, the confirmation, the minimum length. */
  function ChangePasswordError(current: string, next: string, confirm: string): (e: Option<string>)
    ensures e.None? <==> current != "" && next != "" && confirm != "" && next == confirm && Utf16Length(next) >= 4
    ensures current == "" || next == "" || confirm == "" ==> e == Some("All fields are required")
    ensures current != "" && next != "" && confirm != "" && next != confirm ==> e == Some("New passwords do not match")
    ensures current != "" && next != "" && next == confirm && Utf16Length(next) < 4 ==>
      e == Some("New password must be at least 4 characters")
  {
    if current == "" || next == "" || confirm == "" then Some("All fields are required")
    else if next != confirm then Some("New passwords do not match")
    else if Utf16Length(next) < 4 then Some("New password must be at least 4 characters")
    else None
  }

  /** What the dialog lets through also passes the server's input checks, within its 128-character limit. */
  lemma DialogCheckMeetsServerCheck(current: string, next: string, confirm: string)
    requires ChangePasswordError(current, next, confirm).None?
    requires Utf16Length(next) <= 128
    ensures VaultRoutes.ChangeInputError(Some(current), Some(next)).None?
  {
  }

  /** The change-password dialog's state. */
  class ChangePasswordModal {
    var currentPw: string
    var newPw: string
    var confirmPw: string
    var error: string
    var success: bool
    var loading: bool

    constructor ()
      ensures currentPw == "" && newPw == "" && confirmPw == "" && error == "" && !success && !loading
    {
      currentPw, newPw, confirmPw := "", "", "";
      error := "";
      success := false;
      loading := false;
    }

    /**
     * `handleSubmit`: the error is cleared, the checks run, and only then is
     * the request sent; a returned token replaces the session's.
     */
    method HandleSubmit(session: Session, reply: ApiReply<string>) returns (sent: Option<(string, string)>)
      requires !loading
      modifies this`error, this`success, this`loading, session
      ensures !loading
      ensures ChangePasswordError(currentPw, newPw, confirmPw).Some? ==>
        && sent == None && error == ChangePasswordError(currentPw, newPw, confirmPw).value
        && success == old(success) && session.token == old(session.token) && session.storage == old(session.storage)
      ensures ChangePasswordError(currentPw, newPw, confirmPw).None? ==> sent == Some((currentPw, newPw))
      ensures ChangePasswordError(currentPw, newPw, confirmPw).None? && reply.Done? ==>
        && error == "" && success
        && session.token == Some(reply.value)
        && session.storage == if reply.value != "" then old(session.storage)[TokenKey := reply.value]
                              else old(session.storage) - {TokenKey}
      ensures ChangePasswordError(currentPw, newPw, confirmPw).None? && reply.Thrown? ==>
        && error == ShownError(reply.message, "Failed to change password")
        && success == old(success) && session.token == old(session.token) && session.storage == old(session.storage)
    {
      error := "";
      if currentPw == "" || newPw == "" || confirmPw == "" {
        error := "All fields are required";
        return None;
      }
      if newPw != confirmPw {
        error := "New passwords do not match";
        return None;
      }
      if Utf16Length(newPw) < 4 {
        error := "New password must be at least 4 characters";
        return None;
      }
      loading := true;
      sent := Some((currentPw, newPw));
      if reply.Done? {
        session.SetToken(Some(reply.value));
        success := true;
      } else {
        error := ShownError(reply.message, "Failed to change password");
      }
      loading := false;
    }
  }
}
