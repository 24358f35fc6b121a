/**
 * The vault access page: a vault id is checked, then the visitor either logs
 * in, or confirms creation, accepts the terms and sets a password. Each
 * handler runs with the answer of its API call as a parameter; the
 * `loading` flag is raised only while that call is outstanding.
 */
module VaultAccess {
  import opened Wrappers
  import opened JsText
  import opened Api
  import VaultRoutes

  datatype Step = EnterId | EnterPassword | ConfirmCreate | AcceptTerms | SetPassword

  /** An `onAccess(vaultId, token)` call. */
  datatype Access = Access(vaultId: string, token: string)

  /** `handleCreate`'s checks, in their order: required, minimum length, confirmation. */
  function CreatePasswordError(password: string, confirm: string): (e: Option<string>)
    ensures e.None? <==> password != "" && Utf16Length(password) >= 4 && password == confirm
    ensures password == "" ==> e == Some("Password is required")
    ensures password != "" && Utf16Length(password) < 4 ==> e == Some("Password must be at least 4 characters")
    ensures password != "" && Utf16Length(password) >= 4 && password != confirm ==> e == Some("Passwords do not match")
  {
    if password == "" then Some("Password is required")
    else if Utf16Length(password) < 4 then Some("Password must be at least 4 characters")
    else if password != confirm then Some("Passwords do not match")
    else None
  }

  /**
   * A password this page lets through is never refused by `/create` for
   * being short, and, within the server's length limits, `/create`'s input
   * checks all pass for the trimmed id the page sends.
   */
  lemma ClientCheckMeetsServerCheck(vaultId: string, password: string, confirm: string)
    requires CreatePasswordError(password, confirm).None?
    requires Trim(vaultId) != ""
    requires Utf16Length(Trim(vaultId)) <= 64 && Utf16Length(password) <= 128
    ensures VaultRoutes.CreateInputError(Some(Trim(vaultId)), Some(password)).None?
  {
  }

  class AccessPage {
    var vaultId: string
    var password: string
    var confirmPassword: string
    var step: Step
    var error: string
    var loading: bool
    var acceptedTerms: bool

    /**
     * What holds between events: the password step is reached only with the
     * terms accepted, every step past the first has a non-blank id, and no
     * call is outstanding.
     */
    predicate Valid()
      reads this
    {
      && (step == SetPassword ==> acceptedTerms)
      && (step != EnterId ==> Trim(vaultId) != "")
      && !loading
    }

    constructor ()
      ensures Valid()
      ensures vaultId == "" && password == "" && confirmPassword == "" && step == EnterId
      ensures error == "" && !acceptedTerms
    {
      vaultId := "";
      password := "";
      confirmPassword := "";
      step := EnterId;
      error := "";
      loading := false;
      acceptedTerms := false;
    }

    /** Typing in the vault id field, shown on the first step only. */
    method EditVaultId(value: string)
      requires Valid() && step == EnterId
      modifies this`vaultId
      ensures Valid() && vaultId == value
    {
      vaultId := value;
    }

    /** Typing in a password field, shown on the login and set-password steps. */
    method EditPassword(value: string)
      requires Valid() && (step == EnterPassword || step == SetPassword)
      modifies this`password
      ensures Valid() && password == value
    {
      password := value;
    }

    /** Typing in the confirmation field of the set-password step. */
    method EditConfirmPassword(value: string)
      requires Valid() && step == SetPassword
      modifies this`confirmPassword
      ensures Valid() && confirmPassword == value
    {
      confirmPassword := value;
    }

    /** The terms checkbox of the accept-terms step. */
    method ToggleTerms(checked: bool)
      requires Valid() && step == AcceptTerms
      modifies this`acceptedTerms
      ensures Valid() && acceptedTerms == checked
    {
      acceptedTerms := checked;
    }

    /**
     * `handleCheckVault`: a blank id is refused without a call; otherwise the
     * trimmed id is sent and the answer picks the next step.
     */
    method HandleCheckVault(reply: ApiReply<bool>) returns (sent: Option<string>)
      requires Valid() && step == EnterId
      modifies this`error, this`loading, this`step
      ensures Valid()
      ensures Trim(old(vaultId)) == "" ==>
        sent == None && error == "Vault ID is required" && step == EnterId
      ensures Trim(old(vaultId)) != "" ==> sent == Some(Trim(vaultId))
      ensures Trim(old(vaultId)) != "" && reply.Done? ==>
        error == "" && step == (if reply.value then EnterPassword else ConfirmCreate)
      ensures Trim(old(vaultId)) != "" && reply.Thrown? ==>
        error == ShownError(reply.message, "Failed to check vault") && step == EnterId
    {
      var id := Trim(vaultId);
      if id == "" {
        error := "Vault ID is required";
        return None;
      }
      error := "";
      loading := true;
      sent := Some(id);
      if reply.Done? {
        step := if reply.value then EnterPassword else ConfirmCreate;
      } else {
        error := ShownError(reply.message, "Failed to check vault");
      }
      loading := false;
    }

    /** `handleLogin`: an empty password is refused without a call; a token grants access to the trimmed id. */
    method HandleLogin(reply: ApiReply<string>) returns (sent: Option<(string, string)>, access: Option<Access>)
      requires Valid() && step == EnterPassword
      modifies this`error, this`loading
      ensures Valid()
      ensures password == "" ==> sent == None && access == None && error == "Password is required"
      ensures password != "" ==> sent == Some((Trim(vaultId), password))
      ensures password != "" && reply.Done? ==> access == Some(Access(Trim(vaultId), reply.value)) && error == ""
      ensures password != "" && reply.Thrown? ==> access == None && error == ShownError(reply.message, "Login failed")
    {
      access := None;
      if password == "" {
        error := "Password is required";
        return None, None;
      }
      var id := Trim(vaultId);
      error := "";
      loading := true;
      sent := Some((id, password));
      if reply.Done? {
        access := Some(Access(id, reply.value));
      } else {
        error := ShownError(reply.message, "Login failed");
      }
      loading := false;
    }

    /** `handleCreate`: the request is sent only when `CreatePasswordError` finds nothing. */
    method HandleCreate(reply: ApiReply<string>) returns (sent: Option<(string, string)>, access: Option<Access>)
      requires Valid() && step == SetPassword
      modifies this`error, this`loading
      ensures Valid()
      ensures CreatePasswordError(password, confirmPassword).Some? ==>
        sent == None && access == None && error == CreatePasswordError(password, confirmPassword).value
      ensures CreatePasswordError(password, confirmPassword).None? ==> sent == Some((Trim(vaultId), password))
      ensures CreatePasswordError(password, confirmPassword).None? && reply.Done? ==>
        access == Some(Access(Trim(vaultId), reply.value)) && error == ""
      ensures CreatePasswordError(password, confirmPassword).None? && reply.Thrown? ==>
        access == None && error == ShownError(reply.message, "Failed to create vault")
    {
      access := None;
      if password == "" {
        error := "Password is required";
        return None, None;
      }
      if Utf16Length(password) < 4 {
        error := "Password must be at least 4 characters";
        return None, None;
      }
      if password != confirmPassword {
        error := "Passwords do not match";
        return None, None;
      }
      var id := Trim(vaultId);
      error := "";
      loading := true;
      sent := Some((id, password));
      if reply.Done? {
        access := Some(Access(id, reply.value));
      } else {
        error := ShownError(reply.message, "Failed to create vault");
      }
      loading := false;
    }

    /** The "Yes, create it" button of the confirm-create step. */
    method ConfirmYes()
      requires Valid() && step == ConfirmCreate
      modifies this`step
      ensures Valid() && step == AcceptTerms
    {
      step := AcceptTerms;
    }

    /** The Continue button of the accept-terms step, disabled until the terms are accepted. */
    method ContinueAfterTerms()
      requires Valid() && step == AcceptTerms
      modifies this`step
      ensures Valid()
      ensures step == if acceptedTerms then SetPassword else AcceptTerms
    {
      if acceptedTerms {
        step := SetPassword;
      }
    }

    /** `goBack`: back to the first step with the passwords, error and terms reset; the id is kept. */
    method GoBack()
      requires Valid()
      modifies this`error, this`password, this`confirmPassword, this`acceptedTerms, this`step
      ensures Valid()
      ensures error == "" && password == "" && confirmPassword == "" && !acceptedTerms && step == EnterId
    {
      error := "";
      password := "";
      confirmPassword := "";
      acceptedTerms := false;
      step := EnterId;
    }
  }
}
