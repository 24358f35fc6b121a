/**
 * The application shell: which page is shown, the open vault, and the
 * session storage entries that let a reload reopen it.
 */
module App {
  import opened Wrappers
  import opened JsText
  import opened Api

  const VaultIdKey := "sv_vault_id"

  datatype Page = Login | Dashboard | About | Privacy | Terms

  /**
   * The vault a fresh page load reopens from session storage: the stored
   * id, when both it and the stored token are non-empty.
   */
  function Restored(storage: map<string, string>): (id: Option<string>)
    ensures id.Some? <==> Truthy(Lookup(storage, TokenKey)) && Truthy(Lookup(storage, VaultIdKey))
    ensures id.Some? ==> id.value != "" && id == Lookup(storage, VaultIdKey)
  {
    if Truthy(Lookup(storage, TokenKey)) && Truthy(Lookup(storage, VaultIdKey)) then Lookup(storage, VaultIdKey)
    else None
  }

  /** After access is granted with a non-empty token, a reload reopens the same vault. */
  lemma AccessSurvivesReload(storage: map<string, string>, id: string, token: string)
    requires id != "" && token != ""
    ensures Restored(storage[TokenKey := token][VaultIdKey := id]) == Some(id)
  {
    assert Lookup(storage[TokenKey := token][VaultIdKey := id], TokenKey) == Some(token);
  }

  /** After locking, a reload reopens nothing. */
  lemma LockForgetsVault(storage: map<string, string>)
    ensures Restored(storage - {TokenKey} - {VaultIdKey}) == None
  {
  }

  class Shell {
    var page: Page
    var vaultId: string
    const session: Session

    constructor (session: Session)
      ensures page == Login && vaultId == "" && this.session == session
    {
      page := Login;
      vaultId := "";
      this.session := session;
    }

    /** The mount effect: the dashboard only when both a token and a saved vault id are present. */
    method Mount()
      modifies this`page, this`vaultId, session`token
      ensures session.token == (if Truthy(old(session.token)) then old(session.token)
                                else Lookup(session.storage, TokenKey))
      ensures Truthy(session.token) && Truthy(Lookup(session.storage, VaultIdKey)) ==>
        page == Dashboard && vaultId == session.storage[VaultIdKey]
      ensures !(Truthy(session.token) && Truthy(Lookup(session.storage, VaultIdKey))) ==>
        page == old(page) && vaultId == old(vaultId)
    {
      var t := session.GetToken();
      var saved := Lookup(session.storage, VaultIdKey);
      if Truthy(t) && Truthy(saved) {
        page := Dashboard;
        vaultId := saved.value;
      }
    }

    /** On a fresh page load, mounting opens exactly the `Restored` vault. */
    method MountFresh()
      requires page == Login && vaultId == "" && session.token == None
      modifies this`page, this`vaultId, session`token
      ensures Restored(session.storage).Some? ==> page == Dashboard && Some(vaultId) == Restored(session.storage)
      ensures Restored(session.storage).None? ==> page == Login && vaultId == ""
    {
      Mount();
    }

    /** `handleAccess`: store the token and the id, and open the dashboard. */
    method HandleAccess(id: string, token: string)
      modifies this`page, this`vaultId, session
      ensures session.token == Some(token)
      ensures session.storage == (if token != "" then old(session.storage)[TokenKey := token]
                                  else old(session.storage) - {TokenKey})[VaultIdKey := id]
      ensures vaultId == id && page == Dashboard
    {
      session.SetToken(Some(token));
      session.storage := session.storage[VaultIdKey := id];
      vaultId := id;
      page := Dashboard;
    }

    /** `handleLock`: forget the token and the id, and return to the login page. */
    method HandleLock()
      modifies this`page, this`vaultId, session
      ensures session.token == None
      ensures session.storage == old(session.storage) - {TokenKey} - {VaultIdKey}
      ensures page == Login && vaultId == ""
    {
      session.SetToken(None);
      session.storage := session.storage - {VaultIdKey};
      page := Login;
      vaultId := "";
    }

    /** `onNavigate` from the access page, which links to the about, privacy and terms pages. */
    method Navigate(p: Page)
      requires p == About || p == Privacy || p == Terms
      modifies this`page
      ensures page == p
    {
      page := p;
    }

    /** `onBack` of the about, privacy and terms pages. */
    method Back()
      requires page == About || page == Privacy || page == Terms
      modifies this`page
      ensures page == Login
    {
      page := Login;
    }
  }
}
