/**
 * The vault endpoints of the backend: `/check`, `/login`, `/create` and
 * `/change-password`. Each is an ordered sequence of early-return checks
 * followed by database effects. The database is the `vaults` and `quickpad`
 * tables plus the log of queries issued; bcrypt and token signing are parameters.
 */
module VaultRoutes {
  import opened Wrappers
  import opened JsText

  const BcryptRounds := 12

  /** `bcrypt.compareSync`, `bcrypt.hashSync` and `generateToken`. */
  datatype Crypto = Crypto(
    compare: (string, string) -> bool,
    hash: (string, nat) -> string,
    sign: string -> string)

  /** A query sent to the database. */
  datatype Query =
    | SelectVault(vaultId: string)
    | InsertVault(vaultId: string)
    | InsertQuickpad(vaultId: string)
    | UpdateHash(vaultId: string)

  /** The JSON answer of a handler. */
  datatype Reply =
    | Error(status: int, error: string)
    | ExistsReply(found: bool)  // the JSON key `exists`
    | TokenReply(token: string)
    | ChangedReply(success: bool, token: string)

  class Database {
    var vaults: map<string, string>
    var quickpad: map<string, string>
    var log: seq<Query>

    constructor (vaults: map<string, string>, quickpad: map<string, string>)
      ensures this.vaults == vaults && this.quickpad == quickpad && log == []
    {
      this.vaults := vaults;
      this.quickpad := quickpad;
      log := [];
    }

    /** `.from('vaults').select(..).eq('vault_id', id).single()`: the row's password hash. */
    method FetchVault(id: string) returns (hash: Option<string>)
      modifies this`log
      ensures log == old(log) + [SelectVault(id)]
      ensures hash == if id in vaults then Some(vaults[id]) else None
    {
      log := log + [SelectVault(id)];
      hash := if id in vaults then Some(vaults[id]) else None;
    }
  }

  /** `POST /check` */
  method Check(db: Database, vaultId: Option<string>) returns (reply: Reply)
    modifies db`log
    ensures !Truthy(vaultId) ==> reply == Error(400, "Vault ID is required") && db.log == old(db.log)
    ensures Truthy(vaultId) ==>
      reply == ExistsReply(vaultId.value in db.vaults) && db.log == old(db.log) + [SelectVault(vaultId.value)]
  {
    if !Truthy(vaultId) {
      return Error(400, "Vault ID is required");
    }
    var vault := db.FetchVault(vaultId.value);
    reply := ExistsReply(vault.Some?);
  }

  /** `POST /login`: 400, then 404, then 401, then a token. */
  method Login(db: Database, crypto: Crypto, vaultId: Option<string>, password: Option<string>) returns (reply: Reply)
    modifies db`log
    ensures !Truthy(vaultId) || !Truthy(password) ==>
      reply == Error(400, "Vault ID and password are required") && db.log == old(db.log)
    ensures Truthy(vaultId) && Truthy(password) ==>
      var id, pw := vaultId.value, password.value;
      && db.log == old(db.log) + [SelectVault(id)]
      && (id !in db.vaults ==> reply == Error(404, "Vault not found"))
      && (id in db.vaults && !crypto.compare(pw, db.vaults[id]) ==> reply == Error(401, "Wrong password"))
      && (id in db.vaults && crypto.compare(pw, db.vaults[id]) ==> reply == TokenReply(crypto.sign(id)))
  {
    if !Truthy(vaultId) || !Truthy(password) {
      return Error(400, "Vault ID and password are required");
    }
    var vault := db.FetchVault(vaultId.value);
    if vault.None? {
      return Error(404, "Vault not found");
    }
    if !crypto.compare(password.value, vault.value) {
      return Error(401, "Wrong password");
    }
    reply := TokenReply(crypto.sign(vaultId.value));
  }

  /** The `/create` validation that runs before the database is consulted, in its order. */
  function CreateInputError(vaultId: Option<string>, password: Option<string>): (e: Option<string>)
    ensures e.None? <==> (Truthy(vaultId) && Truthy(password)
      && Utf16Length(vaultId.value) <= 64 && 4 <= Utf16Length(password.value) <= 128)
    ensures !Truthy(vaultId) || !Truthy(password) ==> e == Some("Vault ID and password are required")
    ensures (Truthy(vaultId) && Truthy(password)
      && (Utf16Length(vaultId.value) > 64 || Utf16Length(password.value) > 128)) ==> e == Some("Input too long")
    ensures (Truthy(vaultId) && Truthy(password)
      && Utf16Length(vaultId.value) <= 64 && Utf16Length(password.value) < 4) ==>
        e == Some("Password must be at least 4 characters")
  {
    if !Truthy(vaultId) || !Truthy(password) then Some("Vault ID and password are required")
    else if Utf16Length(vaultId.value) > 64 || Utf16Length(password.value) > 128 then Some("Input too long")
    else if Utf16Length(password.value) < 4 then Some("Password must be at least 4 characters")
    else None
  }

  /** Over-long input is reported as too long even when the password is also too short. */
  lemma CreateLengthBeforeMinimum(vaultId: string, password: string)
    requires vaultId != "" && password != ""
    requires Utf16Length(vaultId) > 64
    ensures CreateInputError(Some(vaultId), Some(password)) == Some("Input too long")
  {
  }

  /**
   * `POST /create`: input checks, then 409 for an existing vault, then the
   * insert (whose failure `insertError` answers 500), the empty quick pad and a token.
   */
  method Create(db: Database, crypto: Crypto, vaultId: Option<string>, password: Option<string>,
                insertError: Option<string>) returns (reply: Reply)
    modifies db
    ensures CreateInputError(vaultId, password).Some? ==>
      && reply == Error(400, CreateInputError(vaultId, password).value)
      && db.log == old(db.log) && db.vaults == old(db.vaults) && db.quickpad == old(db.quickpad)
    ensures CreateInputError(vaultId, password).None? && vaultId.value in old(db.vaults) ==>
      && reply == Error(409, "Vault already exists")
      && db.log == old(db.log) + [SelectVault(vaultId.value)]
      && db.vaults == old(db.vaults) && db.quickpad == old(db.quickpad)
    ensures CreateInputError(vaultId, password).None? && vaultId.value !in old(db.vaults) && insertError.Some? ==>
      && reply == Error(500, insertError.value)
      && db.log == old(db.log) + [SelectVault(vaultId.value), InsertVault(vaultId.value)]
      && db.vaults == old(db.vaults) && db.quickpad == old(db.quickpad)
    ensures CreateInputError(vaultId, password).None? && vaultId.value !in old(db.vaults) && insertError.None? ==>
      var id := vaultId.value;
      && reply == TokenReply(crypto.sign(id))
      && db.log == old(db.log) + [SelectVault(id), InsertVault(id), InsertQuickpad(id)]
      && db.vaults == old(db.vaults)[id := crypto.hash(password.value, BcryptRounds)]
      && db.quickpad == old(db.quickpad)[id := ""]
  {
    if !Truthy(vaultId) || !Truthy(password) {
      return Error(400, "Vault ID and password are required");
    }
    var id, pw := vaultId.value, password.value;
    if Utf16Length(id) > 64 || Utf16Length(pw) > 128 {
      return Error(400, "Input too long");
    }
    if Utf16Length(pw) < 4 {
      return Error(400, "Password must be at least 4 characters");
    }
    var existing := db.FetchVault(id);
    if existing.Some? {
      return Error(409, "Vault already exists");
    }
    var hash := crypto.hash(pw, BcryptRounds);
    db.log := db.log + [InsertVault(id)];
    if insertError.Some? {
      return Error(500, insertError.value);
    }
    db.vaults := db.vaults[id := hash];
    db.log := db.log + [InsertQuickpad(id)];
    db.quickpad := db.quickpad[id := ""];
    reply := TokenReply(crypto.sign(id));
  }

  /** The `/change-password` validation that runs before the database is consulted, in its order. */
  function ChangeInputError(currentPassword: Option<string>, newPassword: Option<string>): (e: Option<string>)
    ensures e.None? <==> (Truthy(currentPassword) && Truthy(newPassword) && Utf16Length(newPassword.value) <= 128)
    ensures !Truthy(currentPassword) || !Truthy(newPassword) ==> e == Some("Current and new passwords are required")
    ensures Truthy(currentPassword) && Truthy(newPassword) && Utf16Length(newPassword.value) > 128 ==>
      e == Some("New password must be between 1 and 128 characters")
  {
    if !Truthy(currentPassword) || !Truthy(newPassword) then Some("Current and new passwords are required")
    else if Utf16Length(newPassword.value) < 1 || Utf16Length(newPassword.value) > 128 then
      Some("New password must be between 1 and 128 characters")
    else None
  }

  /**
   * `PUT /change-password` for the vault the middleware authenticated: 400,
   * 400 for the length, 404, 401, and only then the hash update.
   */
  method ChangePassword(db: Database, crypto: Crypto, vaultId: string,
                        currentPassword: Option<string>, newPassword: Option<string>) returns (reply: Reply)
    modifies db`log, db`vaults
    ensures db.quickpad == old(db.quickpad)
    ensures ChangeInputError(currentPassword, newPassword).Some? ==>
      && reply == Error(400, ChangeInputError(currentPassword, newPassword).value)
      && db.log == old(db.log) && db.vaults == old(db.vaults)
    ensures ChangeInputError(currentPassword, newPassword).None? ==>
      && (vaultId !in old(db.vaults) ==>
            reply == Error(404, "Vault not found") && db.vaults == old(db.vaults))
      && (vaultId in old(db.vaults) && !crypto.compare(currentPassword.value, old(db.vaults)[vaultId]) ==>
            reply == Error(401, "Current password is incorrect") && db.vaults == old(db.vaults))
      && (vaultId in old(db.vaults) && crypto.compare(currentPassword.value, old(db.vaults)[vaultId]) ==>
            && reply == ChangedReply(true, crypto.sign(vaultId))
            && db.vaults == old(db.vaults)[vaultId := crypto.hash(newPassword.value, BcryptRounds)]
            && db.log == old(db.log) + [SelectVault(vaultId), UpdateHash(vaultId)])
      && (reply.Error? ==> db.log == old(db.log) + [SelectVault(vaultId)])
  {
    if !Truthy(currentPassword) || !Truthy(newPassword) {
      return Error(400, "Current and new passwords are required");
    }
    var current, next := currentPassword.value, newPassword.value;
    if Utf16Length(next) < 1 || Utf16Length(next) > 128 {
      return Error(400, "New password must be between 1 and 128 characters");
    }
    var vault := db.FetchVault(vaultId);
    if vault.None? {
      return Error(404, "Vault not found");
    }
    if !crypto.compare(current, vault.value) {
      return Error(401, "Current password is incorrect");
    }
    var newHash := crypto.hash(next, BcryptRounds);
    db.log := db.log + [UpdateHash(vaultId)];
    db.vaults := db.vaults[vaultId := newHash];
    reply := ChangedReply(true, crypto.sign(vaultId));
  }

  /**
   * The server's only lower bound on a new password is the one a truthy
   * string always meets: unlike `/create`, `/change-password` accepts every
   * password of one to three UTF-16 units.
   */
  lemma ChangeAcceptsShortPasswords(vaultId: string, currentPassword: string, newPassword: string)
    requires vaultId != "" && Utf16Length(vaultId) <= 64
    requires currentPassword != ""
    requires 1 <= Utf16Length(newPassword) <= 3
    ensures ChangeInputError(Some(currentPassword), Some(newPassword)).None?
    ensures CreateInputError(Some(vaultId), Some(newPassword)) == Some("Password must be at least 4 characters")
  {
  }
}
