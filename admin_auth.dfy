/**
 * The admin session provider: the signed-in admin held in memory and
 * mirrored under the 'admin' key of the browser's local storage. The
 * `verify_admin_login` procedure is not modelled; what it returned (or that
 * it threw) is an input of `SignIn`.
 */
module AdminAuth {
  import opened Base
  import opened Storage

  const AdminKey: string := "admin"
  const InvalidCredentials: string := "Invalid email or password"
  const LoginFailed: string := "Login failed. Please try again."

  /** The result of calling `verify_admin_login`. */
  datatype RpcOutcome =
    | Returned(failed: bool, data: Option<seq<AdminUser>>)
    | Threw

  /** The procedure answered without error with at least one matching admin. */
  predicate Accepted(o: RpcOutcome) {
    o.Returned? && !o.failed && o.data.Some? && |o.data.value| > 0
  }

  /**
   * What `JSON.parse` makes of text that other code left under 'admin': it
   * throws, or it yields a falsy value (`null`, `false`, `0`, `""`), or a
   * truthy one.
   */
  datatype ParsedText = ParseThrows | ParsedFalsy | ParsedTruthy

  /**
   * The value the provider holds as its admin: a row the portal stored, or
   * the truthy parsed form of any other stored value. The pages only test
   * whether an admin is present, so the second passes their guards too. A
   * falsy parsed value is held as null, which the pages treat alike.
   */
  datatype SignedIn = Admin(user: AdminUser) | Parsed(stored: StoredValue)

  /** The provider's state, read by every admin page. */
  class AdminAuthProvider {
    const storage: KeyValueStore
    var admin: Option<SignedIn>
    var loading: bool

    /** Before the start-up effect runs: no admin, still loading. */
    constructor (storage: KeyValueStore)
      ensures this.storage == storage
      ensures admin == None && loading
    {
      this.storage := storage;
      admin := None;
      loading := true;
    }

    /**
     * The start-up effect. Nothing stored (or the empty string) keeps the
     * admin as it was. A stored admin row becomes the admin. Any other
     * stored value goes through `JSON.parse`: a record always parses to a
     * truthy object, and text parses as `parsed` says. When the parse
     * throws, the effect stops before loading ends, so loading stays on
     * (the code then loses the whole page, which is not modelled).
     * Storage is only read.
     */
    method Init(parsed: ParsedText)
      modifies this
      ensures var v := storage.GetItem(AdminKey);
        && (Truthy(v) && v.value.Text? && parsed == ParseThrows ==> admin == old(admin) && loading == old(loading))
        && (!(Truthy(v) && v.value.Text? && parsed == ParseThrows) ==> !loading)
        && (!Truthy(v) ==> admin == old(admin))
        && (Truthy(v) && v.value.AdminRecord? ==> admin == Some(Admin(v.value.admin)))
        && (Truthy(v) && v.value.SessionRecord? ==> admin == Some(Parsed(v.value)))
        && (Truthy(v) && v.value.Text? && parsed == ParsedFalsy ==> admin == None)
        && (Truthy(v) && v.value.Text? && parsed == ParsedTruthy ==> admin == Some(Parsed(v.value)))
    {
      var adminData := storage.GetItem(AdminKey);
      if Truthy(adminData) {
        match adminData.value
        case AdminRecord(user) =>
          admin := Some(Admin(user));
        case SessionRecord(_) =>
          admin := Some(Parsed(adminData.value));
        case Text(_) =>
          if parsed == ParseThrows {
            return;
          }
          admin := if parsed == ParsedTruthy then Some(Parsed(adminData.value)) else None;
      }
      loading := false;
    }

    /**
     * `signIn`: a failed call, null data or no rows give 'Invalid email or
     * password', and a thrown error gives 'Login failed. Please try again.';
     * neither changes the admin or storage. Otherwise the first row becomes
     * the admin and is stored under 'admin', and the error is null. When
     * that `setItem` throws, the catch still reports 'Login failed', but
     * the admin has already been set and storage is as it was.
     */
    method SignIn(outcome: RpcOutcome, setItemFails: bool) returns (error: Option<string>)
      modifies this, storage
      ensures loading == old(loading)
      ensures outcome.Threw? ==>
        error == Some(LoginFailed) && admin == old(admin) && storage.entries == old(storage.entries)
      ensures outcome.Returned? && !Accepted(outcome) ==>
        error == Some(InvalidCredentials) && admin == old(admin) && storage.entries == old(storage.entries)
      ensures Accepted(outcome) ==> admin == Some(Admin(outcome.data.value[0]))
      ensures Accepted(outcome) && setItemFails ==>
        error == Some(LoginFailed) && storage.entries == old(storage.entries)
      ensures Accepted(outcome) && !setItemFails ==>
        && error == None
        && storage.entries == old(storage.entries)[AdminKey := AdminRecord(outcome.data.value[0])]
    {
      if outcome.Threw? {
        return Some(LoginFailed);
      }
      if outcome.failed || outcome.data.None? || |outcome.data.value| == 0 {
        return Some(InvalidCredentials);
      }
      var adminUser := outcome.data.value[0];
      admin := Some(Admin(adminUser));
      if setItemFails {
        return Some(LoginFailed);
      }
      storage.SetItem(AdminKey, AdminRecord(adminUser));
      return None;
    }

    /** `signOut`: no admin, and the 'admin' key removed with every other key kept. */
    method SignOut()
      modifies this, storage
      ensures admin == None && loading == old(loading)
      ensures storage.entries == old(storage.entries) - {AdminKey}
    {
      admin := None;
      storage.RemoveItem(AdminKey);
    }
  }

  /**
   * A successful sign-in whose row was stored, followed by a fresh start of
   * the provider on the same storage (a reload), restores exactly the admin
   * the sign-in chose, and loading ends.
   */
  method RestoreAfterSignIn(storage: KeyValueStore, outcome: RpcOutcome, parsed: ParsedText)
    returns (restored: Option<SignedIn>, stillLoading: bool)
    requires Accepted(outcome)
    modifies storage
    ensures restored == Some(Admin(outcome.data.value[0])) && !stillLoading
  {
    var session := new AdminAuthProvider(storage);
    var error := session.SignIn(outcome, false);
    var reloaded := new AdminAuthProvider(storage);
    reloaded.Init(parsed);
    restored := reloaded.admin;
    stillLoading := reloaded.loading;
  }

  /**
   * A sign-in whose `setItem` throws leaves the admin signed in for now, but
   * with nothing stored before, a reload restores no admin.
   */
  method SignInLostOnReload(storage: KeyValueStore, outcome: RpcOutcome, parsed: ParsedText)
    returns (error: Option<string>, signedIn: Option<SignedIn>, restored: Option<SignedIn>)
    requires Accepted(outcome) && AdminKey !in storage.entries
    modifies storage
    ensures error == Some(LoginFailed) && signedIn == Some(Admin(outcome.data.value[0]))
    ensures restored == None
  {
    var session := new AdminAuthProvider(storage);
    error := session.SignIn(outcome, true);
    signedIn := session.admin;
    var reloaded := new AdminAuthProvider(storage);
    reloaded.Init(parsed);
    restored := reloaded.admin;
  }

  /** After a sign-out, a reload restores no admin and loading ends. */
  method RestoreAfterSignOut(storage: KeyValueStore, parsed: ParsedText)
    returns (restored: Option<SignedIn>, stillLoading: bool)
    modifies storage
    ensures restored == None && !stillLoading
  {
    var session := new AdminAuthProvider(storage);
    session.SignOut();
    var reloaded := new AdminAuthProvider(storage);
    reloaded.Init(parsed);
    restored := reloaded.admin;
    stillLoading := reloaded.loading;
  }

  /**
   * Non-empty text under 'admin' that `JSON.parse` rejects makes a reloaded
   * provider's effect throw before loading ends: no admin, still loading.
   */
  method UnparsableTextKeepsLoading(storage: KeyValueStore, text: string)
    returns (restored: Option<SignedIn>, stillLoading: bool)
    requires text != ""
    modifies storage
    ensures restored == None && stillLoading
  {
    storage.SetItem(AdminKey, Text(text));
    var reloaded := new AdminAuthProvider(storage);
    reloaded.Init(ParseThrows);
    restored := reloaded.admin;
    stillLoading := reloaded.loading;
  }

  /**
   * Non-empty text under 'admin' that parses to a truthy value is held as an
   * admin after a reload, so the admin pages let the visitor in.
   */
  method TruthyTextCountsAsAdmin(storage: KeyValueStore, text: string)
    returns (restored: Option<SignedIn>, stillLoading: bool)
    requires text != ""
    modifies storage
    ensures restored == Some(Parsed(Text(text))) && !stillLoading
  {
    storage.SetItem(AdminKey, Text(text));
    var reloaded := new AdminAuthProvider(storage);
    reloaded.Init(ParsedTruthy);
    restored := reloaded.admin;
    stillLoading := reloaded.loading;
  }
}
