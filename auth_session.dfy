/** The client-side session provider: the current tier, a loading flag, and the
    tier remembered under one key of the browser's local storage. */
module AuthSession {
  import opened Wrappers
  import opened Levels
  import AuthRoute

  /** The local storage key that holds the remembered tier. */
  const AuthKey: string := "authLevel"

  function Lookup(entries: map<string, string>, key: string): (v: Option<string>)
    ensures v.Some? <==> key in entries
    ensures v.Some? ==> v.value == entries[key]
  {
    if key in entries then Some(entries[key]) else None
  }

  /** The mount check: only exactly `'user'` or `'admin'` is taken from storage. */
  function ParseStored(stored: Option<string>): (r: Option<AuthLevel>)
    ensures r == Some(User) <==> stored == Some("user")
    ensures r == Some(Admin) <==> stored == Some("admin")
    ensures r == None <==> stored != Some("user") && stored != Some("admin")
  {
    if stored == Some("user") then Some(User)
    else if stored == Some("admin") then Some(Admin)
    else None
  }

  /** The tier a freshly loaded provider settles on after its mount step. */
  function ReloadLevel(entries: map<string, string>): (level: AuthLevel)
    ensures level != NoAuth <==> AuthKey in entries && (entries[AuthKey] == "user" || entries[AuthKey] == "admin")
    ensures level != NoAuth ==> Name(level) == entries[AuthKey]
  {
    match ParseStored(Lookup(entries, AuthKey))
    case Some(l) => l
    case None => NoAuth
  }

  /** A tier written by a login is the tier the next page load restores. */
  lemma ReloadAfterLogin(entries: map<string, string>, level: AuthLevel)
    ensures ReloadLevel(entries[AuthKey := Name(level)]) == level
  {
    var e := entries[AuthKey := Name(level)];
    assert Lookup(e, AuthKey) == Some(Name(level));
  }

  /** After the key is removed the next page load restores no tier. */
  lemma ReloadAfterLogout(entries: map<string, string>)
    ensures ReloadLevel(entries - {AuthKey}) == NoAuth
  {
    assert AuthKey !in entries - {AuthKey};
  }

  /** How the call to the login endpoint ended: an ok response carrying a tier,
      a response that was not ok, or an exception (network, JSON). */
  datatype LoginOutcome = Accepted(level: AuthLevel) | Rejected | Failed

  /** What the client sees of the endpoint's answer: only 200 is ok. */
  function OutcomeOf(r: AuthRoute.AuthResponse): (o: LoginOutcome)
    ensures o.Accepted? <==> AuthRoute.StatusCode(r) == 200
    ensures o.Accepted? ==> o.level == r.level
    ensures !o.Accepted? ==> o == Rejected
  {
    if r.Granted? then Accepted(r.level) else Rejected
  }

  /** Going through the real endpoint, a login never stores the tier `'none'`. */
  lemma EndpointNeverGrantsNone(password: AuthRoute.PasswordField, userSecret: Option<string>, adminSecret: Option<string>)
    ensures var o := OutcomeOf(AuthRoute.Authenticate(password, userSecret, adminSecret));
      o.Accepted? ==> o.level == User || o.level == Admin
  {
  }

  /** The browser's local storage, shared by every page load of one profile. */
  class LocalStorage {
    var entries: map<string, string>

    constructor (entries: map<string, string>)
      ensures this.entries == entries
    {
      this.entries := entries;
    }
  }

  /** `AuthProvider`'s state. */
  class AuthProvider {
    var authLevel: AuthLevel
    var isLoading: bool
    const storage: LocalStorage

    /** The tier in memory is the one a reload would restore. */
    ghost predicate Synced()
      reads this, storage
    {
      authLevel == ReloadLevel(storage.entries)
    }

    /** First render: no tier yet, loading. */
    constructor (storage: LocalStorage)
      ensures this.storage == storage
      ensures authLevel == NoAuth && isLoading
    {
      this.storage := storage;
      authLevel := NoAuth;
      isLoading := true;
    }

    /** The mount effect: adopt a stored `'user'` or `'admin'`, then stop loading. */
    method Mount()
      modifies this
      ensures !isLoading
      ensures var stored := ParseStored(Lookup(storage.entries, AuthKey));
        authLevel == if stored.Some? then stored.value else old(authLevel)
      ensures old(authLevel) == NoAuth ==> Synced()
      ensures old(Synced()) ==> Synced()
    {
      var stored := Lookup(storage.entries, AuthKey);
      if stored == Some("user") || stored == Some("admin") {
        authLevel := if stored == Some("user") then User else Admin;
      }
      isLoading := false;
    }

    /** `login`, with the endpoint's answer given as `outcome`. */
    method Login(outcome: LoginOutcome) returns (ok: bool)
      modifies this, storage
      ensures ok <==> outcome.Accepted?
      ensures isLoading == old(isLoading)
      ensures ok ==> authLevel == outcome.level && storage.entries == old(storage.entries)[AuthKey := Name(outcome.level)]
      ensures !ok ==> authLevel == old(authLevel) && storage.entries == old(storage.entries)
      ensures ok ==> Synced()
      ensures old(Synced()) ==> Synced()
    {
      match outcome
      case Accepted(level) =>
        authLevel := level;
        storage.entries := storage.entries[AuthKey := Name(level)];
        ReloadAfterLogin(old(storage.entries), level);
        ok := true;
      case Rejected =>
        ok := false;
      case Failed =>
        ok := false;
    }

    /** `logout`: drop the tier and the stored key. */
    method Logout()
      modifies this, storage
      ensures isLoading == old(isLoading)
      ensures authLevel == NoAuth && storage.entries == old(storage.entries) - {AuthKey}
      ensures Synced()
    {
      authLevel := NoAuth;
      storage.entries := storage.entries - {AuthKey};
      ReloadAfterLogout(old(storage.entries));
    }
  }

  /** One page load that logs in, then a reload on the same storage. */
  method LoginThenReload(storage: LocalStorage, outcome: LoginOutcome) returns (ok: bool, restored: AuthLevel)
    modifies storage
    ensures ok <==> outcome.Accepted?
    ensures ok ==> restored == outcome.level
    ensures !ok ==> restored == ReloadLevel(old(storage.entries))
  {
    var page := new AuthProvider(storage);
    page.Mount();
    ok := page.Login(outcome);
    var reloaded := new AuthProvider(storage);
    reloaded.Mount();
    restored := reloaded.authLevel;
  }

  /** One page load that logs out, then a reload on the same storage. */
  method LogoutThenReload(storage: LocalStorage) returns (restored: AuthLevel)
    modifies storage
    ensures restored == NoAuth
  {
    var page := new AuthProvider(storage);
    page.Mount();
    page.Logout();
    var reloaded := new AuthProvider(storage);
    reloaded.Mount();
    restored := reloaded.authLevel;
  }
}
