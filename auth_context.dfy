/**
 * The client's session cache of src/contexts/AuthContext.tsx: the signed-in user, a
 * loading flag, and the `crm_user` slot of the browser's local storage, which the
 * provider reads once when it mounts and rewrites on every login and logout.
 */
module AuthContext {
  import opened Wrappers
  import opened Text

  /** The front end's `User`: `avatar` is optional. */
  datatype SessionUser = SessionUser(id: string, name: string, email: string, role: string, avatar: Option<string>)

  /** `JSON.stringify` and `JSON.parse` on session users; `parse` gives `None` where it would throw. */
  datatype Json = Json(stringify: SessionUser -> string, parse: string -> Option<SessionUser>)

  /** What the session cache relies on: a stringified user parses back, and is never the empty string. */
  ghost predicate Lawful(json: Json) {
    forall u :: json.parse(json.stringify(u)) == Some(u) && json.stringify(u) != ""
  }

  /** The local-storage key of the cached user. */
  const StorageKey: string := "crm_user"

  const DemoEmail: string := "demo@moderncrm.com"
  const DemoPassword: string := "demo123"

  /** The fixed record the demo credentials sign in as. */
  const DemoUser: SessionUser := SessionUser("1", "Demo User", DemoEmail, "Administrator", Some("D"))

  /**
   * The user `login` signs in: the demo record for the demo credentials, and for every
   * other pair a user named after the part of the email before its first `@`, with the
   * email's upper-cased first character as avatar.  No pair is refused.
   */
  function LoginUser(email: string, password: string): (u: SessionUser)
    ensures email == DemoEmail && password == DemoPassword ==> u == DemoUser
    ensures !(email == DemoEmail && password == DemoPassword) ==>
      u.id == "2" && u.email == email && u.role == "User" && u.avatar == Some(Initial(email))
    ensures !(email == DemoEmail && password == DemoPassword) ==>
      u.name <= email && '@' !in u.name && (|u.name| < |email| ==> email[|u.name|] == '@')
  {
    if email == DemoEmail && password == DemoPassword then DemoUser
    else
      FirstField(email, '@');
      SessionUser("2", Split(email, '@')[0], email, "User", Some(Initial(email)))
  }

  /** An email `w@t` with no `@` in `w` names its guest user `w`. */
  lemma GuestName(w: string, t: string, password: string)
    requires '@' !in w
    requires !(w + "@" + t == DemoEmail && password == DemoPassword)
    ensures LoginUser(w + "@" + t, password).name == w
  {
    SplitAfterWord(w, '@', t);
    assert w + "@" + t == w + ['@'] + t;
  }

  /** The demo email with a wrong password still signs in, as an ordinary user named `demo`. */
  lemma DemoEmailWrongPassword(password: string)
    requires password != DemoPassword
    ensures LoginUser(DemoEmail, password) == SessionUser("2", "demo", DemoEmail, "User", Some("D"))
  {
    assert DemoEmail == "demo" + "@" + "moderncrm.com";
    GuestName("demo", "moderncrm.com", password);
  }

  /** An email without `@` names the user after the whole email. */
  lemma LoginUserWithoutAt(email: string, password: string)
    requires '@' !in email
    ensures LoginUser(email, password).name == email
  {
    SplitWord(email, '@');
  }

  /** The cached value `getItem` returns, when it is truthy (present and non-empty). */
  function Saved(storage: map<string, string>): (r: Option<string>)
    ensures r.Some? <==> StorageKey in storage && storage[StorageKey] != ""
    ensures r.Some? ==> r.value == storage[StorageKey]
  {
    if StorageKey in storage && storage[StorageKey] != "" then Some(storage[StorageKey]) else None
  }

  /** The user the mount effect restores, if any: the parse of a truthy cached value. */
  function Restored(json: Json, storage: map<string, string>): (r: Option<SessionUser>)
    ensures r.Some? ==> Saved(storage).Some? && json.parse(Saved(storage).value) == r
    ensures r.None? <==> Saved(storage).None? || json.parse(Saved(storage).value).None?
  {
    match Saved(storage)
    case None => None
    case Some(text) => json.parse(text)
  }

  /** The storage after the mount effect: a cached value that does not parse is removed. */
  function StorageAfterMount(json: Json, storage: map<string, string>): (m: map<string, string>)
    ensures Saved(storage).Some? && Restored(json, storage).None? ==> m == storage - {StorageKey}
    ensures !(Saved(storage).Some? && Restored(json, storage).None?) ==> m == storage
    ensures m.Keys <= storage.Keys
  {
    if Saved(storage).Some? && Restored(json, storage).None? then storage - {StorageKey} else storage
  }

  /** A user cached by `login` is restored by the next mount, and the storage is kept. */
  lemma RestoreAfterLogin(json: Json, storage: map<string, string>, u: SessionUser)
    requires Lawful(json)
    ensures Restored(json, storage[StorageKey := json.stringify(u)]) == Some(u)
    ensures StorageAfterMount(json, storage[StorageKey := json.stringify(u)]) == storage[StorageKey := json.stringify(u)]
  {
    assert json.parse(json.stringify(u)) == Some(u) && json.stringify(u) != "";
  }

  /** After `logout` the next mount restores nobody and leaves the storage alone. */
  lemma RestoreAfterLogout(json: Json, storage: map<string, string>)
    ensures Restored(json, storage - {StorageKey}) == None
    ensures StorageAfterMount(json, storage - {StorageKey}) == storage - {StorageKey}
  {
  }

  /** Mounting twice cleans the storage no more than mounting once. */
  lemma MountSettles(json: Json, storage: map<string, string>)
    ensures StorageAfterMount(json, StorageAfterMount(json, storage)) == StorageAfterMount(json, storage)
  {
  }

  /** `AuthProvider`: the React state `user` and `isLoading`, and the browser's local storage. */
  class AuthProvider {
    const json: Json
    var user: Option<SessionUser>
    var isLoading: bool
    var storage: map<string, string>

    /** `useState(null)` and `useState(true)`, over whatever the browser already stores. */
    constructor(json: Json, storage: map<string, string>)
      ensures this.json == json && user == None && isLoading && this.storage == storage
    {
      this.json := json;
      user := None;
      isLoading := true;
      this.storage := storage;
    }

    /** `!!user`. */
    function IsAuthenticated(): (r: bool)
      reads this
      ensures r <==> user.Some?
    {
      user.Some?
    }

    /** The mount effect: restore a parsable cached user, drop an unparsable one, stop loading. */
    method Mount()
      modifies this
      ensures !isLoading
      ensures Restored(json, old(storage)).Some? ==> user == Restored(json, old(storage))
      ensures Restored(json, old(storage)).None? ==> user == old(user)
      ensures storage == StorageAfterMount(json, old(storage))
    {
      var saved := Saved(storage);
      if saved.Some? {
        var parsed := json.parse(saved.value);
        if parsed.Some? {
          user := parsed;
        } else {
          storage := storage - {StorageKey};
        }
      }
      isLoading := false;
    }

    /** `login`: always succeeds, signs in `LoginUser(email, password)` and caches it. */
    method Login(email: string, password: string) returns (ok: bool)
      modifies this
      ensures ok && IsAuthenticated()
      ensures user == Some(LoginUser(email, password))
      ensures storage == old(storage)[StorageKey := json.stringify(LoginUser(email, password))]
      ensures isLoading == old(isLoading)
    {
      var u := LoginUser(email, password);
      user := Some(u);
      storage := storage[StorageKey := json.stringify(u)];
      ok := true;
    }

    /** `logout`: sign out and drop the cached user. */
    method Logout()
      modifies this
      ensures !IsAuthenticated()
      ensures user == None && storage == old(storage) - {StorageKey}
      ensures isLoading == old(isLoading)
    {
      user := None;
      storage := storage - {StorageKey};
    }
  }

  /** Logging out a second time changes nothing. */
  method LogoutTwice(p: AuthProvider)
    modifies p
    ensures p.user == None && p.storage == old(p.storage) - {StorageKey}
    ensures p.isLoading == old(p.isLoading)
  {
    p.Logout();
    ghost var once := p.storage;
    p.Logout();
    assert p.storage == once;
  }

  /**
   * Log in, then reload the page: a new provider over the same storage mounts and is
   * signed in as the same user, with nothing removed from storage.
   */
  method LoginThenReload(p: AuthProvider, email: string, password: string) returns (q: AuthProvider)
    requires Lawful(p.json)
    modifies p
    ensures fresh(q)
    ensures q.user == p.user == Some(LoginUser(email, password))
    ensures q.storage == p.storage && !q.isLoading && q.IsAuthenticated()
  {
    var ok := p.Login(email, password);
    q := new AuthProvider(p.json, p.storage);
    RestoreAfterLogin(p.json, old(p.storage), LoginUser(email, password));
    q.Mount();
  }

  /** Log out, then reload: the new provider is signed out. */
  method LogoutThenReload(p: AuthProvider) returns (q: AuthProvider)
    modifies p
    ensures fresh(q)
    ensures q.user == None && !q.IsAuthenticated() && !q.isLoading
    ensures q.storage == p.storage == old(p.storage) - {StorageKey}
  {
    p.Logout();
    q := new AuthProvider(p.json, p.storage);
    RestoreAfterLogout(p.json, old(p.storage));
    q.Mount();
  }
}
