/**
 * The signed-in session (src/contexts/AuthContext.tsx): the provider keeps
 * the token and the user in its state and mirrors the session in local
 * storage under four keys, so that a reload starts from what was stored.
 */
module Auth {
  import opened Wrappers
  import opened Js
  import Storage

  /** The storage keys a session occupies. */
  const SessionKeys: set<string> := {"token", "refreshToken", "user", "server"}

  /** The provider's state. */
  datatype Session = Session(token: JsValue, user: JsValue)

  /** The state in effect and the storage contents. */
  datatype World = World(session: Session, items: map<string, JsValue>)

  /** The state a provider starts with: what storage holds. */
  function Initial(items: map<string, JsValue>): (s: Session)
    ensures "token" !in items ==> !IsAuthenticated(s)
    ensures "token" in items ==> s.token == items["token"]
    ensures "user" in items ==> s.user == items["user"]
  {
    Session(Storage.Lookup(items, "token"), Storage.Lookup(items, "user"))
  }

  /** `isAuthenticated` */
  predicate IsAuthenticated(s: Session) {
    Truthy(s.token)
  }

  /** `login(token, refreshToken, user, server)` */
  function AfterLogin(w: World, token: string, refreshToken: string, user: JsValue, server: string): (r: World)
    ensures r.session == Session(Str(token), user)
    ensures token != "" ==> IsAuthenticated(r.session)
    // the four session keys are stored, and nothing else changes
    ensures r.items.Keys == w.items.Keys + SessionKeys
    ensures r.items["token"] == Str(token) && r.items["refreshToken"] == Str(refreshToken)
    ensures r.items["user"] == user && r.items["server"] == Str(server)
    ensures forall k :: k in w.items && k !in SessionKeys ==> r.items[k] == w.items[k]
  {
    World(Session(Str(token), user),
          w.items["token" := Str(token)]["refreshToken" := Str(refreshToken)]["user" := user]["server" := Str(server)])
  }

  /** `logout()` */
  function AfterLogout(w: World): (r: World)
    ensures !IsAuthenticated(r.session) && r.session.user == Null
    // exactly the four session keys are removed
    ensures r.items.Keys == w.items.Keys - SessionKeys
    ensures forall k :: k in r.items ==> r.items[k] == w.items[k]
  {
    World(Session(Null, Null), w.items - {"token"} - {"refreshToken"} - {"user"} - {"server"})
  }

  /** `useAuth()`: the provider's value, or the error it throws outside a provider. */
  function UseAuth(context: Option<Session>): (r: Result<Session, string>)
    ensures context.None? <==> r.Failure?
    ensures context.Some? ==> r == Success(context.value)
  {
    match context
    case None => Failure("useAuth must be used within an AuthProvider")
    case Some(s) => Success(s)
  }

  // ---------------------------------------------------------------------------
  // Lemmas

  /** A reload after login starts from the session that was logged in. */
  lemma ReloadKeepsLogin(w: World, token: string, refreshToken: string, user: JsValue, server: string)
    ensures var r := AfterLogin(w, token, refreshToken, user, server);
      Initial(r.items) == r.session
  {
  }

  /** After logout, neither the state nor a reload is signed in. */
  lemma LogoutSignsOut(w: World)
    ensures !IsAuthenticated(AfterLogout(w).session)
    ensures !IsAuthenticated(Initial(AfterLogout(w).items))
  {
    assert "token" !in AfterLogout(w).items;
  }

  /** Logging in and then out leaves storage as it was, without the session keys. */
  lemma LoginThenLogout(w: World, token: string, refreshToken: string, user: JsValue, server: string)
    ensures AfterLogout(AfterLogin(w, token, refreshToken, user, server)).items == w.items - SessionKeys
  {
    var r := AfterLogout(AfterLogin(w, token, refreshToken, user, server)).items;
    assert r.Keys == (w.items - SessionKeys).Keys;
  }

  /** Logout leaves the cached device list in storage: `devices` is not one
    * of the keys it removes. */
  lemma LogoutKeepsDeviceCache(w: World)
    requires "devices" in w.items
    ensures "devices" in AfterLogout(w).items && AfterLogout(w).items["devices"] == w.items["devices"]
  {
  }

  // ---------------------------------------------------------------------------
  // The provider

  class AuthProvider {
    var token: JsValue
    var user: JsValue
    const storage: Storage.LocalStorage

    function Current(): World
      reads this, storage
    {
      World(Session(token, user), storage.items)
    }

    constructor (storage: Storage.LocalStorage)
      ensures this.storage == storage
      ensures Current() == World(Initial(storage.items), storage.items)
    {
      this.storage := storage;
      token := storage.Get("token");
      user := storage.Get("user");
    }

    method Login(newToken: string, newRefreshToken: string, newUser: JsValue, server: string)
      modifies this, storage
      ensures Current() == AfterLogin(old(Current()), newToken, newRefreshToken, newUser, server)
    {
      token := Str(newToken);
      user := newUser;
      storage.Set("token", Str(newToken));
      storage.Set("refreshToken", Str(newRefreshToken));
      storage.Set("user", newUser);
      storage.Set("server", Str(server));
    }

    method Logout()
      modifies this, storage
      ensures Current() == AfterLogout(old(Current()))
    {
      token := Null;
      user := Null;
      storage.Remove("token");
      storage.Remove("refreshToken");
      storage.Remove("user");
      storage.Remove("server");
    }
  }
}
