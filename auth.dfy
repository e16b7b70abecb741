/**
 * The session store of `context/AuthContext.jsx`: the provider's state
 * (`loggedIn`, `user`, `checking`) and the three storage keys it owns, with
 * the start-up session check, login and logout.  Each remote call's outcome is
 * a `Reply` parameter, and each method returns the requests it sends.  The
 * logout that a failed session check starts is run to completion before
 * `checking` is cleared.
 */
module AuthContext {
  import opened Common
  import opened JsValues
  import opened Json
  import opened BrowserStorage
  import opened Axios

  const AccessKey: string := "access_token"
  const RefreshKey: string := "refresh_token"
  const UserKey: string := "user"

  /** The keys the session owns. */
  const SessionKeys: set<string> := {AccessKey, RefreshKey, UserKey}

  /** The initial `user`: the stored record parsed when the stored text is truthy, else `null`; a text that is not JSON throws. */
  function InitialUser(items: map<string, Item>): (r: Result<Value, JsError>)
    ensures UserKey !in items ==> r == Ok(Null)
    ensures UserKey in items && items[UserKey].Serialized? && !items[UserKey].v.Undefined? ==> r == Ok(Normalize(items[UserKey].v))
    ensures UserKey in items && items[UserKey] == Text("undefined") ==> r == Err(SyntaxError)
  {
    if Truthy(GetItemValue(items, UserKey)) then ParseItem(items[UserKey]) else Ok(Null)
  }

  /** Storage after `logout`: the session keys are gone and every other key is as it was. */
  function Cleared(items: map<string, Item>): (r: map<string, Item>)
    ensures forall k :: k in r <==> k in items && k !in SessionKeys
    ensures forall k | k in r :: r[k] == items[k]
  {
    items - SessionKeys
  }

  /** Removing the three session keys one by one leaves the same storage as `Cleared`. */
  lemma RemovedOneByOne(items: map<string, Item>)
    ensures items - {AccessKey} - {RefreshKey} - {UserKey} == Cleared(items)
  {
    var m := items - {AccessKey} - {RefreshKey} - {UserKey};
    assert m.Keys == Cleared(items).Keys;
  }

  /** Storage after a successful `login`: the two tokens as text and the user record as JSON. */
  function LoggedInStorage(items: map<string, Item>, access: Value, refresh: Value, userData: Value): (r: map<string, Item>)
    ensures r.Keys == items.Keys + SessionKeys
    ensures r[AccessKey] == StoredString(access) && r[RefreshKey] == StoredString(refresh) && r[UserKey] == StoredJson(userData)
    ensures forall k | k in items && k !in SessionKeys :: r[k] == items[k]
  {
    items[AccessKey := StoredString(access)][RefreshKey := StoredString(refresh)][UserKey := StoredJson(userData)]
  }

  /** `{ username: data.username, id: data.id, ...data }`, for a `data` whose properties can be read. */
  function SessionUser(data: Value): (r: Value)
    requires !Nullish(data)
    ensures r.Obj? && |r.entries| >= 2 && r.entries[0].0 == "username" && r.entries[1].0 == "id"
  {
    var base := [("username", Prop(data, "username").value), ("id", Prop(data, "id").value)];
    SpreadKeys(base, OwnEntries(data));
    Obj(SpreadInto(base, OwnEntries(data)))
  }

  /** Spreading keeps the keys already present at the front, in their places. */
  lemma {:induction false} SpreadKeys(t: seq<(string, Value)>, src: seq<(string, Value)>)
    ensures |SpreadInto(t, src)| >= |t|
    ensures forall i | 0 <= i < |t| :: SpreadInto(t, src)[i].0 == t[i].0
  {
    if src != [] {
      var n := |src| - 1;
      SpreadKeys(t, src[..n]);
      var mid := SpreadInto(t, src[..n]);
      var r := Assign(mid, src[n].0, src[n].1);
      if HasKey(mid, src[n].0) {
        assert Keys(r) == Keys(mid);
        forall i | 0 <= i < |t| ensures r[i].0 == t[i].0 {
          assert Keys(r)[i] == Keys(mid)[i];
        }
      }
    }
  }

  /** The session user of an object response has exactly the response's properties: username and id first, then the rest. */
  lemma SessionUserProperties(data: Value, k: string)
    requires data.Obj?
    ensures Prop(SessionUser(data), k) == Prop(data, k)
    ensures HasKey(SessionUser(data).entries, k) <==> k == "username" || k == "id" || HasKey(data.entries, k)
  {
    var base := [("username", Prop(data, "username").value), ("id", Prop(data, "id").value)];
    LookupSpread(base, OwnEntries(data), k);
    HasKeySpread(base, OwnEntries(data), k);
    OwnEntriesFaithful(data.entries, k);
    PairEntries("username", Prop(data, "username").value, "id", Prop(data, "id").value, k);
  }

  /**
   * Listed (as `JSON.stringify` does when the record is stored), the session
   * user of a response without array-index keys starts with `username` and `id`.
   */
  lemma SessionUserOrder(data: Value)
    requires data.Obj? && NoIndexKeys(data.entries)
    ensures var es := OwnEntries(SessionUser(data)); |es| >= 2 && es[0].0 == "username" && es[1].0 == "id"
  {
    var base := [("username", Prop(data, "username").value), ("id", Prop(data, "id").value)];
    var own := OwnEntries(data);
    var r := SessionUser(data).entries;
    assert DistinctKeys(base);
    OwnEntriesFaithful(data.entries, "");
    SpreadKeepsDistinct(base, own);
    CanonicalOfDistinct(r);
    NotArrayIndex("username");
    NotArrayIndex("id");
    forall i | 0 <= i < |r|
      ensures !IsArrayIndex(r[i].0)
    {
      var k := r[i].0;
      HasKeySpread(base, own, k);
      OwnEntriesFaithful(data.entries, k);
      PairEntries("username", Prop(data, "username").value, "id", Prop(data, "id").value, k);
      if HasKey(data.entries, k) {
        var j :| 0 <= j < |data.entries| && data.entries[j].0 == k;
      }
    }
    EnumerationOfNamed(r);
  }

  /** Reading a two-entry object. */
  lemma PairEntries(a: string, va: Value, b: string, vb: Value, k: string)
    ensures Lookup([(a, va), (b, vb)], k) == if k == b then vb else if k == a then va else Undefined
    ensures HasKey([(a, va), (b, vb)], k) <==> k == a || k == b
  {
    var es := [(a, va), (b, vb)];
    assert es[..1] == [(a, va)] && es[..1][..0] == [];
    assert es[0].0 == a && es[1].0 == b;
  }

  /** What the session check concludes. */
  datatype SessionCheck = NoToken | Authenticated(user: Value) | Rejected

  /** The conclusion of `checkSession` from the stored token and the reply to `GET /auth/session/`. */
  function CheckOutcome(items: map<string, Item>, reply: Reply): (c: SessionCheck)
    ensures c.NoToken? <==> TokenOf(items).None?
    ensures c.Authenticated? <==>
      TokenOf(items).Some? && reply.Success? && !Nullish(reply.data) && Truthy(Prop(reply.data, "authenticated").value)
    ensures c.Authenticated? ==> c.user == SessionUser(reply.data)
  {
    if !Truthy(GetItemValue(items, AccessKey)) then NoToken
    else match reply
      case Failure(_) => Rejected
      case Success(data) =>
        match Prop(data, "authenticated")
        case Err(_) => Rejected
        case Ok(authenticated) => if Truthy(authenticated) then Authenticated(SessionUser(data)) else Rejected
  }

  /** The three values `const { access, refresh, user } = res.data` reads; destructuring `null` or `undefined` throws. */
  function LoginFields(data: Value): (r: Result<(Value, Value, Value), JsError>)
    ensures r.Err? <==> Nullish(data)
    ensures data.Obj? ==> r == Ok((Lookup(data.entries, "access"), Lookup(data.entries, "refresh"), Lookup(data.entries, "user")))
  {
    if Nullish(data) then Err(TypeError)
    else Ok((Prop(data, "access").value, Prop(data, "refresh").value, Prop(data, "user").value))
  }

  /** Why `login` rejects: the request failed, or its response could not be destructured. */
  datatype LoginError = RequestFailed(error: HttpError) | BadPayload(thrown: JsError)

  class AuthProvider {
    var loggedIn: bool
    var user: Value
    var checking: bool
    const storage: LocalStorage

    /** The provider's first render, given the user it read from storage. */
    constructor(storage: LocalStorage, initialUser: Value)
      ensures this.storage == storage && !loggedIn && checking && user == initialUser
    {
      this.storage := storage;
      loggedIn := false;
      user := initialUser;
      checking := true;
    }

    /** Mounting the provider: the initial user comes from storage, and a stored text that is not JSON makes mounting throw. */
    static method Mount(storage: LocalStorage) returns (r: Result<AuthProvider, JsError>)
      ensures r.Err? <==> InitialUser(storage.items).Err?
      ensures r.Ok? ==>
        fresh(r.value) && r.value.storage == storage && !r.value.loggedIn && r.value.checking && r.value.user == InitialUser(storage.items).value
    {
      var saved := storage.GetItem(UserKey);
      if Truthy(saved) {
        var parsed := ParseItem(storage.items[UserKey]);
        if parsed.Err? {
          return Err(parsed.error);
        }
        var provider := new AuthProvider(storage, parsed.value);
        return Ok(provider);
      }
      var provider := new AuthProvider(storage, Null);
      return Ok(provider);
    }

    /** `logout()`: tells the server, then clears the session whether or not that request failed. */
    method Logout(reply: Reply) returns (sent: seq<Request>)
      modifies this, storage
      ensures sent == [ApiRequest(Post, "/auth/logout/", Undefined, old(storage.items))]
      ensures storage.items == Cleared(old(storage.items))
      ensures user == Null && !loggedIn && checking == old(checking)
    {
      sent := [ApiRequest(Post, "/auth/logout/", Undefined, storage.items)];
      RemovedOneByOne(storage.items);
      // The reply is not looked at: a failure is only logged.
      storage.RemoveItem(AccessKey);
      storage.RemoveItem(RefreshKey);
      storage.RemoveItem(UserKey);
      user := Null;
      loggedIn := false;
    }

    /** `checkSession()`, run once at start-up. */
    method CheckSession(sessionReply: Reply, logoutReply: Reply) returns (sent: seq<Request>)
      modifies this, storage
      ensures !checking
      ensures var c := CheckOutcome(old(storage.items), sessionReply);
        && (c.NoToken? ==> sent == [] && storage.items == old(storage.items) && !loggedIn && user == old(user))
        && (c.Authenticated? ==>
              sent == [ApiRequest(Get, "/auth/session/", Undefined, old(storage.items))]
              && storage.items == old(storage.items) && loggedIn && user == c.user)
        && (c.Rejected? ==>
              sent == [ApiRequest(Get, "/auth/session/", Undefined, old(storage.items)),
                       ApiRequest(Post, "/auth/logout/", Undefined, old(storage.items))]
              && storage.items == Cleared(old(storage.items)) && !loggedIn && user == Null)
    {
      var token := storage.GetItem(AccessKey);
      if !Truthy(token) {
        loggedIn := false;
        checking := false;
        return [];
      }
      sent := [ApiRequest(Get, "/auth/session/", Undefined, storage.items)];
      var authenticated := false;
      if sessionReply.Success? {
        var data := sessionReply.data;
        var flag := Prop(data, "authenticated");
        if flag.Ok? && Truthy(flag.value) {
          user := SessionUser(data);
          loggedIn := true;
          authenticated := true;
        }
      }
      if !authenticated {
        var more := Logout(logoutReply);
        sent := sent + more;
      }
      checking := false;
    }

    /** `login(username, password)`: writes the session only after the request succeeds; failures propagate to the caller. */
    method Login(username: Value, password: Value, reply: Reply) returns (outcome: Result<(), LoginError>, sent: seq<Request>)
      modifies this, storage
      ensures sent == [ApiRequest(Post, "/auth/login/", Obj([("username", username), ("password", password)]), old(storage.items))]
      ensures reply.Failure? ==> outcome == Err(RequestFailed(reply.error))
      ensures reply.Success? && Nullish(reply.data) ==> outcome == Err(BadPayload(TypeError))
      ensures outcome.Err? ==> storage.items == old(storage.items) && user == old(user) && loggedIn == old(loggedIn)
      ensures outcome.Ok? <==> reply.Success? && LoginFields(reply.data).Ok?
      ensures outcome.Ok? ==>
        var (access, refresh, userData) := LoginFields(reply.data).value;
        storage.items == LoggedInStorage(old(storage.items), access, refresh, userData) && user == userData && loggedIn
      ensures checking == old(checking)
    {
      sent := [ApiRequest(Post, "/auth/login/", Obj([("username", username), ("password", password)]), storage.items)];
      if reply.Failure? {
        return Err(RequestFailed(reply.error)), sent;
      }
      var fields := LoginFields(reply.data);
      if fields.Err? {
        return Err(BadPayload(fields.error)), sent;
      }
      var (access, refresh, userData) := fields.value;
      storage.SetItem(AccessKey, StoredString(access));
      storage.SetItem(RefreshKey, StoredString(refresh));
      storage.SetItem(UserKey, StoredJson(userData));
      user := userData;
      loggedIn := true;
      outcome := Ok(());
    }
  }

  // ---------------------------------------------------------------------------
  // Properties of the session transitions

  /** After logout no token is stored, so the interceptor adds no header, and a reload starts with no user. */
  lemma LogoutRevokesHeader(items: map<string, Item>)
    ensures TokenOf(Cleared(items)).None?
    ensures AuthorizationFor(Cleared(items)).None?
    ensures InitialUser(Cleared(items)) == Ok(Null)
    ensures CheckOutcome(Cleared(items), Failure(NoResponse)).NoToken?
  {
    assert AccessKey !in Cleared(items) && UserKey !in Cleared(items);
  }

  /** Logging out after a login leaves every other key as it was before the login. */
  lemma LoginThenLogout(items: map<string, Item>, access: Value, refresh: Value, userData: Value)
    ensures Cleared(LoggedInStorage(items, access, refresh, userData)) == Cleared(items)
  {
    var after := Cleared(LoggedInStorage(items, access, refresh, userData));
    assert after.Keys == Cleared(items).Keys;
  }

  /** After login, requests carry the stored access token, written as text (`undefined` when the response had none). */
  lemma LoginSetsHeader(items: map<string, Item>, access: Value, refresh: Value, userData: Value)
    ensures var after := LoggedInStorage(items, access, refresh, userData);
      TokenOf(after) == (if ToString(access) == "" then None else Some(ToString(access)))
      && (ToString(access) != "" ==> AuthorizationFor(after) == Some("Bearer " + ToString(access)))
  {
  }

  /** Reloading after login restores the user record as JSON keeps it; JSON data comes back unchanged. */
  lemma LoginThenReload(items: map<string, Item>, access: Value, refresh: Value, userData: Value)
    ensures var after := LoggedInStorage(items, access, refresh, userData);
      && (userData.Undefined? ==> InitialUser(after) == Err(SyntaxError))
      && (!userData.Undefined? ==> InitialUser(after) == Ok(Normalize(userData)))
      && (IsJson(userData) ==> InitialUser(after) == Ok(userData))
  {
    var after := LoggedInStorage(items, access, refresh, userData);
    ParseStoredJson(userData);
    StoredTruthy(after, UserKey);
  }
}
