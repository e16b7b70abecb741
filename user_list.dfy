/**
 * The user list screen of `pages/usuarios/UserList.jsx`: the initial load and
 * deleting a user by username, after which the list is filtered locally.
 */
module UserListPage {
  import opened Common
  import opened JsValues
  import opened BrowserStorage
  import opened Axios

  const UsersPath: string := "/usuarios/"
  const LoadFailed: string := "Error al cargar los usuarios"
  const DeleteFailed: string := "Error al eliminar el usuario"

  /** `u.username === username`; reading `username` of a missing user throws, so callers rule that out. */
  predicate Matches(u: Value, username: Value)
    requires !Nullish(u)
  {
    StrictEquals(Prop(u, "username").value, username)
  }

  predicate NoneMissing(users: seq<Value>)
  {
    forall i | 0 <= i < |users| :: !Nullish(users[i])
  }

  lemma TailNoneMissing(users: seq<Value>)
    requires users != [] && NoneMissing(users)
    ensures NoneMissing(users[1..])
  {
    forall i | 0 <= i < |users[1..]|
      ensures !Nullish(users[1..][i])
    {
      assert users[1..][i] == users[i + 1];
    }
  }

  /** How many users carry that username. */
  function CountMatches(users: seq<Value>, username: Value): (n: nat)
    requires NoneMissing(users)
    ensures n <= |users|
  {
    if users == [] then 0
    else
      TailNoneMissing(users);
      (if Matches(users[0], username) then 1 else 0) + CountMatches(users[1..], username)
  }

  /** No user matches exactly when the count is zero, and every user does exactly when it is the whole list. */
  lemma {:induction false} CountMatchesExtremes(users: seq<Value>, username: Value)
    requires NoneMissing(users)
    ensures CountMatches(users, username) == 0 <==> forall i | 0 <= i < |users| :: !Matches(users[i], username)
    ensures CountMatches(users, username) == |users| <==> forall i | 0 <= i < |users| :: Matches(users[i], username)
  {
    if users != [] {
      TailNoneMissing(users);
      CountMatchesExtremes(users[1..], username);
      assert forall i | 1 <= i < |users| :: users[i] == users[1..][i - 1];
    }
  }

  /** The users the filter keeps, once every user is known to be present. */
  function Others(users: seq<Value>, username: Value): seq<Value>
    requires NoneMissing(users)
  {
    if users == [] then []
    else
      TailNoneMissing(users);
      var rest := Others(users[1..], username);
      if Matches(users[0], username) then rest else [users[0]] + rest
  }

  /** The kept users are exactly those with another username, and as many as the others. */
  lemma OthersProperties(users: seq<Value>, username: Value)
    requires NoneMissing(users)
    ensures NoneMissing(Others(users, username))
    ensures forall i | 0 <= i < |Others(users, username)| :: !Matches(Others(users, username)[i], username)
    ensures forall u :: u in Others(users, username) <==> u in users && !Matches(u, username)
    ensures |Others(users, username)| == |users| - CountMatches(users, username)
  {
    OthersKept(users, username);
    OthersMembers(users, username);
    OthersCount(users, username);
  }

  lemma {:induction false} OthersKept(users: seq<Value>, username: Value)
    requires NoneMissing(users)
    ensures NoneMissing(Others(users, username))
    ensures forall i | 0 <= i < |Others(users, username)| :: !Matches(Others(users, username)[i], username)
  {
    if users != [] {
      TailNoneMissing(users);
      OthersKept(users[1..], username);
      var rest := Others(users[1..], username);
      if !Matches(users[0], username) {
        var r := [users[0]] + rest;
        assert forall i | 1 <= i < |r| :: r[i] == rest[i - 1];
      }
    }
  }

  lemma {:induction false} OthersMembers(users: seq<Value>, username: Value)
    requires NoneMissing(users)
    ensures forall u :: u in Others(users, username) <==> u in users && !Matches(u, username)
  {
    if users != [] {
      TailNoneMissing(users);
      OthersMembers(users[1..], username);
      assert users == [users[0]] + users[1..];
    }
  }

  lemma {:induction false} OthersCount(users: seq<Value>, username: Value)
    requires NoneMissing(users)
    ensures |Others(users, username)| == |users| - CountMatches(users, username)
  {
    if users != [] {
      TailNoneMissing(users);
      OthersCount(users[1..], username);
    }
  }

  /** Filtering distributes over concatenation, so the kept users stay in their relative order. */
  lemma {:induction false} OthersAppend(a: seq<Value>, b: seq<Value>, username: Value)
    requires NoneMissing(a) && NoneMissing(b)
    ensures NoneMissing(a + b)
    ensures Others(a + b, username) == Others(a, username) + Others(b, username)
  {
    assert NoneMissing(a + b) by {
      forall i | 0 <= i < |a + b|
        ensures !Nullish((a + b)[i])
      {
        if i < |a| { assert (a + b)[i] == a[i]; } else { assert (a + b)[i] == b[i - |a|]; }
      }
    }
    if a == [] {
      assert a + b == b;
    } else {
      TailNoneMissing(a);
      OthersAppend(a[1..], b, username);
      assert (a + b)[0] == a[0];
      assert (a + b)[1..] == a[1..] + b;
    }
  }

  /** A single user is dropped exactly when the username matches. */
  lemma OthersSingle(u: Value, username: Value)
    requires !Nullish(u)
    ensures Others([u], username) == if Matches(u, username) then [] else [u]
  {
    assert [u][1..] == [];
    assert [u] + [] == [u];
  }

  /**
   * `users.filter(u => u.username !== username)`: the walk throws at a
   * missing user; otherwise it keeps exactly the users with another username.
   */
  function KeepOthers(users: seq<Value>, username: Value): (r: Result<seq<Value>, JsError>)
    ensures r.Err? <==> !NoneMissing(users)
    ensures r.Err? ==> r == Err(TypeError)
    ensures r.Ok? ==> NoneMissing(r.value) && forall i | 0 <= i < |r.value| :: !Matches(r.value[i], username)
    ensures r.Ok? ==> forall u :: u in r.value <==> u in users && !Matches(u, username)
    ensures r.Ok? ==> |r.value| == |users| - CountMatches(users, username)
  {
    if NoneMissing(users) then
      OthersProperties(users, username);
      Ok(Others(users, username))
    else Err(TypeError)
  }

  /** What the filter does to the `users` state: only an array has `filter`. */
  function Remaining(users: Value, username: Value): (r: Result<seq<Value>, JsError>)
    ensures users.Arr? ==> r == KeepOthers(users.items, username)
    ensures !users.Arr? ==> r == Err(TypeError)
  {
    if users.Arr? then KeepOthers(users.items, username) else Err(TypeError)
  }

  const DeletePrefix: string := "/usuarios/delete/"

  /** `/usuarios/delete/${username}/`. */
  function DeletePath(username: Value): (p: string)
    ensures StartsWith(p, DeletePrefix) && p[|p| - 1] == '/'
    ensures p[|DeletePrefix|..] == ToString(username) + "/"
  {
    DeletePrefix + ToString(username) + "/"
  }

  /** Two usernames are deleted at the same path exactly when they print alike. */
  lemma DeletePathSelects(a: Value, b: Value)
    ensures DeletePath(a) == DeletePath(b) <==> ToString(a) == ToString(b)
  {
    var pa, pb := DeletePath(a), DeletePath(b);
    if pa == pb {
      var ta := pa[|DeletePrefix|..];
      assert ta == pb[|DeletePrefix|..];
      assert ToString(a) == ta[..|ta| - 1];
    }
  }

  class UserList {
    var users: Value
    var error: string
    const storage: LocalStorage

    constructor(storage: LocalStorage)
      ensures users == Arr([]) && error == "" && this.storage == storage
    {
      users := Arr([]);
      error := "";
      this.storage := storage;
    }

    /** The initial load: a response replaces the list with its body; a failure only sets the error. */
    method Load(reply: Reply) returns (sent: seq<Request>)
      modifies this
      ensures sent == [ApiRequest(Get, UsersPath, Undefined, storage.items)]
      ensures reply.Success? ==> users == reply.data && error == old(error)
      ensures reply.Failure? ==> users == old(users) && error == LoadFailed
    {
      sent := [ApiRequest(Get, UsersPath, Undefined, storage.items)];
      match reply {
        case Success(data) => users := data;
        case Failure(_) => error := LoadFailed;
      }
    }

    /** `handleDelete(username)`: a failed request, or a filter that throws, only sets the error. */
    method HandleDelete(username: Value, reply: Reply) returns (sent: seq<Request>)
      modifies this
      ensures sent == [ApiRequest(Delete, DeletePath(username), Undefined, storage.items)]
      ensures reply.Success? && Remaining(old(users), username).Ok? ==>
        users == Arr(Remaining(old(users), username).value) && error == old(error)
      ensures !(reply.Success? && Remaining(old(users), username).Ok?) ==>
        users == old(users) && error == DeleteFailed
    {
      sent := [ApiRequest(Delete, DeletePath(username), Undefined, storage.items)];
      if reply.Success? {
        var kept := Remaining(users, username);
        match kept {
          case Ok(rest) => users := Arr(rest);
          case Err(_) => error := DeleteFailed;
        }
      } else {
        error := DeleteFailed;
      }
    }
  }

  /** After a successful delete from the initial, freshly loaded list, no user with that name is left. */
  lemma DeletedUserGone(items: seq<Value>, username: Value)
    requires NoneMissing(items)
    ensures Remaining(Arr(items), username).Ok?
    ensures forall u | u in Remaining(Arr(items), username).value :: !Nullish(u) && !Matches(u, username)
  {
  }
}
