/**
 * The user controller: registration with unique emails and a default role,
 * login, shallow-merge updates of `profile` and `settings`, and the exclusion
 * of the requester from user listings. The collection is kept in insertion
 * order, which is the order `findOne` scans.
 */
module Users {
  import opened Common

  type UserId = string

  /** A stored user. `password` is what the hashing hook receives; comparing against it is the `matches` parameter of login. */
  datatype User = User(
    id: UserId,
    name: string,
    email: string,
    password: string,
    role: string,
    profile: map<string, Blob>,
    settings: map<string, Blob>)

  /** The user fields a login or registration answers with (the token is left out). */
  datatype Account = Account(id: UserId, name: string, email: string, role: string)

  /** The answer to a successful registration: the status code and the new user's fields. */
  datatype Registered = Registered(status: int, account: Account)

  datatype RegisterBody = RegisterBody(name: string, email: string, password: string, role: Option<string>)

  /** The field a lookup matches on. */
  datatype Field = ById | ByEmail

  function Key(u: User, f: Field): string
  {
    match f
    case ById => u.id
    case ByEmail => u.email
  }

  /** The first user whose field `f` equals `v` (`findOne` / `findById`). */
  function Find(users: seq<User>, f: Field, v: string): (r: Option<nat>)
    ensures r.None? <==> forall i :: 0 <= i < |users| ==> Key(users[i], f) != v
    ensures r.Some? ==> r.value < |users| && Key(users[r.value], f) == v
    ensures r.Some? ==> forall j :: 0 <= j < r.value ==> Key(users[j], f) != v
    decreases |users|
  {
    if users == [] then None
    else if Key(users[0], f) == v then Some(0)
    else
      match Find(users[1..], f, v)
      case None => None
      case Some(k) => Some(k + 1)
  }

  /** No value of field `f` occurs twice. */
  predicate UniqueKeys(users: seq<User>, f: Field)
  {
    forall i, j :: 0 <= i < j < |users| ==> Key(users[i], f) != Key(users[j], f)
  }

  /** `role || 'student'`. */
  function DefaultRole(role: Option<string>): (r: string)
    ensures Truthy(role) ==> r == role.value
    ensures !Truthy(role) ==> r == "student"
    ensures r != ""
  {
    if Truthy(role) then role.value else "student"
  }

  function AccountOf(u: User): Account
  {
    Account(u.id, u.name, u.email, u.role)
  }

  /** `{ ...base, ...patch }`: the patch's keys take its values, every other key keeps the old one. */
  function Overlay(base: map<string, Blob>, patch: map<string, Blob>): (r: map<string, Blob>)
    ensures r.Keys == base.Keys + patch.Keys
    ensures forall k :: k in patch ==> r[k] == patch[k]
    ensures forall k :: k in base && k !in patch ==> r[k] == base[k]
  {
    base + patch
  }

  /** Sending the same patch twice has the effect of sending it once. */
  lemma OverlayIdempotent(base: map<string, Blob>, patch: map<string, Blob>)
    ensures Overlay(Overlay(base, patch), patch) == Overlay(base, patch)
  {
  }

  /** The update applied when the body carries an object: none leaves the map as it was. */
  function Merged(old_: map<string, Blob>, patch: Option<map<string, Blob>>): (r: map<string, Blob>)
    ensures patch.None? ==> r == old_
    ensures patch.Some? ==> r == Overlay(old_, patch.value)
  {
    if patch.Some? then Overlay(old_, patch.value) else old_
  }

  /** The users other than the requester, in order (`{ _id: { $ne: req.user._id } }`). */
  function OtherUsers(users: seq<User>, requester: UserId): (r: seq<User>)
    ensures |r| <= |users|
    ensures forall u :: u in r <==> u in users && u.id != requester
    ensures forall i :: 0 <= i < |r| ==> r[i].id != requester
    decreases |users|
  {
    if users == [] then []
    else
      var rest := OtherUsers(users[1..], requester);
      assert forall u :: u in users <==> u == users[0] || u in users[1..];
      if users[0].id == requester then rest else [users[0]] + rest
  }

  class UserTable {
    var users: seq<User>

    ghost predicate Valid()
      reads this
    {
      UniqueKeys(users, ById) && UniqueKeys(users, ByEmail)
    }

    constructor ()
      ensures Valid() && users == []
    {
      users := [];
    }

    /** `registerUser` with `freshId` standing for the id the store assigns. */
    method RegisterUser(body: RegisterBody, freshId: UserId) returns (r: Result<Registered, HttpError>)
      requires Valid() && Find(users, ById, freshId).None?
      modifies this
      ensures Valid()
      ensures Find(old(users), ByEmail, body.email).Some? ==>
                r == Err(HttpError(400, "User already exists")) && users == old(users)
      ensures Find(old(users), ByEmail, body.email).None? ==>
                var u := User(freshId, body.name, body.email, body.password, DefaultRole(body.role), map[], map[]);
                users == old(users) + [u] && r == Ok(Registered(201, AccountOf(u)))
    {
      if Find(users, ByEmail, body.email).Some? {
        r := Err(HttpError(400, "User already exists"));
        return;
      }
      var u := User(freshId, body.name, body.email, body.password, DefaultRole(body.role), map[], map[]);
      users := users + [u];
      r := Ok(Registered(201, AccountOf(u)));
    }

    /** `authUser`: succeeds exactly when a user has the email and the password matches. */
    method AuthUser(email: string, password: string, matches: (string, string) -> bool) returns (r: Result<Account, HttpError>)
      requires Valid()
      ensures r.Ok? <==> exists i :: 0 <= i < |users| && users[i].email == email && matches(password, users[i].password)
      ensures r.Ok? ==> exists i :: 0 <= i < |users| && users[i].email == email && r.value == AccountOf(users[i])
      ensures r.Err? ==> r.error == HttpError(401, "Invalid email or password")
    {
      var found := Find(users, ByEmail, email);
      if found.Some? && matches(password, users[found.value].password) {
        r := Ok(AccountOf(users[found.value]));
      } else {
        r := Err(HttpError(401, "Invalid email or password"));
      }
    }

    /** `updateProfile`: 404 for an unknown requester; otherwise merge `body.profile` into the stored profile. */
    method UpdateProfile(requester: UserId, profile: Option<map<string, Blob>>) returns (r: Result<User, HttpError>)
      requires Valid()
      modifies this
      ensures Valid()
      ensures Find(old(users), ById, requester).None? ==>
                r == Err(HttpError(404, "User not found")) && users == old(users)
      ensures Find(old(users), ById, requester).Some? ==>
                var i := Find(old(users), ById, requester).value;
                && r == Ok(old(users)[i].(profile := Merged(old(users)[i].profile, profile)))
                && users == old(users)[i := r.value]
    {
      var found := Find(users, ById, requester);
      if found.None? {
        r := Err(HttpError(404, "User not found"));
        return;
      }
      var i := found.value;
      var u := users[i].(profile := Merged(users[i].profile, profile));
      users := users[i := u];
      r := Ok(u);
    }

    /** `updateSettings`: the same merge, applied to `settings`. */
    method UpdateSettings(requester: UserId, settings: Option<map<string, Blob>>) returns (r: Result<User, HttpError>)
      requires Valid()
      modifies this
      ensures Valid()
      ensures Find(old(users), ById, requester).None? ==>
                r == Err(HttpError(404, "User not found")) && users == old(users)
      ensures Find(old(users), ById, requester).Some? ==>
                var i := Find(old(users), ById, requester).value;
                && r == Ok(old(users)[i].(settings := Merged(old(users)[i].settings, settings)))
                && users == old(users)[i := r.value]
    {
      var found := Find(users, ById, requester);
      if found.None? {
        r := Err(HttpError(404, "User not found"));
        return;
      }
      var i := found.value;
      var u := users[i].(settings := Merged(users[i].settings, settings));
      users := users[i := u];
      r := Ok(u);
    }

    /** `allUsers`, keyword aside: every stored user except the requester. */
    function AllUsers(requester: UserId): (r: seq<User>)
      reads this
      ensures forall u :: u in r ==> u.id != requester
    {
      OtherUsers(users, requester)
    }
  }
}
