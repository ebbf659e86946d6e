/**
 * The in-memory user store: registration with a duplicate-email check, login
 * by email and password, and lookup by API key.
 *
 * Password hashing and checking, uuid generation and the clock are
 * parameters: `hash`, `verify`, the fresh ids and `now`.
 */
module Auth {
  import opened Wrappers

  /** A UTC instant, as the clock reports it. */
  type Timestamp = int

  /** The registration request: `UserCreate`. */
  datatype UserCreate = UserCreate(email: string, username: string, password: string)

  /** The stored user record: `UserInDB`. */
  datatype User = User(
    id: string,
    email: string,
    username: string,
    hashedPassword: string,
    apiKey: string,
    isActive: bool,
    usageCount: int,
    createdAt: Timestamp,
    lastLogin: Option<Timestamp>)

  const EmailAlreadyRegistered := "Email already registered"

  /** The prefix of every issued API key. */
  const ApiKeyPrefix := "sk-"

  /** Which field a scan of the users compares. */
  datatype Lookup = ByEmail | ByApiKey

  function FieldOf(u: User, field: Lookup): string {
    match field
    case ByEmail => u.email
    case ByApiKey => u.apiKey
  }

  /** `next(u for u in users_db.values() if ...)` from position `i` of the
      insertion order: the first position whose user matches, or None. */
  function FindFrom(users: map<string, User>, order: seq<string>, field: Lookup, value: string, i: nat)
    : (r: Option<nat>)
    requires forall k | k in order :: k in users
    requires i <= |order|
    ensures r.Some? ==> i <= r.value < |order| && FieldOf(users[order[r.value]], field) == value
    ensures r.Some? ==> forall j | i <= j < r.value :: FieldOf(users[order[j]], field) != value
    ensures r.None? ==> forall j | i <= j < |order| :: FieldOf(users[order[j]], field) != value
    decreases |order| - i
  {
    if i == |order| then None
    else if FieldOf(users[order[i]], field) == value then Some(i)
    else FindFrom(users, order, field, value, i + 1)
  }

  /** The store's invariant on its two parts: `order` lists each stored id
      once, each record sits under its own id, and no two users share an email. */
  ghost predicate Consistent(users: map<string, User>, order: seq<string>) {
    && (forall k | k in order :: k in users)
    && (forall k | k in users :: k in order)
    && (forall i, j | 0 <= i < j < |order| :: order[i] != order[j])
    && (forall k | k in users :: users[k].id == k)
    && (forall a, b | a in users && b in users && a != b :: users[a].email != users[b].email)
  }

  /** A scan that finds no match means no stored user matches. */
  lemma NoMatch(users: map<string, User>, order: seq<string>, field: Lookup, value: string)
    requires Consistent(users, order)
    requires FindFrom(users, order, field, value, 0).None?
    ensures forall k | k in users :: FieldOf(users[k], field) != value
  {
    forall k | k in users ensures FieldOf(users[k], field) != value {
      var j :| 0 <= j < |order| && order[j] == k;
    }
  }

  /** Adding a user under a fresh id with an unused email keeps the store
      consistent. */
  lemma InsertKeepsConsistent(users: map<string, User>, order: seq<string>, user: User)
    requires Consistent(users, order)
    requires user.id !in users
    requires forall k | k in users :: users[k].email != user.email
    ensures Consistent(users[user.id := user], order + [user.id])
  {
    var users' := users[user.id := user];
    var order' := order + [user.id];
    forall i, j | 0 <= i < j < |order'| ensures order'[i] != order'[j] {
      if j == |order| {
        assert order'[i] == order[i] && order[i] in users;
      }
    }
  }

  /** Changing a stored record but keeping its id and email keeps the store
      consistent. */
  lemma UpdateKeepsConsistent(users: map<string, User>, order: seq<string>, id: string, user: User)
    requires Consistent(users, order)
    requires id in users && user.id == id && user.email == users[id].email
    ensures Consistent(users[id := user], order)
  {
  }

  class AuthService {
    /** `users_db`: user id to record. */
    var users: map<string, User>
    /** The ids in insertion order, the order in which the dictionary is scanned. */
    var order: seq<string>

    /** The order lists each stored id once; each record sits under its own id;
        no two users share an email. */
    ghost predicate Valid()
      reads this
    {
      Consistent(users, order)
    }

    constructor ()
      ensures Valid() && users == map[] && order == []
    {
      users := map[];
      order := [];
    }

    /** The first user, in insertion order, whose field equals `value`. */
    function Find(field: Lookup, value: string): Option<User>
      reads this
      requires Valid()
    {
      match FindFrom(users, order, field, value, 0)
      case None => None
      case Some(i) => Some(users[order[i]])
    }

    /** `get_user_by_api_key`: a stored user holding that key, or None when no
        stored user holds it. */
    function GetUserByApiKey(apiKey: string): (r: Option<User>)
      reads this
      requires Valid()
      ensures r.Some? ==> r.value.apiKey == apiKey && r.value.id in users && users[r.value.id] == r.value
      ensures r.None? <==> forall k | k in users :: users[k].apiKey != apiKey
    {
      var r := Find(ByApiKey, apiKey);
      if r.None? then
        NoMatch(users, order, ByApiKey, apiKey);
        r
      else r
    }

    /** `create_user`: `userId` and `keyId` are the fresh values `uuid4` draws
        and `now` the clock. A registered email is refused and nothing changes;
        otherwise exactly one record is added, under the new id. */
    method CreateUser(req: UserCreate, hash: string -> string, userId: string, keyId: string, now: Timestamp)
      returns (r: Result<User, string>)
      requires Valid()
      requires userId !in users
      modifies this
      ensures Valid()
      ensures (exists k | k in old(users) :: old(users)[k].email == req.email) ==>
        r == Err(EmailAlreadyRegistered) && users == old(users) && order == old(order)
      ensures (forall k | k in old(users) :: old(users)[k].email != req.email) ==>
        && r.Ok?
        && users == old(users)[userId := r.value]
        && order == old(order) + [userId]
      ensures r.Ok? ==>
        && r.value.id == userId
        && r.value.email == req.email
        && r.value.username == req.username
        && r.value.hashedPassword == hash(req.password)
        && r.value.apiKey == ApiKeyPrefix + keyId
        && r.value.isActive && r.value.usageCount == 0
        && r.value.createdAt == now && r.value.lastLogin == None
    {
      var taken := FindFrom(users, order, ByEmail, req.email, 0);
      if taken.Some? {
        return Err(EmailAlreadyRegistered);
      }
      NoMatch(users, order, ByEmail, req.email);
      var user := User(userId, req.email, req.username, hash(req.password), ApiKeyPrefix + keyId,
                       true, 0, now, None);
      InsertKeepsConsistent(users, order, user);
      users := users[userId := user];
      order := order + [userId];
      r := Ok(user);
    }

    /** `authenticate_user`: the user with that email when the password checks
        against its stored hash, with `last_login` set to `now`; None, and no
        change, when no user has the email or the password does not check. */
    method AuthenticateUser(email: string, password: string, verify: (string, string) -> bool, now: Timestamp)
      returns (r: Option<User>)
      requires Valid()
      modifies this
      ensures Valid() && order == old(order)
      ensures (forall k | k in old(users) :: old(users)[k].email != email) ==>
        r == None && users == old(users)
      ensures forall k | k in old(users) && old(users)[k].email == email ::
        if verify(password, old(users)[k].hashedPassword) then
          r == Some(old(users)[k].(lastLogin := Some(now))) && users == old(users)[k := r.value]
        else
          r == None && users == old(users)
    {
      var found := FindFrom(users, order, ByEmail, email, 0);
      if found.None? {
        NoMatch(users, order, ByEmail, email);
        return None;
      }
      var id := order[found.value];
      var user := users[id];
      if !verify(password, user.hashedPassword) {
        return None;
      }
      var updated := user.(lastLogin := Some(now));
      UpdateKeepsConsistent(users, order, id, updated);
      users := users[id := updated];
      r := Some(updated);
    }
  }
}
