/** The self-service handlers of the user controller: the field whitelist,
    profile update, saving and un-saving drinks, soft delete, "me" and the
    refused create route. Each handler works on the user collection (a
    `UserStore`) and on the request object it is given. */
module UserController {
  import opened Common
  import opened UserModel

  const PASSWORD_ROUTE_MESSAGE := "This route is not for passwords, please try /updateMyPassword"
  const NOT_FOUND_MESSAGE := "Error, something was not found"
  const CREATE_USER_MESSAGE := "This route is not defined, please use /signup instead"

  /** The body fields `updateMe` passes on to the update. */
  const PROFILE_FIELDS: seq<string> := ["username", "email"]

  // ---------------------------------------------------------------------------
  // filterObj

  /** What `filterObj(obj, ...allowedFields)` returns: the entries of `obj`
      whose key is one of `allowedFields`. */
  function Whitelisted<V>(obj: map<string, V>, allowedFields: seq<string>): (r: map<string, V>)
    ensures r.Keys <= obj.Keys
    ensures forall k :: k in r ==> r[k] == obj[k] && k in allowedFields
    ensures forall i :: 0 <= i < |allowedFields| && allowedFields[i] in obj ==> allowedFields[i] in r
  {
    map k | k in obj && k in allowedFields :: obj[k]
  }

  /** filterObj: walks the keys of `obj` and copies each allowed entry into a
      fresh object. `obj` is a value here, so the caller's body is left as it was. */
  method FilterObj<V>(obj: map<string, V>, allowedFields: seq<string>) returns (newObj: map<string, V>)
    ensures forall k :: k in newObj <==> k in obj && k in allowedFields
    ensures forall k :: k in newObj ==> newObj[k] == obj[k]
    ensures newObj == Whitelisted(obj, allowedFields)
  {
    newObj := map[];
    var keys := obj.Keys;
    while keys != {}
      invariant keys <= obj.Keys
      invariant forall k :: k in newObj <==> k in obj && k !in keys && k in allowedFields
      invariant forall k :: k in newObj ==> newObj[k] == obj[k]
      decreases keys
    {
      var el :| el in keys;
      if el in allowedFields {
        newObj := newObj[el := obj[el]];
      }
      keys := keys - {el};
    }
  }

  /** Filtering twice with the same fields is filtering once. */
  lemma WhitelistIdempotent<V>(obj: map<string, V>, allowedFields: seq<string>)
    ensures Whitelisted(Whitelisted(obj, allowedFields), allowedFields) == Whitelisted(obj, allowedFields)
  {
  }

  // ---------------------------------------------------------------------------
  // updateMe

  /** The guard of updateMe: a truthy `password` or `passwordConfirm` in the body. */
  predicate MentionsPassword(body: map<string, Json>)
    ensures MentionsPassword(body) <==>
      exists key :: key in body && key in {"password", "passwordConfirm"} && Truthy(body[key])
  {
    PropertyTruthy(body, "password") || PropertyTruthy(body, "passwordConfirm")
  }

  /** The profile fields an update sets, after the schema has cast them. */
  datatype ProfileChange = ProfileChange(username: Option<string>, email: Option<string>)

  /** Cast of one string path of the update: absent stays absent, a string is
      kept, any other JSON value is refused by the schema. */
  function CastField(update: map<string, Json>, path: string): (r: Result<Option<string>>)
    ensures r.Ok? <==> path !in update || update[path].JStr?
    ensures r.Ok? && r.value.Some? ==> path in update && update[path] == JStr(r.value.value)
    ensures r.Ok? && r.value.None? ==> path !in update
    ensures r.Err? ==> r.error == SchemaRejected(path)
  {
    if path !in update then Ok(None)
    else match update[path]
      case JStr(s) => Ok(Some(s))
      case _ => Err(SchemaRejected(path))
  }

  /** Cast of the filtered update to the User schema's `username` and `email`. */
  function CastProfile(update: map<string, Json>): (r: Result<ProfileChange>)
    ensures r.Ok? <==> forall path :: path in PROFILE_FIELDS && path in update ==> update[path].JStr?
    ensures r.Ok? ==> r.value.username == CastField(update, "username").value
    ensures r.Ok? ==> r.value.email == CastField(update, "email").value
  {
    match CastField(update, "username")
    case Err(e) => Err(e)
    case Ok(name) =>
      match CastField(update, "email")
      case Err(e) => Err(e)
      case Ok(mail) => Ok(ProfileChange(name, mail))
  }

  /** The record after the update: a field the change names takes its new
      value, every other field keeps the old one. */
  function ApplyChange(u: User, c: ProfileChange): (r: User)
    ensures r == u.(username := r.username, email := r.email)
    ensures c.username.Some? ==> r.username == c.username.value
    ensures c.username.None? ==> r.username == u.username
    ensures c.email.Some? ==> r.email == c.email.value
    ensures c.email.None? ==> r.email == u.email
  {
    var name := match c.username case Some(n) => n case None => u.username;
    var mail := match c.email case Some(m) => m case None => u.email;
    u.(username := name, email := mail)
  }

  /** Whatever the body holds (a role, an active flag, a password that is
      falsy, saved drinks), an accepted updateMe changes nothing but
      `username` and `email`. */
  lemma UpdateMeCannotEscalate(u: User, body: map<string, Json>)
    requires CastProfile(Whitelisted(body, PROFILE_FIELDS)).Ok?
    ensures var r := ApplyChange(u, CastProfile(Whitelisted(body, PROFILE_FIELDS)).value);
      && r.id == u.id && r.role == u.role && r.active == u.active
      && r.passwordHash == u.passwordHash && r.savedDrinks == u.savedDrinks
    ensures var r := ApplyChange(u, CastProfile(Whitelisted(body, PROFILE_FIELDS)).value);
      && ("username" in body ==> body["username"] == JStr(r.username))
      && ("username" !in body ==> r.username == u.username)
      && ("email" in body ==> body["email"] == JStr(r.email))
      && ("email" !in body ==> r.email == u.email)
  {
    var filtered := Whitelisted(body, PROFILE_FIELDS);
    assert "username" in filtered <==> "username" in body;
    assert "email" in filtered <==> "email" in body;
  }

  // ---------------------------------------------------------------------------
  // addDrink / removeDrink

  /** `$push: { savedDrinks: id }`: the id goes at the end, duplicates allowed. */
  function PushDrink(u: User, drinkId: string): (r: User)
    ensures r == u.(savedDrinks := r.savedDrinks)
    ensures |r.savedDrinks| == |u.savedDrinks| + 1
    ensures r.savedDrinks[..|u.savedDrinks|] == u.savedDrinks
    ensures r.savedDrinks[|u.savedDrinks|] == drinkId
  {
    u.(savedDrinks := u.savedDrinks + [drinkId])
  }

  /** `$pull` on a list of strings: every element equal to `x` is dropped and
      the others stay, in their order. */
  function Pull(s: seq<string>, x: string): (r: seq<string>)
    ensures x !in r
    ensures multiset(r) == multiset(s)[x := 0]
    decreases |s|
  {
    if s == [] then []
    else
      assert s == [s[0]] + s[1..];
      (if s[0] == x then [] else [s[0]]) + Pull(s[1..], x)
  }

  /** `$pull: { savedDrinks: id }` on the record. */
  function PullDrink(u: User, drinkId: string): (r: User)
    ensures r == u.(savedDrinks := r.savedDrinks)
    ensures drinkId !in r.savedDrinks
    ensures multiset(r.savedDrinks) == multiset(u.savedDrinks)[drinkId := 0]
  {
    u.(savedDrinks := Pull(u.savedDrinks, drinkId))
  }

  /** Pulling from a concatenation pulls from each part: the kept entries keep
      their relative order. */
  lemma {:induction false} PullDistributes(a: seq<string>, b: seq<string>, x: string)
    ensures Pull(a + b, x) == Pull(a, x) + Pull(b, x)
    decreases |a|
  {
    if a == [] {
      assert a + b == b;
    } else {
      assert (a + b)[1..] == a[1..] + b;
      PullDistributes(a[1..], b, x);
    }
  }

  /** A list is left exactly as it was by a pull if and only if it does not
      hold the pulled id. */
  lemma {:induction false} PullUnchangedIff(s: seq<string>, x: string)
    ensures Pull(s, x) == s <==> x !in s
    decreases |s|
  {
    if s != [] {
      PullUnchangedIff(s[1..], x);
      if x !in s {
        assert s == [s[0]] + s[1..];
      }
    }
  }

  /** A second removal of the same id changes nothing. */
  lemma PullIdempotent(s: seq<string>, x: string)
    ensures Pull(Pull(s, x), x) == Pull(s, x)
  {
    PullUnchangedIff(Pull(s, x), x);
  }

  /** Saving a drink that was not saved and then removing it gives back the
      record as it was. */
  lemma AddThenRemoveRestores(u: User, drinkId: string)
    requires drinkId !in u.savedDrinks
    ensures PullDrink(PushDrink(u, drinkId), drinkId) == u
  {
    var s := u.savedDrinks;
    assert PushDrink(u, drinkId).savedDrinks == s + [drinkId];
    PullDistributes(s, [drinkId], drinkId);
    PullUnchangedIff(s, drinkId);
    assert Pull([drinkId], drinkId) == [];
    assert s + [] == s;
  }

  /** Saving a drink that is already saved adds a second copy. */
  lemma AddKeepsDuplicates(u: User, drinkId: string)
    ensures multiset(PushDrink(u, drinkId).savedDrinks)[drinkId] == multiset(u.savedDrinks)[drinkId] + 1
  {
    assert PushDrink(u, drinkId).savedDrinks == u.savedDrinks + [drinkId];
  }

  // ---------------------------------------------------------------------------
  // deleteMe

  /** `{ active: false }`: the record is kept and only its flag changes. */
  function Deactivate(u: User): (r: User)
    ensures !r.active
    ensures r == u.(active := r.active)
  {
    u.(active := false)
  }

  // ---------------------------------------------------------------------------
  // createUser

  /** A response sent directly by a handler. */
  datatype Reply = Reply(statusCode: nat, status: string, message: string)

  /** createUser refuses every request and points to /signup. */
  function CreateUser(): (r: Reply)
    ensures r.statusCode == 500 && r.status == "error"
    ensures r.message == CREATE_USER_MESSAGE
  {
    Reply(500, "error", CREATE_USER_MESSAGE)
  }

  // ---------------------------------------------------------------------------
  // State: the user collection and the request

  /** The stored user records, by id. */
  class UserStore {
    var users: map<string, User>

    /** Every record is filed under its own id. */
    ghost predicate Valid()
      reads this
    {
      forall id :: id in users ==> users[id].id == id
    }

    constructor (initial: map<string, User>)
      requires forall id :: id in initial ==> initial[id].id == id
      ensures Valid() && users == initial
    {
      users := initial;
    }
  }

  /** The parts of an Express request the handlers use. `user` is the record
      the authentication gate attached, if any. */
  class Request {
    var params: map<string, string>
    var body: map<string, Json>
    var user: Option<User>

    constructor (params: map<string, string>, body: map<string, Json>, user: Option<User>)
      ensures this.params == params && this.body == body && this.user == user
    {
      this.params := params;
      this.body := body;
      this.user := user;
    }
  }

  // ---------------------------------------------------------------------------
  // Handlers

  /** updateMe: refuses password fields with 400; otherwise writes the
      whitelisted `username`/`email` into the caller's record. A caller whose
      record is not found gets a success with no user (there is no check). */
  method UpdateMe(store: UserStore, req: Request) returns (r: Result<Option<User>>)
    requires store.Valid() && req.user.Some?
    modifies store
    ensures store.Valid()
    ensures MentionsPassword(req.body) ==>
      r == Err(AppError(PASSWORD_ROUTE_MESSAGE, 400)) && store.users == old(store.users)
    ensures !MentionsPassword(req.body) && CastProfile(Whitelisted(req.body, PROFILE_FIELDS)).Err? ==>
      r == Err(CastProfile(Whitelisted(req.body, PROFILE_FIELDS)).error) && store.users == old(store.users)
    ensures !MentionsPassword(req.body) && CastProfile(Whitelisted(req.body, PROFILE_FIELDS)).Ok? ==>
      var id := req.user.value.id;
      var change := CastProfile(Whitelisted(req.body, PROFILE_FIELDS)).value;
      if id in old(store.users) then
        r == Ok(Some(ApplyChange(old(store.users)[id], change)))
        && store.users == old(store.users)[id := ApplyChange(old(store.users)[id], change)]
      else
        r == Ok(None) && store.users == old(store.users)
  {
    if MentionsPassword(req.body) {
      return Err(AppError(PASSWORD_ROUTE_MESSAGE, 400));
    }
    var filteredBody := FilterObj(req.body, PROFILE_FIELDS);
    var cast := CastProfile(filteredBody);
    if cast.Err? {
      return Err(cast.error);
    }
    var id := req.user.value.id;
    if id !in store.users {
      return Ok(None);
    }
    var updatedUser := ApplyChange(store.users[id], cast.value);
    store.users := store.users[id := updatedUser];
    r := Ok(Some(updatedUser));
  }

  /** addDrink: appends `req.params.id` to the caller's saved drinks; 404
      when the caller's record is not found. */
  method AddDrink(store: UserStore, req: Request) returns (r: Result<User>)
    requires store.Valid() && req.user.Some? && "id" in req.params
    modifies store
    ensures store.Valid()
    ensures var id := req.user.value.id;
      if id in old(store.users) then
        r == Ok(PushDrink(old(store.users)[id], req.params["id"]))
        && store.users == old(store.users)[id := r.value]
      else
        r == Err(AppError(NOT_FOUND_MESSAGE, 404)) && store.users == old(store.users)
  {
    var id := req.user.value.id;
    if id !in store.users {
      return Err(AppError(NOT_FOUND_MESSAGE, 404));
    }
    var updatedUser := PushDrink(store.users[id], req.params["id"]);
    store.users := store.users[id := updatedUser];
    r := Ok(updatedUser);
  }

  /** removeDrink: pulls every copy of `req.params.id` from the caller's saved
      drinks; 404 when the caller's record is not found. */
  method RemoveDrink(store: UserStore, req: Request) returns (r: Result<User>)
    requires store.Valid() && req.user.Some? && "id" in req.params
    modifies store
    ensures store.Valid()
    ensures var id := req.user.value.id;
      if id in old(store.users) then
        r == Ok(PullDrink(old(store.users)[id], req.params["id"]))
        && store.users == old(store.users)[id := r.value]
      else
        r == Err(AppError(NOT_FOUND_MESSAGE, 404)) && store.users == old(store.users)
  {
    var id := req.user.value.id;
    if id !in store.users {
      return Err(AppError(NOT_FOUND_MESSAGE, 404));
    }
    var updatedUser := PullDrink(store.users[id], req.params["id"]);
    store.users := store.users[id := updatedUser];
    r := Ok(updatedUser);
  }

  /** deleteMe: soft delete of the caller's record; always answers 204. */
  method DeleteMe(store: UserStore, req: Request) returns (statusCode: nat)
    requires store.Valid() && req.user.Some?
    modifies store
    ensures store.Valid()
    ensures statusCode == 204
    ensures store.users.Keys == old(store.users).Keys
    ensures var id := req.user.value.id;
      if id in old(store.users) then store.users == old(store.users)[id := Deactivate(old(store.users)[id])]
      else store.users == old(store.users)
  {
    var id := req.user.value.id;
    if id in store.users {
      store.users := store.users[id := Deactivate(store.users[id])];
    }
    statusCode := 204;
  }

  /** getMe: points the `id` route parameter at the caller, so that the next
      handler (getUser) reads the caller's own record. */
  method GetMe(req: Request)
    requires req.user.Some?
    modifies req
    ensures req.user == old(req.user) && req.body == old(req.body)
    ensures req.params == old(req.params)["id" := req.user.value.id]
    ensures req.params["id"] == req.user.value.id
  {
    req.params := req.params["id" := req.user.value.id];
  }
}
