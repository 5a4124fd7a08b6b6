/**
 * The profile routes of the user controller: the key whitelist `filterObj`, the
 * self-service profile update that refuses password fields, the soft delete, and
 * the placeholder create route.
 */
module UserController {
  import opened Wrappers
  import opened Documents
  import Users
  import Queries

  type UserId = nat

  /** The keys `updateMe` lets a user change. */
  const AllowedProfileFields: seq<string> := ["name", "email"]

  const PasswordRouteMessage := "This route is not for password updates, please use /updateMyPassword"
  const CreateUserMessage := "This route is not yet defined! Please use /signup instead."

  /** The reference meaning of the whitelist: the entries of `obj` whose key is allowed. */
  function Whitelisted(obj: Document, allowed: seq<string>): (kept: Document)
    ensures forall k :: k in kept <==> k in obj && k in allowed
    ensures forall k :: k in kept ==> kept[k] == obj[k]
  {
    map k | k in obj && k in allowed :: obj[k]
  }

  /** Whitelisting twice with the same keys is whitelisting once. */
  lemma WhitelistIdempotent(obj: Document, allowed: seq<string>)
    ensures Whitelisted(Whitelisted(obj, allowed), allowed) == Whitelisted(obj, allowed)
  {
  }

  /**
   * `filterObj(obj, ...allowedFields)`: visits the keys of `obj` one by one and
   * copies an entry when its key is allowed.
   */
  method FilterObj(obj: Document, allowed: seq<string>) returns (newObj: Document)
    ensures newObj == Whitelisted(obj, allowed)
  {
    newObj := map[];
    var keys := obj.Keys;
    while keys != {}
      invariant keys <= obj.Keys
      invariant forall k :: k in newObj <==> k in obj && k !in keys && k in allowed
      invariant forall k :: k in newObj ==> newObj[k] == obj[k]
      decreases keys
    {
      var el :| el in keys;
      if el in allowed {
        newObj := newObj[el := obj[el]];
      }
      keys := keys - {el};
    }
  }

  /** `new AppError(message, statusCode)`, handed to the error middleware. */
  datatype AppError = AppError(message: string, statusCode: nat)

  /** A JSON reply: its HTTP status, its `status` field, the user in `data` and a message. */
  datatype Reply = Reply(statusCode: nat, status: string, user: Option<Document>, message: Option<string>)

  datatype UpdateMeError =
    | Refused(error: AppError)        // the body carries password data
    | UpdateInvalid(paths: set<string>)  // the update validators reject these paths
    | DuplicateEmail                  // the unique index on `email` rejects the update

  /** `req.body.password || req.body.passwordConfirm`. */
  predicate CarriesPassword(body: Document) {
    Truthy(Get(body, "password")) || Truthy(Get(body, "passwordConfirm"))
  }

  /** `required` on a path the update sets: `null` and the empty string fail. */
  predicate SetValueOk(v: Value) {
    v != Null && v != Str("")
  }

  /**
   * The update as the query casts it: the `lowercase` setter of `email` runs
   * `toLowerCase` (String.prototype.toLowerCase) on a string value; every other
   * value is kept as given.
   */
  function CastUpdate(update: Document, toLowerCase: string -> string): (cast: Document)
    ensures cast.Keys == update.Keys
    ensures forall k :: k in cast && k != "email" ==> cast[k] == update[k]
    ensures "email" in update && update["email"].Str? ==> cast["email"] == Str(toLowerCase(update["email"].s))
    ensures "email" in update && !update["email"].Str? ==> cast["email"] == update["email"]
  {
    if "email" in update && update["email"].Str? then update["email" := Str(toLowerCase(update["email"].s))]
    else update
  }

  /** Whether the validators of path `k` accept the value an update sets: `required` on both, `isEmail` on `email`. */
  predicate SetPathOk(k: string, v: Value, isEmail: string -> bool) {
    SetValueOk(v) && (k == "email" && v.Str? ==> isEmail(v.s))
  }

  /**
   * The paths of a cast update that its validators (`runValidators: true`) reject;
   * `isEmail` is the validator library's check.
   */
  function UpdateViolations(update: Document, isEmail: string -> bool): (paths: set<string>)
    ensures forall k :: k in paths <==> k in update && !SetPathOk(k, update[k], isEmail)
    ensures forall k :: k in paths && k != "email" ==> update[k] == Null || update[k] == Str("")
    ensures "email" in update && update["email"].Str? && !isEmail(update["email"].s) ==> "email" in paths
  {
    set k | k in update && !SetPathOk(k, update[k], isEmail)
  }

  /**
   * Merging a whitelisted body into a record changes at most `name` and `email`:
   * every other key, `role`, `active` and `password` among them, keeps its presence
   * and its value.
   */
  lemma ProfileUpdateTouchesOnlyProfileFields(record: Document, body: Document, toLowerCase: string -> string)
    ensures var merged := record + CastUpdate(Whitelisted(body, AllowedProfileFields), toLowerCase);
            forall k :: k != "name" && k != "email" ==>
              (k in merged <==> k in record) && (k in record ==> merged[k] == record[k])
  {
    var kept := CastUpdate(Whitelisted(body, AllowedProfileFields), toLowerCase);
    forall k | k != "name" && k != "email" ensures k !in kept {
      assert k !in AllowedProfileFields;
    }
  }

  /** A record whose `active` is false is returned by no hooked find. */
  lemma SoftDeletedUserIsHidden(record: Document, before: seq<Document -> bool>, q: Queries.Query<Document>, docs: seq<Document>)
    requires q.conditions == before + [Users.ActiveNotFalse]
    ensures record["active" := Bool(false)] !in q.Run(docs)
  {
    Users.HookedFindHidesInactiveUsers(before, q, docs);
    assert Get(record["active" := Bool(false)], "active") == Some(Bool(false));
  }

  /** `createUser`: the route is not defined; it always answers 500 with an error. */
  function CreateUser(): (reply: Reply)
    ensures reply.statusCode == 500 && reply.status == "error" && reply.user.None?
  {
    Reply(500, "error", None, Some(CreateUserMessage))
  }

  class UserStore {
    /** The user collection: the stored record of each user. */
    var users: map<UserId, Document>

    constructor (initial: map<UserId, Document>)
      ensures users == initial
    {
      users := initial;
    }

    /** Whether `User.findById(id)` finds the user through the `active` filter. */
    predicate Visible(id: UserId)
      reads this
    {
      id in users && Users.ActiveNotFalse(users[id])
    }

    /** The unique index on `email`: another record already holds the (cast) email the update sets. */
    predicate EmailTaken(id: UserId, update: Document)
      reads this
    {
      "email" in update && exists u :: u in users && u != id && Get(users[u], "email") == Some(update["email"])
    }

    /**
     * `updateMe` for the signed-in user `id`: refuse password data with 400; else
     * `User.findByIdAndUpdate(id, filterObj(body, 'name', 'email'), { new: true,
     * runValidators: true })` and reply 200 with the updated user as queries show it.
     * The query casts the update, runs the update validators and then the unique
     * index; `isEmail` and `toLowerCase` are the email check and the setter's case mapping.
     */
    method UpdateMe(id: UserId, body: Document, isEmail: string -> bool, toLowerCase: string -> string)
      returns (res: Result<Reply, UpdateMeError>)
      modifies this
      ensures CarriesPassword(body) ==>
        res == Failure(Refused(AppError(PasswordRouteMessage, 400))) && users == old(users)
      ensures !CarriesPassword(body) ==>
        var update := CastUpdate(Whitelisted(body, AllowedProfileFields), toLowerCase);
        if UpdateViolations(update, isEmail) != {} then
          res == Failure(UpdateInvalid(UpdateViolations(update, isEmail))) && users == old(users)
        else if !old(Visible(id)) then
          res == Success(Reply(200, "success", None, None)) && users == old(users)
        else if old(EmailTaken(id, update)) then
          res == Failure(DuplicateEmail) && users == old(users)
        else
          users == old(users)[id := old(users)[id] + update]
          && res == Success(Reply(200, "success", Some(Users.Projected(users[id])), None))
    {
      if CarriesPassword(body) {
        return Failure(Refused(AppError(PasswordRouteMessage, 400)));
      }
      var filteredBody := FilterObj(body, AllowedProfileFields);
      var update := CastUpdate(filteredBody, toLowerCase);
      var invalid := UpdateViolations(update, isEmail);
      if invalid != {} {
        return Failure(UpdateInvalid(invalid));
      }
      if !Visible(id) {
        return Success(Reply(200, "success", None, None));
      }
      if EmailTaken(id, update) {
        return Failure(DuplicateEmail);
      }
      users := users[id := users[id] + update];
      res := Success(Reply(200, "success", Some(Users.Projected(users[id])), None));
    }

    /**
     * `deleteMe`: `User.findByIdAndUpdate(id, { active: false })` and 204. The
     * record stays in the collection; afterwards no find sees it.
     */
    method DeleteMe(id: UserId) returns (reply: Reply)
      modifies this
      ensures reply == Reply(204, "success", None, None)
      ensures old(Visible(id)) ==> users == old(users)[id := old(users)[id]["active" := Bool(false)]]
      ensures !old(Visible(id)) ==> users == old(users)
      ensures users.Keys == old(users).Keys
      ensures !Visible(id)
    {
      if Visible(id) {
        users := users[id := users[id]["active" := Bool(false)]];
        assert Get(users[id], "active") == Some(Bool(false));
      }
      reply := Reply(204, "success", None, None);
    }
  }
}
