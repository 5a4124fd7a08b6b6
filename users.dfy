/**
 * The user document: its validators, the two pre-save hooks of the credential
 * lifecycle, the stale-token check, the password-reset token and the find filter
 * that hides deactivated users.
 */
module Users {
  import opened Wrappers
  import opened Documents
  import Queries

  const BcryptCost := 12
  const PasswordMinLength := 8
  /** `passwordChangedAt` is back-dated by one second. */
  const ChangeBackdateMs := 1000
  const ResetTokenBytes := 32
  /** Five hours in milliseconds. */
  const ResetTokenLifetimeMs := 5 * 60 * 60 * 1000
  const Roles: set<string> := {"user", "guide", "lead-guide", "admin"}
  const DefaultRole := "user"

  // ---------------------------------------------------------------------------
  // Hex encoding (`Buffer.toString('hex')`)

  type Byte = b: int | 0 <= b < 256

  predicate IsHexDigit(c: char) {
    '0' <= c <= '9' || 'a' <= c <= 'f'
  }

  /** The lower-case hex digit of a nibble. */
  function HexDigit(n: int): (c: char)
    requires 0 <= n < 16
    ensures IsHexDigit(c)
  {
    if n < 10 then ('0' as int + n) as char else ('a' as int + n - 10) as char
  }

  /** The nibble a hex digit stands for. */
  function DigitValue(c: char): (n: Option<int>)
    ensures n.Some? <==> IsHexDigit(c)
    ensures n.Some? ==> 0 <= n.value < 16 && HexDigit(n.value) == c
  {
    if '0' <= c <= '9' then Some(c as int - '0' as int)
    else if 'a' <= c <= 'f' then Some(c as int - 'a' as int + 10)
    else None
  }

  /** Two lower-case hex digits per byte, high nibble first. */
  function HexEncode(bytes: seq<Byte>): (hex: string)
    ensures |hex| == 2 * |bytes|
    ensures forall k :: 0 <= k < |hex| ==> IsHexDigit(hex[k])
  {
    if bytes == [] then ""
    else [HexDigit(bytes[0] / 16), HexDigit(bytes[0] % 16)] + HexEncode(bytes[1..])
  }

  /** The inverse of `HexEncode`: `None` for an odd length or a character that is not a digit. */
  function HexDecode(hex: string): (bytes: Option<seq<Byte>>)
    ensures bytes.Some? ==> 2 * |bytes.value| == |hex|
  {
    if hex == "" then Some([])
    else if |hex| == 1 then None
    else
      match (DigitValue(hex[0]), DigitValue(hex[1]), HexDecode(hex[2..]))
      case (Some(high), Some(low), Some(rest)) => Some([high * 16 + low] + rest)
      case _ => None
  }

  lemma {:induction false} HexRoundTrip(bytes: seq<Byte>)
    ensures HexDecode(HexEncode(bytes)) == Some(bytes)
  {
    if bytes != [] {
      var b := bytes[0];
      var hex := HexEncode(bytes);
      assert hex[0] == HexDigit(b / 16) && hex[1] == HexDigit(b % 16);
      assert hex[2..] == HexEncode(bytes[1..]);
      HexRoundTrip(bytes[1..]);
      assert [b / 16 * 16 + b % 16] + bytes[1..] == bytes;
    }
  }

  /** Different random bytes give different tokens. */
  lemma HexEncodeInjective(a: seq<Byte>, b: seq<Byte>)
    requires HexEncode(a) == HexEncode(b)
    ensures a == b
  {
    HexRoundTrip(a);
    HexRoundTrip(b);
  }

  // ---------------------------------------------------------------------------
  // changedPasswordAfter

  /** `parseInt(ms / 1000, 10)`: the quotient in whole seconds, truncated towards zero. */
  function WholeSeconds(ms: int): (s: int)
    ensures ms >= 0 ==> s * 1000 <= ms < (s + 1) * 1000
    ensures ms < 0 ==> (s - 1) * 1000 < ms <= s * 1000
  {
    if ms >= 0 then ms / 1000 else -((-ms) / 1000)
  }

  /**
   * `user.changedPasswordAfter(JWTTimestamp)` on the user's `passwordChangedAt`:
   * whether the token, issued at `jwtTimestamp` seconds, predates the whole second
   * of the last password change. Without a change it is never stale.
   */
  function ChangedPasswordAfter(passwordChangedAt: Option<int>, jwtTimestamp: int): (changed: bool)
    ensures passwordChangedAt.None? ==> !changed
    ensures passwordChangedAt.Some? && passwordChangedAt.value >= 0 ==>
      (changed <==> (jwtTimestamp + 1) * 1000 <= passwordChangedAt.value)
    ensures passwordChangedAt.Some? && passwordChangedAt.value < 0 ==>
      (changed <==> jwtTimestamp * 1000 < passwordChangedAt.value)
  {
    match passwordChangedAt
    case None => false
    case Some(ms) => jwtTimestamp < WholeSeconds(ms)
  }

  /**
   * Because the change is back-dated by a second, a token issued in the second of
   * the save (or later) is not reported stale, whatever the clock reads.
   */
  lemma TokenFromSaveSecondIsFresh(now: int, iat: int)
    requires iat >= now / 1000
    ensures !ChangedPasswordAfter(Some(now - ChangeBackdateMs), iat)
  {
  }

  /** For a save at `now` >= 1 s, exactly the tokens issued two whole seconds or more before `now` are stale. */
  lemma BackdatedChangeWindow(now: int, iat: int)
    requires now >= ChangeBackdateMs
    ensures ChangedPasswordAfter(Some(now - ChangeBackdateMs), iat) <==> (iat + 2) * 1000 <= now
  {
  }

  // ---------------------------------------------------------------------------
  // The find filter and the hidden fields

  /** `{ active: { $ne: false } }`: a missing flag, or any value but `false`, passes. */
  predicate ActiveNotFalse(doc: Document) {
    Get(doc, "active") != Some(Bool(false))
  }

  /** The `pre(/^find/)` hook: every find query is narrowed to users that are not deactivated. */
  method PreFind(q: Queries.Query<Document>)
    modifies q
    ensures q.conditions == old(q.conditions) + [ActiveNotFalse]
  {
    q.Find(ActiveNotFalse);
  }

  /** A hooked find returns exactly the users the original filter selects whose `active` is not false. */
  lemma HookedFindHidesInactiveUsers(before: seq<Document -> bool>, q: Queries.Query<Document>, docs: seq<Document>)
    requires q.conditions == before + [ActiveNotFalse]
    ensures forall d :: d in q.Run(docs) <==>
      d in docs && (forall i :: 0 <= i < |before| ==> before[i](d)) && Get(d, "active") != Some(Bool(false))
  {
    Queries.RunWithAddedCondition(before, ActiveNotFalse, q, docs);
  }

  /** The paths declared `select: false`. */
  const HiddenFields: set<string> := {"password", "active"}

  /** A user record as a query returns it: every path but the `select: false` ones. */
  function Projected(doc: Document): (shown: Document)
    ensures forall k :: k in shown <==> k in doc && k != "password" && k != "active"
    ensures forall k :: k in shown ==> shown[k] == doc[k]
  {
    doc - HiddenFields
  }

  // ---------------------------------------------------------------------------
  // The user document

  datatype UserPath = NamePath | EmailPath | RolePath | PasswordPath | PasswordConfirmPath

  const AllPaths: set<UserPath> := {NamePath, EmailPath, RolePath, PasswordPath, PasswordConfirmPath}

  datatype SaveError =
    | ValidationFailed(paths: set<UserPath>)   // the named validators rejected the document
    | HashFailed                               // bcrypt was given an absent password

  /** Mongoose's `required` on a string: present and not empty. */
  predicate Present(s: Option<string>) {
    s.Some? && s.value != ""
  }

  /** `doc` with the path `key` set to the string `v` when it is present. */
  function WithString(doc: Document, key: string, v: Option<string>): (doc': Document)
    ensures forall k :: k != key ==> Get(doc', k) == Get(doc, k)
    ensures Get(doc', key) == if v.Some? then Some(Str(v.value)) else Get(doc, key)
  {
    if v.Some? then doc[key := Str(v.value)] else doc
  }

  /** `doc` with the date path `key` set to its milliseconds when it is present. */
  function WithMillis(doc: Document, key: string, v: Option<int>): (doc': Document)
    ensures forall k :: k != key ==> Get(doc', k) == Get(doc, k)
    ensures Get(doc', key) == if v.Some? then Some(Num(v.value as real)) else Get(doc, key)
  {
    if v.Some? then doc[key := Num(v.value as real)] else doc
  }

  class User {
    var name: Option<string>
    var email: Option<string>
    var role: string
    var password: Option<string>
    var passwordConfirm: Option<string>
    /** Milliseconds since the epoch. */
    var passwordChangedAt: Option<int>
    var passwordResetToken: Option<string>
    /** Milliseconds since the epoch. */
    var passwordResetExpires: Option<int>
    var active: bool
    /** Mongoose's `isNew`: the document has never been saved. */
    var isNew: bool
    /** Mongoose's `isModified('password')`: the password was assigned since the last save. */
    var passwordModified: bool

    /**
     * `new User(body)`: the given paths, `email` through the `lowercase` setter
     * (`toLowerCase` is String.prototype.toLowerCase), `role` defaulting to "user"
     * and `active` to true.
     */
    constructor (name: Option<string>, email: Option<string>, role: Option<string>,
                 password: Option<string>, passwordConfirm: Option<string>, toLowerCase: string -> string)
      ensures this.name == name
      ensures this.email == if email.Some? then Some(toLowerCase(email.value)) else None
      ensures this.role == (if role.Some? then role.value else DefaultRole)
      ensures this.password == password && this.passwordConfirm == passwordConfirm
      ensures passwordChangedAt.None? && passwordResetToken.None? && passwordResetExpires.None?
      ensures active && isNew && passwordModified == password.Some?
    {
      this.name := name;
      this.email := if email.Some? then Some(toLowerCase(email.value)) else None;
      this.role := if role.Some? then role.value else DefaultRole;
      this.password := password;
      this.passwordConfirm := passwordConfirm;
      passwordChangedAt := None;
      passwordResetToken := None;
      passwordResetExpires := None;
      active := true;
      isNew := true;
      passwordModified := password.Some?;
    }

    /** `user.password = p; user.passwordConfirm = c`: both paths are set and the password is modified. */
    method AssignPassword(p: string, c: string)
      modifies this
      ensures password == Some(p) && passwordConfirm == Some(c) && passwordModified
      ensures name == old(name) && email == old(email) && role == old(role) && active == old(active)
      ensures passwordChangedAt == old(passwordChangedAt) && isNew == old(isNew)
      ensures passwordResetToken == old(passwordResetToken) && passwordResetExpires == old(passwordResetExpires)
    {
      password := Some(p);
      passwordConfirm := Some(c);
      passwordModified := true;
    }

    /** Whether the validators of path `p` accept the document; `isEmail` is the validator library's check. */
    predicate PathOk(p: UserPath, isEmail: string -> bool)
      reads this
    {
      match p
      case NamePath => Present(name)
      case EmailPath => Present(email) && isEmail(email.value)
      case RolePath => role in Roles
      case PasswordPath => Present(password) && |password.value| >= PasswordMinLength
      // `val === this.password`, compared before the pre-save hook hashes the password
      case PasswordConfirmPath => Present(passwordConfirm) && passwordConfirm == password
    }

    /** The paths a validation error of this document names. */
    function Violations(isEmail: string -> bool): (v: set<UserPath>)
      reads this
      ensures forall p :: p in v <==> !PathOk(p, isEmail)
    {
      set p | p in AllPaths && !PathOk(p, isEmail)
    }

    /**
     * The record the user collection holds for this document: each present path
     * with its value, dates as milliseconds. The find filter sees `active` as it
     * is here, and queries never show the password.
     */
    function Record(): (doc: Document)
      reads this
      ensures Get(doc, "active") == Some(Bool(active))
      ensures ActiveNotFalse(doc) <==> active
      ensures Get(doc, "email") == (if email.Some? then Some(Str(email.value)) else None)
      ensures Get(doc, "role") == Some(Str(role))
      ensures ("password" in doc <==> password.Some?) && "password" !in Projected(doc)
    {
      var d0 := map["role" := Str(role), "active" := Bool(active)];
      assert Get(d0, "active") == Some(Bool(active)) && Get(d0, "role") == Some(Str(role));
      assert Get(d0, "email") == None && Get(d0, "password") == None;
      var d1 := WithString(WithString(WithString(d0, "name", name), "email", email), "password", password);
      var d2 := WithString(WithString(d1, "passwordConfirm", passwordConfirm), "passwordResetToken", passwordResetToken);
      var d3 := WithMillis(WithMillis(d2, "passwordChangedAt", passwordChangedAt), "passwordResetExpires", passwordResetExpires);
      assert Get(d3, "password") == Get(d1, "password");
      d3
    }

    /**
     * `user.save({ validateBeforeSave })` at time `now`: validation, then the two
     * pre-save hooks. When the password was modified it is replaced by
     * `bcryptHash(password, 12)` and `passwordConfirm` is cleared; when, in
     * addition, the document was saved before, `passwordChangedAt` becomes
     * `now - 1000`. Nothing else changes.
     */
    method Save(now: int, bcryptHash: (string, nat) -> string, isEmail: string -> bool, validateBeforeSave: bool)
      returns (res: Outcome<SaveError>)
      modifies this
      ensures validateBeforeSave && old(Violations(isEmail)) != {} ==>
        res == Fail(ValidationFailed(old(Violations(isEmail))))
        && password == old(password) && passwordConfirm == old(passwordConfirm)
        && passwordChangedAt == old(passwordChangedAt) && isNew == old(isNew) && passwordModified == old(passwordModified)
      ensures (!validateBeforeSave || old(Violations(isEmail)) == {}) && old(passwordModified) && old(password).None? ==>
        res == Fail(HashFailed)
        && password == old(password) && passwordConfirm == old(passwordConfirm)
        && passwordChangedAt == old(passwordChangedAt) && isNew == old(isNew) && passwordModified == old(passwordModified)
      ensures (!validateBeforeSave || old(Violations(isEmail)) == {}) && !(old(passwordModified) && old(password).None?) ==>
        && res == Pass
        && password == (if old(passwordModified) then Some(bcryptHash(old(password).value, BcryptCost)) else old(password))
        && passwordConfirm == (if old(passwordModified) then None else old(passwordConfirm))
        && passwordChangedAt == (if old(passwordModified) && !old(isNew) then Some(now - ChangeBackdateMs) else old(passwordChangedAt))
        && !isNew && !passwordModified
      ensures name == old(name) && email == old(email) && role == old(role) && active == old(active)
      ensures passwordResetToken == old(passwordResetToken) && passwordResetExpires == old(passwordResetExpires)
    {
      if validateBeforeSave {
        var v := Violations(isEmail);
        if v != {} {
          return Fail(ValidationFailed(v));
        }
      }
      // pre('save') #1: hash a modified password and drop the confirmation
      if passwordModified {
        if password.None? {
          return Fail(HashFailed);
        }
        password := Some(bcryptHash(password.value, BcryptCost));
        passwordConfirm := None;
      }
      // pre('save') #2: record the change of an existing user's password
      if passwordModified && !isNew {
        passwordChangedAt := Some(now - ChangeBackdateMs);
      }
      isNew := false;
      passwordModified := false;
      res := Pass;
    }

    /**
     * `user.createPasswordResetToken()` at time `now`, given the 32 random bytes
     * and the sha256-hex digest function: returns the hex token, stores only its
     * digest (replacing any earlier one) and an expiry five hours from `now`.
     */
    method CreatePasswordResetToken(now: int, randomBytes: seq<Byte>, sha256Hex: string -> string) returns (resetToken: string)
      requires |randomBytes| == ResetTokenBytes
      modifies this
      ensures resetToken == HexEncode(randomBytes) && |resetToken| == 2 * ResetTokenBytes
      ensures HexDecode(resetToken) == Some(randomBytes)
      ensures passwordResetToken == Some(sha256Hex(resetToken))
      ensures passwordResetExpires == Some(now + ResetTokenLifetimeMs)
      ensures name == old(name) && email == old(email) && role == old(role) && active == old(active)
      ensures password == old(password) && passwordConfirm == old(passwordConfirm)
      ensures passwordChangedAt == old(passwordChangedAt) && isNew == old(isNew) && passwordModified == old(passwordModified)
    {
      resetToken := HexEncode(randomBytes);
      HexRoundTrip(randomBytes);
      passwordResetToken := Some(sha256Hex(resetToken));
      passwordResetExpires := Some(now + ResetTokenLifetimeMs);
    }
  }
}
