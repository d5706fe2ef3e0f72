/** The user records of the server and the shared ObjectId helper
    (`PyObjectId`). An ObjectId is represented by its canonical text, the 24
    lower-case hexadecimal digits that `str(oid)` prints. Dates are instants
    (an `int` count of time units); e-mail syntax (`EmailStr`) is not checked. */
module UserModels {
  import opened Wrappers
  import opened Text

  predicate IsHexDigit(c: char) {
    IsDigit(c) || 'a' <= c <= 'f' || 'A' <= c <= 'F'
  }

  /** `ObjectId.is_valid` on a string: exactly 24 hexadecimal digits, either case. */
  predicate IsObjectIdText(s: string) {
    |s| == 24 && forall i :: 0 <= i < |s| ==> IsHexDigit(s[i])
  }

  predicate IsCanonicalObjectIdText(s: string) {
    IsObjectIdText(s) && forall i :: 0 <= i < |s| ==> !IsUpper(s[i])
  }

  /** An ObjectId, as `str(oid)` prints it. */
  type ObjectId = s: string | IsCanonicalObjectIdText(s) witness "000000000000000000000000"

  /** `ObjectId(s)`: parses a valid string; anything else raises `InvalidId`. */
  function ParseObjectId(s: string): (r: Option<ObjectId>)
    ensures r.Some? <==> IsObjectIdText(s)
    ensures r.Some? ==> r.value == Lower(s)
  {
    if IsObjectIdText(s) then
      var l := Lower(s);
      assert IsCanonicalObjectIdText(l) by {
        forall i | 0 <= i < |l| ensures IsHexDigit(l[i]) && !IsUpper(l[i]) {
          assert l[i] == LowerChar(s[i]);
        }
      }
      Some(l)
    else None
  }

  /** A value handed to `PyObjectId.validate`. */
  datatype Value = OidValue(oid: ObjectId) | StrValue(s: string) | OtherValue

  /** `PyObjectId.validate`: an ObjectId becomes its string; a valid ObjectId string is kept
      as it is; anything else raises "Invalid ObjectId". */
  function ValidateObjectId(v: Value): (r: Result<string, string>)
    ensures v.OidValue? ==> r == Success(v.oid)
    ensures v.StrValue? && IsObjectIdText(v.s) ==> r == Success(v.s)
    ensures r.Failure? <==> v.OtherValue? || (v.StrValue? && !IsObjectIdText(v.s))
    ensures r.Failure? ==> r.error == "Invalid ObjectId"
  {
    match v
    case OidValue(oid) => Success(oid)
    case StrValue(s) => if IsObjectIdText(s) then Success(s) else Failure("Invalid ObjectId")
    case OtherValue => Failure("Invalid ObjectId")
  }

  /** Whatever `validate` accepts is a valid ObjectId string, validating it again keeps it,
      and parsing it gives back the ObjectId it came from. */
  lemma ValidateRoundTrip(v: Value)
    requires ValidateObjectId(v).Success?
    ensures IsObjectIdText(ValidateObjectId(v).value)
    ensures ValidateObjectId(StrValue(ValidateObjectId(v).value)) == ValidateObjectId(v)
    ensures v.OidValue? ==> ParseObjectId(ValidateObjectId(v).value) == Some(v.oid)
  {
    if v.OidValue? {
      var s: string := v.oid;
      assert Lower(s) == s by {
        forall i | 0 <= i < |s| ensures Lower(s)[i] == s[i] {
          assert !IsUpper(s[i]);
        }
      }
    }
  }

  predicate LengthIn(s: string, lo: nat, hi: nat) { lo <= |s| <= hi }

  datatype Role = User | Admin

  function RoleValue(r: Role): string {
    match r
    case User => "user"
    case Admin => "admin"
  }

  function ParseRole(s: string): (r: Option<Role>)
    ensures r.Some? ==> RoleValue(r.value) == s
  {
    if s == "user" then Some(User) else if s == "admin" then Some(Admin) else None
  }

  /** The role enum holds exactly "user" and "admin". */
  lemma RoleRoundTrip(x: Role, s: string)
    ensures ParseRole(RoleValue(x)) == Some(x)
    ensures ParseRole(s).Some? <==> s == "user" || s == "admin"
  {
  }

  /** `UserIn` */
  datatype UserIn = UserIn(
    username: string, email: string, password: string, title: string, location: string,
    age: int, about: string, skills: seq<string>, experience: Option<string>)

  /** The field constraints of `UserIn`. */
  predicate ValidUserIn(u: UserIn) {
    && LengthIn(u.username, 3, 30)
    && LengthIn(u.password, 6, 30)
    && u.age >= 16
    && |u.about| <= 160
    && (u.experience.Some? ==> |u.experience.value| <= 300)
  }

  /** A `UserIn` built with `skills` omitted. */
  function UserInWithoutSkills(username: string, email: string, password: string, title: string,
                               location: string, age: int, about: string, experience: Option<string>): (u: UserIn)
    ensures u.skills == []
    ensures u.username == username && u.password == password && u.age == age && u.about == about
  {
    UserIn(username, email, password, title, location, age, about, [], experience)
  }

  /** `UserDB`: a `UserIn` with the stored fields. */
  datatype UserDB = UserDB(data: UserIn, id: ObjectId, role: Role, createdAt: int,
                           updatedAt: Option<int>, profileImage: Option<string>)

  /** A `UserDB` built with the defaulted fields omitted. */
  function NewUserDB(data: UserIn, id: ObjectId, now: int): (u: UserDB)
    ensures u.role == User && u.updatedAt.None? && u.profileImage.None?
    ensures u.data == data && u.id == id && u.createdAt == now
  {
    UserDB(data, id, User, now, None, None)
  }

  /** `UserUpdate`: every field optional. */
  datatype UserUpdate = UserUpdate(
    username: Option<string>, email: Option<string>, password: Option<string>, title: Option<string>,
    location: Option<string>, age: Option<int>, about: Option<string>, skills: Option<seq<string>>,
    experience: Option<string>)

  predicate ValidUserUpdate(p: UserUpdate) {
    && (p.username.Some? ==> LengthIn(p.username.value, 3, 30))
    && (p.password.Some? ==> LengthIn(p.password.value, 6, 30))
    && (p.age.Some? ==> p.age.value >= 16)
    && (p.about.Some? ==> |p.about.value| <= 160)
    && (p.experience.Some? ==> |p.experience.value| <= 300)
  }

  /** An update that sets every field of a `UserIn`. */
  function FullUpdate(u: UserIn): UserUpdate {
    UserUpdate(Some(u.username), Some(u.email), Some(u.password), Some(u.title), Some(u.location),
               Some(u.age), Some(u.about), Some(u.skills), u.experience)
  }

  /** The empty update is valid, and a full update is valid exactly when the record it
      carries is: the update applies the same bounds. */
  lemma UpdateBoundsMatch(u: UserIn)
    ensures ValidUserUpdate(UserUpdate(None, None, None, None, None, None, None, None, None))
    ensures ValidUserUpdate(FullUpdate(u)) <==> ValidUserIn(u)
  {
  }
}
