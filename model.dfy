/** The `users` table record (src/auth/model.py) and its defaults. */
module Model {
  import opened Common

  /** `GenderEnum`: the record's two genders, spelled in lower case. */
  datatype Gender = Male | Female

  function GenderValue(g: Gender): (s: string)
    ensures s == "male" || s == "female"
  {
    match g
    case Male => "male"
    case Female => "female"
  }

  /** Looking an enum member up by its value, as `GenderEnum(s)` does. */
  function GenderFromValue(s: string): (r: Option<Gender>)
    ensures r.Some? <==> s == "male" || s == "female"
    ensures r.Some? ==> GenderValue(r.value) == s
  {
    if s == "male" then Some(Male)
    else if s == "female" then Some(Female)
    else None
  }

  /** The two values are distinct and each parses back to its member. */
  lemma GenderRoundTrip(g: Gender)
    ensures GenderFromValue(GenderValue(g)) == Some(g)
    ensures forall h: Gender :: GenderValue(h) == GenderValue(g) ==> h == g
  {
  }

  /** Primary keys are UUIDs; a UUID is modelled by its 128-bit integer. */
  type Uid = n: nat | n < 0x1_0000_0000_0000_0000_0000_0000_0000_0000

  /** A stored account.  Timestamps are seconds on the server clock. */
  datatype User = User(
    uid: Uid,
    username: string,
    passwordHash: string,
    email: string,
    firstName: string,
    lastName: string,
    ucin: string,
    dateOfBirth: string,
    gender: Gender,
    isVerified: bool,
    role: string,
    totpSecret: Option<string>,
    enabled2fa: bool,
    createdAt: int,
    updatedAt: int)

  const DefaultRole: string := "clan"

  /** `User(...)` given the required columns: `uid` comes from the UUID
      source, both timestamps from the clock reading `now`, and every column
      with a declared default takes it. */
  function NewUser(uid: Uid, username: string, passwordHash: string, email: string,
                   firstName: string, lastName: string, ucin: string,
                   dateOfBirth: string, gender: Gender, now: int): (u: User)
    ensures u.uid == uid && u.username == username && u.passwordHash == passwordHash
    ensures u.email == email && u.firstName == firstName && u.lastName == lastName
    ensures u.ucin == ucin && u.dateOfBirth == dateOfBirth && u.gender == gender
    ensures !u.isVerified
    ensures u.role == "clan"
    ensures u.totpSecret == None && !u.enabled2fa
    ensures u.createdAt == now && u.updatedAt == now
  {
    User(uid, username, passwordHash, email, firstName, lastName, ucin, dateOfBirth,
         gender, false, DefaultRole, None, false, now, now)
  }

  /** Records are keyed by uid: no two rows of a table share one. */
  predicate DistinctUids(users: seq<User>)
  {
    forall i, j :: 0 <= i < j < |users| ==> users[i].uid != users[j].uid
  }

  /** Email, username and UCIN pairwise distinct, the uniqueness the signup
      guard checks for.  The record declares no such constraint. */
  predicate UniqueKeys(users: seq<User>)
  {
    forall i, j :: 0 <= i < j < |users| ==> !SharesKey(users[i], users[j])
  }

  /** Two records collide when they share an email, a username or a UCIN. */
  predicate SharesKey(a: User, b: User)
  {
    a.email == b.email || a.username == b.username || a.ucin == b.ucin
  }

  /** Nothing at record level forbids two rows with the same email, username
      and UCIN: a table of two such rows is well keyed by uid. */
  lemma NoRecordLevelUniqueness(a: User)
    requires a.uid == 0
    ensures DistinctUids([a, a.(uid := 1)]) && !UniqueKeys([a, a.(uid := 1)])
  {
    var t := [a, a.(uid := 1)];
    assert SharesKey(t[0], t[1]);
  }
}
