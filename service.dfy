/** The user store and its operations (src/auth/service.py).  The table is a
    sequence of records in insertion order; queries are functions over it and
    the operations that change it are methods of `UserService`. */
module Service {
  import opened Common
  import opened Model
  import opened Serializers

  // ---------------------------------------------------------------------
  // Queries
  // ---------------------------------------------------------------------

  /** The position of the first row satisfying `p`. */
  function FirstIndex(users: seq<User>, p: User -> bool): (r: Option<nat>)
    ensures r.Some? ==> r.value < |users| && p(users[r.value])
    ensures r.Some? ==> forall k :: 0 <= k < r.value ==> !p(users[k])
    ensures r.None? <==> forall k :: 0 <= k < |users| ==> !p(users[k])
  {
    if users == [] then None
    else if p(users[0]) then Some(0)
    else match FirstIndex(users[1..], p)
         case None => None
         case Some(k) => Some(k + 1)
  }

  /** `result.first()` of a filtered select. */
  function FirstUser(users: seq<User>, p: User -> bool): (r: Option<User>)
    ensures r.Some? ==> r.value in users && p(r.value)
    ensures r.None? <==> forall u :: u in users ==> !p(u)
    ensures r.Some? ==> exists i :: 0 <= i < |users| && users[i] == r.value &&
                                    forall k :: 0 <= k < i ==> !p(users[k])
  {
    match FirstIndex(users, p)
    case None => None
    case Some(i) => Some(users[i])
  }

  /** `a` is `b` with some elements left out, the rest in their order. */
  predicate IsSubsequence(a: seq<User>, b: seq<User>)
    decreases |b|
  {
    if a == [] then true
    else if b == [] then false
    else (a[0] == b[0] && IsSubsequence(a[1..], b[1..])) || IsSubsequence(a, b[1..])
  }

  /** `result.all()` of a filtered select: the matching rows, in table order. */
  function Filter(users: seq<User>, p: User -> bool): (r: seq<User>)
    ensures forall u :: u in r <==> u in users && p(u)
    ensures |r| <= |users|
    ensures multiset(r) <= multiset(users)
    ensures IsSubsequence(r, users)
  {
    if users == [] then []
    else
      assert users == [users[0]] + users[1..];
      if p(users[0]) then [users[0]] + Filter(users[1..], p)
      else Filter(users[1..], p)
  }

  function GetUserByEmail(users: seq<User>, email: string): (r: Option<User>)
    ensures r.Some? ==> r.value in users && r.value.email == email
    ensures r.None? <==> forall u :: u in users ==> u.email != email
  {
    FirstUser(users, (u: User) => u.email == email)
  }

  function GetUserByUsername(users: seq<User>, username: string): (r: Option<User>)
    ensures r.Some? ==> r.value in users && r.value.username == username
    ensures r.None? <==> forall u :: u in users ==> u.username != username
  {
    FirstUser(users, (u: User) => u.username == username)
  }

  function GetUserByUcin(users: seq<User>, ucin: string): (r: Option<User>)
    ensures r.Some? ==> r.value in users && r.value.ucin == ucin
    ensures r.None? <==> forall u :: u in users ==> u.ucin != ucin
  {
    FirstUser(users, (u: User) => u.ucin == ucin)
  }

  function GetUserByUid(users: seq<User>, uid: Uid): (r: Option<User>)
    ensures r.Some? ==> r.value in users && r.value.uid == uid
    ensures r.None? <==> forall u :: u in users ==> u.uid != uid
  {
    FirstUser(users, (u: User) => u.uid == uid)
  }

  /** With uids distinct, the row found by uid is the only one with it. */
  lemma UidLookupUnique(users: seq<User>, uid: Uid, i: nat)
    requires DistinctUids(users) && i < |users| && users[i].uid == uid
    ensures GetUserByUid(users, uid) == Some(users[i])
  {
    var j := FirstIndex(users, (u: User) => u.uid == uid);
    assert j.Some? && j.value <= i;
    assert users[j.value].uid == users[i].uid;
  }

  function GetUsersByFirstName(users: seq<User>, firstName: string): (r: seq<User>)
    ensures forall u :: u in r <==> u in users && u.firstName == firstName
    ensures multiset(r) <= multiset(users) && IsSubsequence(r, users)
  {
    Filter(users, (u: User) => u.firstName == firstName)
  }

  function GetUsersByLastName(users: seq<User>, lastName: string): (r: seq<User>)
    ensures forall u :: u in r <==> u in users && u.lastName == lastName
    ensures multiset(r) <= multiset(users) && IsSubsequence(r, users)
  {
    Filter(users, (u: User) => u.lastName == lastName)
  }

  function GetUsersByDateOfBirth(users: seq<User>, dateOfBirth: string): (r: seq<User>)
    ensures forall u :: u in r <==> u in users && u.dateOfBirth == dateOfBirth
    ensures multiset(r) <= multiset(users) && IsSubsequence(r, users)
  {
    Filter(users, (u: User) => u.dateOfBirth == dateOfBirth)
  }

  /** The gender column is compared with the given text. */
  function GetUsersByGender(users: seq<User>, gender: string): (r: seq<User>)
    ensures forall u :: u in r <==> u in users && GenderValue(u.gender) == gender
    ensures multiset(r) <= multiset(users) && IsSubsequence(r, users)
  {
    Filter(users, (u: User) => GenderValue(u.gender) == gender)
  }

  /** Asking for users with a gender spelled as the signup input spells it
      ("Male", "Female") finds nobody: the record spells it in lower case. */
  lemma SerializerSpellingFindsNoGender(users: seq<User>, g: SerializerGender)
    ensures GetUsersByGender(users, SerializerGenderValue(g)) == []
  {
    FilterNoneKept(users, (u: User) => GenderValue(u.gender) == SerializerGenderValue(g));
  }

  /** `user_exists`: some row shares the email OR the username OR the UCIN. */
  function UserExists(users: seq<User>, email: string, username: string, ucin: string): (b: bool)
    ensures b <==> exists i :: 0 <= i < |users| &&
                     (users[i].email == email || users[i].username == username || users[i].ucin == ucin)
  {
    FirstIndex(users, (u: User) => u.email == email || u.username == username || u.ucin == ucin).Some?
  }

  // ---------------------------------------------------------------------
  // Ordering by uid
  // ---------------------------------------------------------------------

  predicate SortedByUid(s: seq<User>)
  {
    forall i, j :: 0 <= i < j < |s| ==> s[i].uid <= s[j].uid
  }

  /** Every row of `s` has a uid at least `b`. */
  predicate UidsAtLeast(b: int, s: seq<User>)
  {
    forall y :: y in s ==> b <= y.uid
  }

  lemma SortedTail(s: seq<User>)
    requires SortedByUid(s) && s != []
    ensures SortedByUid(s[1..]) && UidsAtLeast(s[0].uid, s[1..])
  {
    forall y | y in s[1..] ensures s[0].uid <= y.uid {
      var k :| 0 <= k < |s[1..]| && s[1..][k] == y;
      assert s[k + 1] == y;
    }
  }

  lemma SortedCons(x: User, s: seq<User>)
    requires SortedByUid(s) && UidsAtLeast(x.uid, s)
    ensures SortedByUid([x] + s)
  {
    var r := [x] + s;
    forall i, j | 0 <= i < j < |r| ensures r[i].uid <= r[j].uid {
      assert r[j] == s[j - 1] && r[j] in s;
      if i > 0 { assert r[i] == s[i - 1]; }
    }
  }

  /** A bound below the head of a sorted sequence bounds all of it. */
  lemma HeadBound(b: int, s: seq<User>)
    requires SortedByUid(s) && s != [] && b <= s[0].uid
    ensures UidsAtLeast(b, s)
  {
    forall y | y in s ensures b <= y.uid {
      var k :| 0 <= k < |s| && s[k] == y;
      if k > 0 { assert s[0].uid <= s[k].uid; }
    }
  }

  /** A bound on `t` and on `u` bounds anything with the rows of `t` plus `u`. */
  lemma InsertedBound(b: int, u: User, t: seq<User>, r: seq<User>)
    requires UidsAtLeast(b, t) && b <= u.uid && multiset(r) == multiset(t) + multiset{u}
    ensures UidsAtLeast(b, r)
  {
    forall y | y in r ensures b <= y.uid {
      assert y in multiset(r);
      assert y == u || y in multiset(t);
    }
  }

  function InsertByUid(u: User, s: seq<User>): (r: seq<User>)
    requires SortedByUid(s)
    ensures SortedByUid(r)
    ensures multiset(r) == multiset(s) + multiset{u}
    ensures |r| == |s| + 1
  {
    if s == [] then [u]
    else if u.uid <= s[0].uid then
      HeadBound(u.uid, s);
      SortedCons(u, s);
      [u] + s
    else
      SortedTail(s);
      var rest := InsertByUid(u, s[1..]);
      assert s == [s[0]] + s[1..];
      InsertedBound(s[0].uid, u, s[1..], rest);
      SortedCons(s[0], rest);
      [s[0]] + rest
  }

  function SortByUid(s: seq<User>): (r: seq<User>)
    ensures SortedByUid(r)
    ensures multiset(r) == multiset(s)
  {
    if s == [] then []
    else
      assert s == [s[0]] + s[1..];
      InsertByUid(s[0], SortByUid(s[1..]))
  }

  /** `get_all_users`: every stored row, ordered by uid. */
  function GetAllUsers(users: seq<User>): (r: seq<User>)
    ensures SortedByUid(r)
    ensures multiset(r) == multiset(users)
    ensures |r| == |users|
    ensures forall u :: u in r <==> u in users
  {
    var r := SortByUid(users);
    assert |r| == |multiset(r)| == |multiset(users)| == |users|;
    assert forall u :: u in r <==> u in multiset(r);
    r
  }

  // ---------------------------------------------------------------------
  // Field patches (the setattr loops)
  // ---------------------------------------------------------------------

  datatype Column =
    | UidCol | UsernameCol | PasswordHashCol | EmailCol | FirstNameCol | LastNameCol
    | UcinCol | DateOfBirthCol | GenderCol | IsVerifiedCol | RoleCol | TotpSecretCol
    | Enabled2faCol | CreatedAtCol | UpdatedAtCol

  datatype ColumnValue =
    | UidVal(n: Uid) | StrVal(s: string) | BoolVal(b: bool) | GenderVal(g: Gender)
    | OptStrVal(o: Option<string>) | IntVal(i: int)

  /** `getattr(user, column)`. */
  function Get(u: User, c: Column): ColumnValue
  {
    match c
    case UidCol => UidVal(u.uid)
    case UsernameCol => StrVal(u.username)
    case PasswordHashCol => StrVal(u.passwordHash)
    case EmailCol => StrVal(u.email)
    case FirstNameCol => StrVal(u.firstName)
    case LastNameCol => StrVal(u.lastName)
    case UcinCol => StrVal(u.ucin)
    case DateOfBirthCol => StrVal(u.dateOfBirth)
    case GenderCol => GenderVal(u.gender)
    case IsVerifiedCol => BoolVal(u.isVerified)
    case RoleCol => StrVal(u.role)
    case TotpSecretCol => OptStrVal(u.totpSecret)
    case Enabled2faCol => BoolVal(u.enabled2fa)
    case CreatedAtCol => IntVal(u.createdAt)
    case UpdatedAtCol => IntVal(u.updatedAt)
  }

  /** One `key: value` entry of the dict handed to a patch. */
  datatype Assignment =
    | SetUsername(s: string) | SetPasswordHash(s: string) | SetEmail(s: string)
    | SetFirstName(s: string) | SetLastName(s: string) | SetUcin(s: string)
    | SetDateOfBirth(s: string) | SetGender(g: Gender) | SetIsVerified(b: bool)
    | SetRole(s: string) | SetTotpSecret(o: Option<string>) | SetEnabled2fa(b: bool)
    | SetCreatedAt(i: int) | SetUpdatedAt(i: int)

  function Target(a: Assignment): Column
  {
    match a
    case SetUsername(_) => UsernameCol
    case SetPasswordHash(_) => PasswordHashCol
    case SetEmail(_) => EmailCol
    case SetFirstName(_) => FirstNameCol
    case SetLastName(_) => LastNameCol
    case SetUcin(_) => UcinCol
    case SetDateOfBirth(_) => DateOfBirthCol
    case SetGender(_) => GenderCol
    case SetIsVerified(_) => IsVerifiedCol
    case SetRole(_) => RoleCol
    case SetTotpSecret(_) => TotpSecretCol
    case SetEnabled2fa(_) => Enabled2faCol
    case SetCreatedAt(_) => CreatedAtCol
    case SetUpdatedAt(_) => UpdatedAtCol
  }

  function NewValue(a: Assignment): ColumnValue
  {
    match a
    case SetUsername(s) => StrVal(s)
    case SetPasswordHash(s) => StrVal(s)
    case SetEmail(s) => StrVal(s)
    case SetFirstName(s) => StrVal(s)
    case SetLastName(s) => StrVal(s)
    case SetUcin(s) => StrVal(s)
    case SetDateOfBirth(s) => StrVal(s)
    case SetGender(g) => GenderVal(g)
    case SetIsVerified(b) => BoolVal(b)
    case SetRole(s) => StrVal(s)
    case SetTotpSecret(o) => OptStrVal(o)
    case SetEnabled2fa(b) => BoolVal(b)
    case SetCreatedAt(i) => IntVal(i)
    case SetUpdatedAt(i) => IntVal(i)
  }

  /** `setattr(user, k, v)`: column `k` now reads `v`; every other column,
      the uid included, is unchanged. */
  function SetAttr(u: User, a: Assignment): (r: User)
    ensures Get(r, Target(a)) == NewValue(a)
    ensures forall c :: c != Target(a) ==> Get(r, c) == Get(u, c)
    ensures r.uid == u.uid
  {
    match a
    case SetUsername(s) => u.(username := s)
    case SetPasswordHash(s) => u.(passwordHash := s)
    case SetEmail(s) => u.(email := s)
    case SetFirstName(s) => u.(firstName := s)
    case SetLastName(s) => u.(lastName := s)
    case SetUcin(s) => u.(ucin := s)
    case SetDateOfBirth(s) => u.(dateOfBirth := s)
    case SetGender(g) => u.(gender := g)
    case SetIsVerified(b) => u.(isVerified := b)
    case SetRole(s) => u.(role := s)
    case SetTotpSecret(o) => u.(totpSecret := o)
    case SetEnabled2fa(b) => u.(enabled2fa := b)
    case SetCreatedAt(i) => u.(createdAt := i)
    case SetUpdatedAt(i) => u.(updatedAt := i)
  }

  /** The record after the entries of `patch` have been applied in order. */
  function ApplyPatch(u: User, patch: seq<Assignment>): User
  {
    if patch == [] then u
    else SetAttr(ApplyPatch(u, patch[..|patch| - 1]), patch[|patch| - 1])
  }

  /** The value the last entry for column `c` writes, if any entry does. */
  function LastWrite(patch: seq<Assignment>, c: Column): Option<ColumnValue>
  {
    if patch == [] then None
    else if Target(patch[|patch| - 1]) == c then Some(NewValue(patch[|patch| - 1]))
    else LastWrite(patch[..|patch| - 1], c)
  }

  /** A patch sets each column it names to the value it gives (the last one,
      should a column be named twice) and leaves every other column as it was. */
  lemma {:induction false} PatchEffect(u: User, patch: seq<Assignment>, c: Column)
    ensures Get(ApplyPatch(u, patch), c) ==
              match LastWrite(patch, c) case Some(v) => v case None => Get(u, c)
  {
    if patch != [] {
      PatchEffect(u, patch[..|patch| - 1], c);
    }
  }

  /** No patch changes a record's uid. */
  lemma {:induction false} PatchKeepsUid(u: User, patch: seq<Assignment>)
    ensures ApplyPatch(u, patch).uid == u.uid
  {
    if patch != [] {
      PatchKeepsUid(u, patch[..|patch| - 1]);
    }
  }

  /** The table once the in-memory record `u` is committed: the row sharing
      its uid takes its new column values. */
  function ReplaceRow(users: seq<User>, u: User): (r: seq<User>)
    ensures |r| == |users|
    ensures forall i :: 0 <= i < |users| ==> r[i] == (if users[i].uid == u.uid then u else users[i])
    ensures forall i :: 0 <= i < |users| ==> r[i].uid == users[i].uid
  {
    seq(|users|, i requires 0 <= i < |users| => if users[i].uid == u.uid then u else users[i])
  }

  // ---------------------------------------------------------------------
  // Building a record from a signup body
  // ---------------------------------------------------------------------

  /** The record's enum member for the input's enum member, matched by
      member name (`male`, `female`); the two enums spell their values
      differently. */
  function RecordGender(g: SerializerGender): (r: Gender)
    ensures GenderValue(r) != SerializerGenderValue(g)
    ensures (g == MaleChoice) <==> (r == Male)
  {
    match g
    case MaleChoice => Male
    case FemaleChoice => Female
  }

  /** `User(**user_data.model_dump())`: the plaintext still sits in
      `password_hash` until the caller overwrites it. */
  function FromCreate(input: UserCreate, uid: Uid, now: int): (u: User)
    ensures u.passwordHash == input.password
    ensures SameInputFields(u, input)
    ensures u.uid == uid && !u.isVerified && u.role == DefaultRole
    ensures u.totpSecret == None && !u.enabled2fa
    ensures u.createdAt == now && u.updatedAt == now
  {
    NewUser(uid, input.username, input.password, input.email, input.firstName,
            input.lastName, input.ucin, input.dateOfBirth, RecordGender(input.gender), now)
  }

  /** Every column that comes from the signup body, other than the password. */
  predicate SameInputFields(u: User, input: UserCreate)
  {
    && u.username == input.username && u.email == input.email
    && u.firstName == input.firstName && u.lastName == input.lastName
    && u.ucin == input.ucin && u.dateOfBirth == input.dateOfBirth
    && u.gender == RecordGender(input.gender)
  }

  predicate UidFree(users: seq<User>, uid: Uid)
  {
    forall i :: 0 <= i < |users| ==> users[i].uid != uid
  }

  // ---------------------------------------------------------------------
  // Facts about removal
  // ---------------------------------------------------------------------

  /** No row of `s` has the uid `uid`... */
  predicate UidAbsent(uid: Uid, s: seq<User>)
  {
    forall y :: y in s ==> y.uid != uid
  }

  /** ...and no row of `s` collides with `x`. */
  predicate NoCollision(x: User, s: seq<User>)
  {
    forall y :: y in s ==> !SharesKey(x, y)
  }

  lemma DistinctTail(users: seq<User>)
    requires users != []
    ensures DistinctUids(users) ==> DistinctUids(users[1..]) && UidAbsent(users[0].uid, users[1..])
    ensures UniqueKeys(users) ==> UniqueKeys(users[1..]) && NoCollision(users[0], users[1..])
  {
    forall y | y in users[1..]
      ensures exists k :: 1 <= k < |users| && users[k] == y
    {
      var k :| 0 <= k < |users[1..]| && users[1..][k] == y;
      assert users[k + 1] == y;
    }
  }

  lemma DistinctCons(x: User, s: seq<User>)
    ensures DistinctUids(s) && UidAbsent(x.uid, s) ==> DistinctUids([x] + s)
    ensures UniqueKeys(s) && NoCollision(x, s) ==> UniqueKeys([x] + s)
  {
    var r := [x] + s;
    forall i, j | 0 < i < j < |r| ensures r[i] == s[i - 1] && r[j] == s[j - 1] {}
    forall j | 0 < j < |r| ensures r[j] in s { assert r[j] == s[j - 1]; }
  }

  /** Keeping some rows keeps the uids distinct and the keys unique. */
  lemma {:induction false} FilterKeepsDistinct(users: seq<User>, p: User -> bool)
    ensures DistinctUids(users) ==> DistinctUids(Filter(users, p))
    ensures UniqueKeys(users) ==> UniqueKeys(Filter(users, p))
  {
    if users != [] {
      var rest := Filter(users[1..], p);
      FilterKeepsDistinct(users[1..], p);
      DistinctTail(users);
      assert users == [users[0]] + users[1..];
      if p(users[0]) {
        assert Filter(users, p) == [users[0]] + rest;
        DistinctCons(users[0], rest);
      } else {
        assert Filter(users, p) == rest;
      }
    }
  }

  /** The table without the rows of one uid. */
  function Without(users: seq<User>, uid: Uid): (r: seq<User>)
    ensures forall u :: u in r <==> u in users && u.uid != uid
  {
    Filter(users, OtherUid(uid))
  }

  function OtherUid(uid: Uid): User -> bool
  {
    (u: User) => u.uid != uid
  }

  /** With distinct uids, deleting a present uid removes exactly that row. */
  lemma {:induction false} WithoutRemovesOne(users: seq<User>, uid: Uid, i: nat)
    requires DistinctUids(users) && i < |users| && users[i].uid == uid
    ensures multiset(Without(users, uid)) == multiset(users) - multiset{users[i]}
  {
    var tail := users[1..];
    assert users == [users[0]] + tail;
    DistinctTail(users);
    if i == 0 {
      WithoutHead(users, uid);
    } else {
      assert users[0].uid != users[i].uid;
      WithoutRemovesOne(tail, uid, i - 1);
      assert tail[i - 1] == users[i];
      WithoutCons(users, uid);
      assert users[i] in multiset(tail);
    }
  }

  lemma WithoutHead(users: seq<User>, uid: Uid)
    requires users != [] && users[0].uid == uid && UidAbsent(uid, users[1..])
    ensures Without(users, uid) == users[1..]
    ensures multiset(users[1..]) == multiset(users) - multiset{users[0]}
  {
    var tail := users[1..];
    assert users == [users[0]] + tail;
    assert forall k :: 0 <= k < |tail| ==> tail[k] in tail;
    FilterAllKept(tail, OtherUid(uid));
  }

  lemma WithoutCons(users: seq<User>, uid: Uid)
    requires users != [] && users[0].uid != uid
    ensures Without(users, uid) == [users[0]] + Without(users[1..], uid)
  {
    assert users == [users[0]] + users[1..];
  }

  lemma {:induction false} FilterNoneKept(users: seq<User>, p: User -> bool)
    requires forall k :: 0 <= k < |users| ==> !p(users[k])
    ensures Filter(users, p) == []
  {
    if users != [] {
      FilterNoneKept(users[1..], p);
    }
  }

  lemma {:induction false} FilterAllKept(users: seq<User>, p: User -> bool)
    requires forall k :: 0 <= k < |users| ==> p(users[k])
    ensures Filter(users, p) == users
  {
    if users != [] {
      FilterAllKept(users[1..], p);
    }
  }

  // ---------------------------------------------------------------------
  // The store
  // ---------------------------------------------------------------------

  const Deleted: Claims := map[]

  class UserService {
    /** The rows of the `users` table, in insertion order. */
    var users: seq<User>

    ghost predicate Valid()
      reads this
    {
      DistinctUids(users)
    }

    constructor (initial: seq<User>)
      requires DistinctUids(initial)
      ensures Valid() && users == initial
    {
      users := initial;
    }

    /** `session.add(new_user)` then `commit()`: a row whose uid is taken
        violates the primary key and nothing is written. */
    method Add(u: User) returns (r: Result<User, Exception>)
      requires Valid()
      modifies this
      ensures Valid()
      ensures r.Ok? <==> UidFree(old(users), u.uid)
      ensures r.Ok? ==> r.value == u && users == old(users) + [u]
      ensures r.Err? ==> r.error == IntegrityError && users == old(users)
    {
      if GetUserByUid(users, u.uid).Some? {
        r := Err(IntegrityError);
      } else {
        users := users + [u];
        r := Ok(u);
      }
    }

    /** `create_user`: a new row with the hashed password, role "clan",
        unverified. */
    method CreateUser(input: UserCreate, hash: string -> string, uid: Uid, now: int)
      returns (r: Result<User, Exception>)
      requires Valid()
      modifies this
      ensures Valid()
      ensures r.Ok? <==> UidFree(old(users), uid)
      ensures r.Ok? ==> users == old(users) + [r.value]
      ensures r.Ok? ==> r.value.passwordHash == hash(input.password) && SameInputFields(r.value, input)
      ensures r.Ok? ==> r.value.uid == uid && r.value.role == "clan" && !r.value.isVerified
      ensures r.Ok? ==> r.value.totpSecret == None && !r.value.enabled2fa
      ensures r.Ok? ==> r.value.createdAt == now && r.value.updatedAt == now
      ensures r.Err? ==> r.error == IntegrityError && users == old(users)
    {
      var newUser := FromCreate(input, uid, now);
      newUser := newUser.(passwordHash := hash(input.password));
      r := Add(newUser);
    }

    /** `create_user_admin`: as `create_user`, with role "admin", verified. */
    method CreateUserAdmin(input: UserCreate, hash: string -> string, uid: Uid, now: int)
      returns (r: Result<User, Exception>)
      requires Valid()
      modifies this
      ensures Valid()
      ensures r.Ok? <==> UidFree(old(users), uid)
      ensures r.Ok? ==> users == old(users) + [r.value]
      ensures r.Ok? ==> r.value.passwordHash == hash(input.password) && SameInputFields(r.value, input)
      ensures r.Ok? ==> r.value.uid == uid && r.value.role == "admin" && r.value.isVerified
      ensures r.Ok? ==> r.value.totpSecret == None && !r.value.enabled2fa
      ensures r.Ok? ==> r.value.createdAt == now && r.value.updatedAt == now
      ensures r.Err? ==> r.error == IntegrityError && users == old(users)
    {
      var newUser := FromCreate(input, uid, now);
      newUser := newUser.(passwordHash := hash(input.password));
      newUser := newUser.(role := "admin");
      newUser := newUser.(isVerified := true);
      r := Add(newUser);
    }

    /** `create_user_some_role`: role is the literal "role_name"; the
        verification flag keeps its default. */
    method CreateUserSomeRole(input: UserCreate, hash: string -> string, uid: Uid, now: int)
      returns (r: Result<User, Exception>)
      requires Valid()
      modifies this
      ensures Valid()
      ensures r.Ok? <==> UidFree(old(users), uid)
      ensures r.Ok? ==> users == old(users) + [r.value]
      ensures r.Ok? ==> r.value.passwordHash == hash(input.password) && SameInputFields(r.value, input)
      ensures r.Ok? ==> r.value.uid == uid && r.value.role == "role_name" && !r.value.isVerified
      ensures r.Ok? ==> r.value.totpSecret == None && !r.value.enabled2fa
      ensures r.Ok? ==> r.value.createdAt == now && r.value.updatedAt == now
      ensures r.Err? ==> r.error == IntegrityError && users == old(users)
    {
      var newUser := FromCreate(input, uid, now);
      newUser := newUser.(passwordHash := hash(input.password));
      newUser := newUser.(role := "role_name");
      r := Add(newUser);
    }

    /** `delete_user`: `{}` after removing the row of a present uid,
        `None` and no change for an absent one. */
    method DeleteUser(uid: Uid) returns (r: Option<Claims>)
      requires Valid()
      modifies this
      ensures Valid()
      ensures UidFree(old(users), uid) ==> r == None && users == old(users)
      ensures !UidFree(old(users), uid) ==>
                r == Some(Deleted) && users == Without(old(users), uid)
      ensures forall i :: 0 <= i < |old(users)| && old(users)[i].uid == uid ==>
                multiset(users) == multiset(old(users)) - multiset{old(users)[i]}
      ensures UniqueKeys(old(users)) ==> UniqueKeys(users)
    {
      var target := GetUserByUid(users, uid);
      if target.Some? {
        FilterKeepsDistinct(users, OtherUid(uid));
        forall i | 0 <= i < |users| && users[i].uid == uid
          ensures multiset(Without(users, uid)) == multiset(users) - multiset{users[i]}
        {
          WithoutRemovesOne(users, uid, i);
        }
        users := Without(users, uid);
        r := Some(Deleted);
      } else {
        r := None;
      }
    }

    /** The `for k, v in user_data.items(): setattr(user, k, v)` loop,
        then `commit()`. */
    method PatchUser(user: User, patch: seq<Assignment>) returns (r: User)
      requires Valid()
      modifies this
      ensures Valid()
      ensures r == ApplyPatch(user, patch) && r.uid == user.uid
      ensures users == ReplaceRow(old(users), r)
    {
      r := user;
      for i := 0 to |patch|
        invariant r == ApplyPatch(user, patch[..i])
      {
        assert patch[..i + 1][..i] == patch[..i];
        r := SetAttr(r, patch[i]);
      }
      assert patch[..|patch|] == patch;
      PatchKeepsUid(user, patch);
      users := ReplaceRow(users, r);
    }

    /** `approve_user`. */
    method ApproveUser(user: User, patch: seq<Assignment>) returns (r: User)
      requires Valid()
      modifies this
      ensures Valid()
      ensures r == ApplyPatch(user, patch) && r.uid == user.uid
      ensures users == ReplaceRow(old(users), r)
    {
      r := PatchUser(user, patch);
    }

    /** `update_user_email_verify`: the same patch loop. */
    method UpdateUserEmailVerify(user: User, patch: seq<Assignment>) returns (r: User)
      requires Valid()
      modifies this
      ensures Valid()
      ensures r == ApplyPatch(user, patch) && r.uid == user.uid
      ensures users == ReplaceRow(old(users), r)
    {
      r := PatchUser(user, patch);
    }
  }
}
