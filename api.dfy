/** The account endpoints of src/auth/api.py: the signup guard and the
    user listing. */
module Api {
  import opened Common
  import opened Model
  import opened Serializers
  import opened Service

  const AlreadyExists: string := "User already exists, email, username or UCIN is already taken"

  /** The row a successful signup inserts. */
  function SignedUpUser(input: UserCreate, hash: string -> string, uid: Uid, now: int): (u: User)
    ensures u.passwordHash == hash(input.password) && SameInputFields(u, input)
    ensures u.uid == uid && u.role == "clan" && !u.isVerified
    ensures u.totpSecret == None && !u.enabled2fa
    ensures u.createdAt == now && u.updatedAt == now
  {
    FromCreate(input, uid, now).(passwordHash := hash(input.password))
  }

  /** The existence check is exactly the condition under which appending a
      row keeps emails, usernames and UCINs pairwise distinct. */
  lemma {:induction false} GuardKeepsKeysUnique(users: seq<User>, u: User)
    requires UniqueKeys(users)
    ensures UniqueKeys(users + [u]) <==> !UserExists(users, u.email, u.username, u.ucin)
  {
    var t := users + [u];
    if UserExists(users, u.email, u.username, u.ucin) {
      var i :| 0 <= i < |users| &&
        (users[i].email == u.email || users[i].username == u.username || users[i].ucin == u.ucin);
      assert t[i] == users[i] && t[|users|] == u;
      assert SharesKey(t[i], t[|users|]);
    } else {
      forall i, j | 0 <= i < j < |t| ensures !SharesKey(t[i], t[j]) {
        if j == |users| {
          assert t[i] == users[i] && t[j] == u;
        } else {
          assert t[i] == users[i] && t[j] == users[j];
        }
      }
    }
  }

  /** The service call alone does not keep the keys unique: inserting a
      second account with the same email into a one-row table is accepted. */
  lemma UnguardedCreateCanDuplicate(a: User, input: UserCreate, hash: string -> string)
    requires a.uid == 0 && input.email == a.email
    ensures UidFree([a], 1) && UniqueKeys([a])
    ensures !UniqueKeys([a] + [SignedUpUser(input, hash, 1, 0)])
  {
    var t := [a] + [SignedUpUser(input, hash, 1, 0)];
    assert SharesKey(t[0], t[1]);
  }

  /** `create_user` (the signup endpoint): a body whose email, username or
      UCIN is taken is rejected with 403 and nothing stored; otherwise the
      service creates exactly one row and returns it. */
  method Signup(svc: UserService, input: UserCreate, hash: string -> string, uid: Uid, now: int)
    returns (r: Result<User, Exception>)
    requires svc.Valid()
    modifies svc
    ensures svc.Valid()
    ensures UserExists(old(svc.users), input.email, input.username, input.ucin) ==>
              r == Err(Forbidden(AlreadyExists)) && svc.users == old(svc.users)
    ensures !UserExists(old(svc.users), input.email, input.username, input.ucin) ==>
              && (r.Ok? <==> UidFree(old(svc.users), uid))
              && (r.Ok? ==> r.value == SignedUpUser(input, hash, uid, now) &&
                            svc.users == old(svc.users) + [r.value])
              && (r.Err? ==> r == Err(IntegrityError) && svc.users == old(svc.users))
    ensures UniqueKeys(old(svc.users)) ==> UniqueKeys(svc.users)
  {
    var taken := UserExists(svc.users, input.email, input.username, input.ucin);
    if taken {
      r := Err(Forbidden(AlreadyExists));
    } else {
      ghost var before := svc.users;
      r := svc.CreateUser(input, hash, uid, now);
      if r.Ok? && UniqueKeys(before) {
        GuardKeepsKeysUnique(before, r.value);
      }
    }
  }

  /** `get_all_users` (the endpoint): the role is fixed to "admin", so the
      401 branch is never taken and every row is returned, ordered by uid. */
  function ListAllUsers(users: seq<User>): (r: Result<seq<User>, Exception>)
    ensures r.Ok?
    ensures SortedByUid(r.value) && multiset(r.value) == multiset(users)
  {
    var role := "admin";
    if role == "admin" then Ok(GetAllUsers(users))
    else Err(HttpException(401, "You are not allowed"))
  }
}
