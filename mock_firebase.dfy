/**
 * The in-browser stand-in for a backend: a list of users, a list of submitted
 * documents and the signed-in user, with the login, registration, role, block,
 * invite and document operations that read and rewrite them.
 */
module MockFirebase {
  import opened Wrappers
  import opened Text
  import opened Types
  import Helpers

  const UserNotFound := "User not found (Try super@regipro.com)"
  const AccountBlocked := "Account blocked"
  const InvalidOtp := "Invalid OTP (Use 123456)"
  const DemoOtp := "123456"

  /** The three accounts seeded into an empty store; `createdAt` is the time the
      module was loaded. */
  function InitialUsers(loadTime: int): seq<UserProfile> {
    [ UserProfile("super-1", Some("+919876543210"), Some("super@regipro.com"), "USR-2025-001",
                  SuperAdmin, Active, "Super Admin", loadTime),
      UserProfile("admin-1", Some("+919876543211"), Some("admin@regipro.com"), "USR-2025-002",
                  Admin, Active, "Manager Admin", loadTime),
      UserProfile("cust-1", Some("+919876543212"), Some("customer@regipro.com"), "USR-2025-003",
                  Customer, Active, "Rahul Customer", loadTime) ]
  }

  /** The lookups the store performs with `find` / `findIndex`. */
  datatype UserQuery = ByUid(uid: string) | ByEmail(email: string) | ByPhone(phone: string)

  predicate Matches(u: UserProfile, q: UserQuery) {
    match q
    case ByUid(uid) => u.uid == uid
    case ByEmail(e) => u.email == Some(e)
    case ByPhone(p) => u.phoneNumber == Some(p)
  }

  /** `findIndex`: the position of the first matching user, `None` for -1. */
  function FindUser(users: seq<UserProfile>, q: UserQuery): (r: Option<nat>)
    ensures r.Some? ==> r.value < |users| && Matches(users[r.value], q)
    ensures r.Some? ==> forall j :: 0 <= j < r.value ==> !Matches(users[j], q)
    ensures r.None? <==> forall j :: 0 <= j < |users| ==> !Matches(users[j], q)
  {
    if users == [] then None
    else if Matches(users[0], q) then Some(0)
    else match FindUser(users[1..], q)
      case None => None
      case Some(i) => Some(i + 1)
  }

  /** No two users share a phone number. */
  ghost predicate UniquePhones(users: seq<UserProfile>) {
    forall i, j :: 0 <= i < j < |users| && users[i].phoneNumber.Some? ==>
      users[i].phoneNumber != users[j].phoneNumber
  }

  /** Same length, and the same phone number at every position. */
  ghost predicate SamePhones(a: seq<UserProfile>, b: seq<UserProfile>) {
    |a| == |b| && forall j :: 0 <= j < |a| ==> a[j].phoneNumber == b[j].phoneNumber
  }

  lemma InitialUsersHaveUniquePhones(loadTime: int)
    ensures UniquePhones(InitialUsers(loadTime))
  {
  }

  /** Appending a user whose phone nobody has keeps the phones unique. */
  lemma AppendNewPhone(users: seq<UserProfile>, u: UserProfile)
    requires UniquePhones(users) && u.phoneNumber.Some?
    requires FindUser(users, ByPhone(u.phoneNumber.value)).None?
    ensures UniquePhones(users + [u])
  {
    var us := users + [u];
    forall i, j | 0 <= i < j < |us| && us[i].phoneNumber.Some?
      ensures us[i].phoneNumber != us[j].phoneNumber
    {
      if j == |users| {
        assert !Matches(users[i], ByPhone(u.phoneNumber.value));
      }
    }
  }

  lemma SamePhonesKeepUnique(a: seq<UserProfile>, b: seq<UserProfile>)
    requires UniquePhones(a) && SamePhones(a, b)
    ensures UniquePhones(b)
  {
    forall i, j | 0 <= i < j < |b| && b[i].phoneNumber.Some?
      ensures b[i].phoneNumber != b[j].phoneNumber
    {
      assert a[i].phoneNumber == b[i].phoneNumber && a[j].phoneNumber == b[j].phoneNumber;
    }
  }

  /** `updateUserRole` on the list: only the role of the first user with that uid
      changes; with no such user nothing changes. */
  function WithRole(users: seq<UserProfile>, uid: string, role: UserRole): (r: seq<UserProfile>)
    ensures |r| == |users| && SamePhones(users, r)
    ensures forall j :: 0 <= j < |users| ==> r[j].(role := users[j].role) == users[j]
    ensures forall j :: 0 <= j < |users| && r[j] != users[j] ==> FindUser(users, ByUid(uid)) == Some(j)
    ensures FindUser(users, ByUid(uid)).Some? ==> r[FindUser(users, ByUid(uid)).value].role == role
  {
    match FindUser(users, ByUid(uid))
    case None => users
    case Some(i) => users[i := users[i].(role := role)]
  }

  /** The status `toggleUserBlock` writes: blocked iff the status the caller saw
      was active, and active otherwise (so an invited user becomes active). */
  function ToggledStatus(currentStatus: UserStatus): (s: UserStatus)
    ensures s == Blocked <==> currentStatus == Active
    ensures s != Invited
  {
    if currentStatus == Active then Blocked else Active
  }

  /** `toggleUserBlock` on the list: only the status of the first user with that
      uid changes; with no such user nothing changes. */
  function WithToggledStatus(users: seq<UserProfile>, uid: string, currentStatus: UserStatus): (r: seq<UserProfile>)
    ensures |r| == |users| && SamePhones(users, r)
    ensures forall j :: 0 <= j < |users| ==> r[j].(status := users[j].status) == users[j]
    ensures forall j :: 0 <= j < |users| && r[j] != users[j] ==> FindUser(users, ByUid(uid)) == Some(j)
    ensures FindUser(users, ByUid(uid)).Some? ==>
      r[FindUser(users, ByUid(uid)).value].status == ToggledStatus(currentStatus)
  {
    match FindUser(users, ByUid(uid))
    case None => users
    case Some(i) => users[i := users[i].(status := ToggledStatus(currentStatus))]
  }

  /** `allDocs.filter(d => d.userId === uid)` */
  function DocumentsOf(docs: seq<ServiceDocument>, uid: string): (r: seq<ServiceDocument>)
    ensures |r| <= |docs|
    ensures forall d :: d in r <==> d in docs && d.userId == uid
  {
    if docs == [] then []
    else (if docs[0].userId == uid then [docs[0]] else []) + DocumentsOf(docs[1..], uid)
  }

  /** A document created for `uid` shows up last in that user's list, and leaves
      every other user's list as it was. */
  lemma {:induction false} DocumentsOfAppend(docs: seq<ServiceDocument>, d: ServiceDocument, uid: string)
    ensures DocumentsOf(docs + [d], uid) == DocumentsOf(docs, uid) + (if d.userId == uid then [d] else [])
  {
    if docs != [] {
      assert (docs + [d])[1..] == docs[1..] + [d];
      DocumentsOfAppend(docs[1..], d, uid);
    }
  }

  /** The account `loginWithPhone` registers for an unknown phone. */
  function NewCustomer(phone: string, now: nat, year: nat, draw: nat): UserProfile
    requires draw < 900
  {
    UserProfile("user-" + NatToString(now), Some(phone), None, Helpers.GenerateUserId(year, draw),
                Customer, Active, "New User", now)
  }

  /** The pending account `inviteUser` adds for a phone nobody has. */
  function InvitedUser(phone: string, role: UserRole, now: nat): UserProfile {
    UserProfile("invited-" + NatToString(now), Some(phone), None, "PENDING", role, Invited, "Invited User", now)
  }

  class MockStore {
    /** Whether the users key is present in storage. */
    var usersStored: bool
    var users: seq<UserProfile>
    var docs: seq<ServiceDocument>
    /** The signed-in user, a snapshot taken at login. */
    var currentUser: Option<UserProfile>
    /** When the module was loaded: the `createdAt` of the seeded accounts. */
    const loadTime: int

    ghost predicate Valid()
      reads this
    {
      (!usersStored ==> users == []) && UniquePhones(StoredUsers())
    }

    /** The list `getLocalUsers` hands back: the stored one, or the seed. */
    function StoredUsers(): seq<UserProfile>
      reads this
    {
      if usersStored then users else InitialUsers(loadTime)
    }

    constructor (loadTime: int)
      ensures Valid() && this.loadTime == loadTime
      ensures !usersStored && users == [] && docs == [] && currentUser == None
    {
      this.loadTime := loadTime;
      usersStored, users, docs, currentUser := false, [], [], None;
      new;
      InitialUsersHaveUniquePhones(loadTime);
    }

    /** `getLocalUsers`: seeds an empty store with the three initial accounts and
        returns the stored list. */
    method GetLocalUsers() returns (r: seq<UserProfile>)
      requires Valid()
      modifies this`usersStored, this`users
      ensures Valid() && usersStored
      ensures r == users == old(StoredUsers())
    {
      if !usersStored {
        users := InitialUsers(loadTime);
        usersStored := true;
      }
      r := users;
    }

    /** `getAllUsers` */
    method GetAllUsers() returns (r: seq<UserProfile>)
      requires Valid()
      modifies this`usersStored, this`users
      ensures Valid() && usersStored
      ensures r == users == old(StoredUsers())
    {
      r := GetLocalUsers();
    }

    /** `loginWithEmail`: fails for an unknown e-mail or a blocked account, and
        otherwise signs in the first user with that e-mail. */
    method LoginWithEmail(email: string) returns (r: Result<UserProfile>)
      requires Valid()
      modifies this`usersStored, this`users, this`currentUser
      ensures Valid() && usersStored && users == old(StoredUsers())
      ensures FindUser(users, ByEmail(email)).None? ==>
        r == Failure(UserNotFound) && currentUser == old(currentUser)
      ensures FindUser(users, ByEmail(email)).Some? ==>
        var u := users[FindUser(users, ByEmail(email)).value];
        if u.status == Blocked then r == Failure(AccountBlocked) && currentUser == old(currentUser)
        else r == Success(u) && currentUser == Some(u)
    {
      var us := GetLocalUsers();
      var i := FindUser(us, ByEmail(email));
      if i.None? {
        return Failure(UserNotFound);
      }
      var u := us[i.value];
      if u.status == Blocked {
        return Failure(AccountBlocked);
      }
      currentUser := Some(u);
      r := Success(u);
    }

    /** `loginWithPhone`: rejects any OTP but the demo one before touching the
        store; registers an unknown phone as a new active customer; fails for a
        blocked account; otherwise signs the user in. */
    method LoginWithPhone(phone: string, otp: string, now: nat, year: nat, draw: nat)
      returns (r: Result<UserProfile>)
      requires Valid() && draw < 900
      modifies this`usersStored, this`users, this`currentUser
      ensures Valid()
      ensures otp != DemoOtp ==> r == Failure(InvalidOtp) && unchanged(this)
      ensures otp == DemoOtp && FindUser(old(StoredUsers()), ByPhone(phone)).None? ==>
        var u := NewCustomer(phone, now, year, draw);
        usersStored && users == old(StoredUsers()) + [u] && r == Success(u) && currentUser == Some(u)
      ensures otp == DemoOtp && FindUser(old(StoredUsers()), ByPhone(phone)).Some? ==>
        var u := old(StoredUsers())[FindUser(old(StoredUsers()), ByPhone(phone)).value];
        && usersStored && users == old(StoredUsers())
        && if u.status == Blocked then r == Failure(AccountBlocked) && currentUser == old(currentUser)
           else r == Success(u) && currentUser == Some(u)
    {
      if otp != DemoOtp {
        return Failure(InvalidOtp);
      }
      var us := GetLocalUsers();
      var i := FindUser(us, ByPhone(phone));
      var u;
      if i.None? {
        u := NewCustomer(phone, now, year, draw);
        AppendNewPhone(us, u);
        users := us + [u];
      } else {
        u := us[i.value];
      }
      if u.status == Blocked {
        return Failure(AccountBlocked);
      }
      currentUser := Some(u);
      r := Success(u);
    }

    /** `getCurrentUser` */
    method GetCurrentUser() returns (u: Option<UserProfile>)
      ensures u == currentUser
    {
      u := currentUser;
    }

    /** `logout` */
    method Logout()
      modifies this`currentUser
      ensures currentUser == None
    {
      currentUser := None;
    }

    /** `getDocuments`: the documents of one user, in the order they were created. */
    method GetDocuments(uid: string) returns (r: seq<ServiceDocument>)
      ensures r == DocumentsOf(docs, uid)
    {
      r := DocumentsOf(docs, uid);
    }

    /** `createDocument`: appends the document. */
    method CreateDocument(doc: ServiceDocument)
      modifies this`docs
      ensures docs == old(docs) + [doc]
    {
      docs := docs + [doc];
    }

    /** `updateUserRole` */
    method UpdateUserRole(targetUid: string, newRole: UserRole)
      requires Valid()
      modifies this`usersStored, this`users
      ensures Valid() && usersStored
      ensures users == WithRole(old(StoredUsers()), targetUid, newRole)
    {
      var us := GetLocalUsers();
      var idx := FindUser(us, ByUid(targetUid));
      if idx.Some? {
        users := us[idx.value := us[idx.value].(role := newRole)];
      }
      SamePhonesKeepUnique(us, users);
    }

    /** `toggleUserBlock` */
    method ToggleUserBlock(targetUid: string, currentStatus: UserStatus)
      requires Valid()
      modifies this`usersStored, this`users
      ensures Valid() && usersStored
      ensures users == WithToggledStatus(old(StoredUsers()), targetUid, currentStatus)
    {
      var us := GetLocalUsers();
      var idx := FindUser(us, ByUid(targetUid));
      if idx.Some? {
        users := us[idx.value := us[idx.value].(status := ToggledStatus(currentStatus))];
      }
      SamePhonesKeepUnique(us, users);
    }

    /** `inviteUser`: adds a pending user for a phone nobody has, and hands back
        the invite token (drawn at random by the source, a parameter here). */
    method InviteUser(phone: string, role: UserRole, now: nat, token: string) returns (t: string)
      requires Valid()
      modifies this`usersStored, this`users
      ensures Valid() && usersStored && t == token
      ensures users == if FindUser(old(StoredUsers()), ByPhone(phone)).None?
                       then old(StoredUsers()) + [InvitedUser(phone, role, now)]
                       else old(StoredUsers())
    {
      var us := GetLocalUsers();
      if FindUser(us, ByPhone(phone)).None? {
        AppendNewPhone(us, InvitedUser(phone, role, now));
        users := us + [InvitedUser(phone, role, now)];
      }
      t := token;
    }
  }
}
