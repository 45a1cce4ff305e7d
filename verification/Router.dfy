/**
 * The RPC router of the admin application: the `login` procedure, the user
 * and follower queries, and the create/update/delete mutations. The `Role`,
 * `User` and `Follower` tables are sequences of records held by a `Store`;
 * every query is a function of those sequences and every mutation a method of
 * the store that reassigns them.
 *
 * Foreign calls are parameters: bcrypt's `compareSync` is the predicate
 * `matches(plain, hash)`, a bcrypt hash made with a fresh random salt is a
 * string handed in by the caller, the database's `contains` filter is the
 * predicate `contains(field, pattern)`, and the clock is the `now` argument.
 */
module Router {
  import opened Common

  datatype Role = Role(id: int, name: string)

  datatype User = User(
    id: int,
    fullname: string,
    username: string,
    password: string,   // the bcrypt hash, never the plain text
    roleId: int,
    createdAt: int)

  datatype Follower = Follower(
    id: int,
    fullname: string,
    phoneNumber: string,
    arrivalDate: Date,
    createdAt: int,
    memberId: Option<int>)   // None: a public registrant

  /** A follower row as `include: {member: true}` returns it. */
  datatype FollowerWithMember = FollowerWithMember(follower: Follower, member: Option<User>)

  datatype ErrorCode = Unauthorized | UniqueViolation | RecordNotFound | InvalidArgument

  datatype RpcError = RpcError(code: ErrorCode, message: string)

  datatype Result<T> = Ok(value: T) | Err(error: RpcError)

  /** The payload `sign` receives; the signature itself is not modelled. */
  datatype TokenClaims = TokenClaims(sub: string)

  datatype Session = Session(user: User, accessToken: TokenClaims)

  datatype OrderField = ById | ByFullname | ByUsername | ByRoleId | ByCreatedAt

  datatype SortDir = Asc | Desc

  const InvalidCredentials := RpcError(Unauthorized, "Invalid Credentials")

  /** The fixed page size of `getFollowers`. */
  const PageSize: nat := 10

  /** Both follower writes store this member, whatever the caller. */
  const HardCodedMemberId := 2

  // ---------------------------------------------------------------------------
  // Table invariants

  ghost predicate UniqueUsernames(users: seq<User>)
  {
    forall i, j :: 0 <= i < |users| && 0 <= j < |users| && users[i].username == users[j].username ==> i == j
  }

  ghost predicate UniqueUserIds(users: seq<User>)
  {
    forall i, j :: 0 <= i < |users| && 0 <= j < |users| && users[i].id == users[j].id ==> i == j
  }

  ghost predicate UniqueFollowerIds(followers: seq<Follower>)
  {
    forall i, j :: 0 <= i < |followers| && 0 <= j < |followers| && followers[i].id == followers[j].id ==> i == j
  }

  // ---------------------------------------------------------------------------
  // Lookups

  /** `findUnique({where: {username}})`. */
  function FindByUsername(users: seq<User>, username: string): (r: Option<User>)
    ensures r.Some? ==> r.value in users && r.value.username == username
    ensures r.None? <==> forall i :: 0 <= i < |users| ==> users[i].username != username
  {
    if users == [] then None
    else if users[0].username == username then Some(users[0])
    else FindByUsername(users[1..], username)
  }

  /** The position of the row whose primary key, read by `key`, is `id`:
      `where: {id}` on either table. */
  function IndexOfId<T>(rows: seq<T>, key: T -> int, id: int): (r: Option<nat>)
    ensures r.Some? ==> r.value < |rows| && key(rows[r.value]) == id
    ensures r.None? <==> forall i :: 0 <= i < |rows| ==> key(rows[i]) != id
  {
    if rows == [] then None
    else if key(rows[0]) == id then Some(0)
    else match IndexOfId(rows[1..], key, id)
      case None => None
      case Some(k) => Some(k + 1)
  }

  function UserId(u: User): int { u.id }

  function FollowerId(f: Follower): int { f.id }

  function RoleName(roles: seq<Role>, roleId: int): (r: Option<string>)
    ensures r.Some? ==> exists i :: 0 <= i < |roles| && roles[i].id == roleId && roles[i].name == r.value
    ensures r.None? <==> forall i :: 0 <= i < |roles| ==> roles[i].id != roleId
  {
    if roles == [] then None
    else if roles[0].id == roleId then Some(roles[0].name)
    else RoleName(roles[1..], roleId)
  }

  /** The user a follower's `memberId` points to, as `include: {member: true}` joins it. */
  function MemberOf(users: seq<User>, f: Follower): (r: Option<User>)
    ensures r.Some? ==> f.memberId.Some? && r.value in users && r.value.id == f.memberId.value
    ensures f.memberId.None? ==> r.None?
    ensures f.memberId.Some? && (exists i :: 0 <= i < |users| && users[i].id == f.memberId.value) ==> r.Some?
  {
    match f.memberId
    case None => None
    case Some(m) =>
      match IndexOfId(users, UserId, m)
      case None => None
      case Some(k) => Some(users[k])
  }

  function WithMember(users: seq<User>, f: Follower): (r: FollowerWithMember)
    ensures r.follower == f && r.member == MemberOf(users, f)
  {
    FollowerWithMember(f, MemberOf(users, f))
  }

  // ---------------------------------------------------------------------------
  // login

  /** `login`: look the user up by username, then compare the password with the
      stored hash; both failures raise the same UNAUTHORIZED error. The token
      carries only `{sub: username}`. */
  function Login(users: seq<User>, username: string, password: string,
                 matches: (string, string) -> bool): (r: Result<Session>)
    ensures r.Err? ==> r.error == InvalidCredentials
    ensures (forall i :: 0 <= i < |users| ==> users[i].username != username) ==> r.Err?
    ensures r.Ok? ==> r.value.user in users && r.value.user.username == username
                      && matches(password, r.value.user.password)
                      && r.value.accessToken == TokenClaims(username)
  {
    match FindByUsername(users, username)
    case None => Err(InvalidCredentials)
    case Some(user) =>
      if !matches(password, user.password) then Err(InvalidCredentials)
      else Ok(Session(user, TokenClaims(user.username)))
  }

  /** With unique usernames, login succeeds exactly when the user with that
      name exists and the password matches its hash; the session then holds
      that very record. */
  lemma LoginSucceedsIff(users: seq<User>, username: string, password: string,
                          matches: (string, string) -> bool, k: nat)
    requires UniqueUsernames(users)
    requires k < |users| && users[k].username == username
    ensures Login(users, username, password, matches).Ok? <==> matches(password, users[k].password)
    ensures Login(users, username, password, matches).Ok? ==>
              Login(users, username, password, matches).value.user == users[k]
  {
    var found := FindByUsername(users, username);
    assert found.Some?;
    var j :| 0 <= j < |users| && users[j] == found.value;
    assert users[j].username == username;
  }

  // ---------------------------------------------------------------------------
  // getUsers / getTotalUsers

  /** The `where` filter: `role: {name}` is added only for a non-empty role. */
  predicate UserHasRole(roles: seq<Role>, u: User, role: Option<string>)
  {
    match role
    case None => true
    case Some(name) => name == "" || RoleName(roles, u.roleId) == Some(name)
  }

  function FilterUsers(roles: seq<Role>, users: seq<User>, role: Option<string>): (r: seq<User>)
    ensures |r| <= |users|
    ensures forall u :: u in r <==> u in users && UserHasRole(roles, u, role)
    ensures forall u :: multiset(r)[u] == if UserHasRole(roles, u, role) then multiset(users)[u] else 0
  {
    if users == [] then []
    else
      assert users == [users[0]] + users[1..];
      var rest := FilterUsers(roles, users[1..], role);
      if UserHasRole(roles, users[0], role) then [users[0]] + rest else rest
  }

  function KeyLe(a: User, b: User, field: OrderField): bool
  {
    match field
    case ById => a.id <= b.id
    case ByFullname => StrLe(a.fullname, b.fullname)
    case ByUsername => StrLe(a.username, b.username)
    case ByRoleId => a.roleId <= b.roleId
    case ByCreatedAt => a.createdAt <= b.createdAt
  }

  /** `a` may come before `b` under `orderBy: {[by]: dir}`. */
  predicate Before(a: User, b: User, field: OrderField, dir: SortDir)
  {
    if dir == Asc then KeyLe(a, b, field) else KeyLe(b, a, field)
  }

  lemma BeforeTotal(a: User, b: User, field: OrderField, dir: SortDir)
    ensures Before(a, b, field, dir) || Before(b, a, field, dir)
  {
    match field
    case ByFullname => StrLeTotal(a.fullname, b.fullname);
    case ByUsername => StrLeTotal(a.username, b.username);
    case _ =>
  }

  lemma BeforeTransitive(a: User, b: User, c: User, field: OrderField, dir: SortDir)
    requires Before(a, b, field, dir) && Before(b, c, field, dir)
    ensures Before(a, c, field, dir)
  {
    match field
    case ByFullname =>
      if dir == Asc { StrLeTransitive(a.fullname, b.fullname, c.fullname); }
      else { StrLeTransitive(c.fullname, b.fullname, a.fullname); }
    case ByUsername =>
      if dir == Asc { StrLeTransitive(a.username, b.username, c.username); }
      else { StrLeTransitive(c.username, b.username, a.username); }
    case _ =>
  }

  ghost predicate SortedBy(s: seq<User>, field: OrderField, dir: SortDir)
  {
    forall i, j :: 0 <= i < j < |s| ==> Before(s[i], s[j], field, dir)
  }

  /** One step of the insertion sort: `x` placed before the first element it
      may precede. */
  function Insert(x: User, s: seq<User>, field: OrderField, dir: SortDir): (r: seq<User>)
    ensures multiset(r) == multiset(s) + multiset{x}
    ensures forall j :: 0 <= j < |r| ==> r[j] == x || r[j] in s
  {
    if s == [] then [x]
    else if Before(x, s[0], field, dir) then [x] + s
    else
      assert s == [s[0]] + s[1..];
      [s[0]] + Insert(x, s[1..], field, dir)
  }

  /** Inserting into an ordered list keeps it ordered. */
  lemma {:induction false} InsertSorted(x: User, s: seq<User>, field: OrderField, dir: SortDir)
    requires SortedBy(s, field, dir)
    ensures SortedBy(Insert(x, s, field, dir), field, dir)
  {
    if s != [] {
      if Before(x, s[0], field, dir) {
        forall j | 0 <= j < |s| ensures Before(x, s[j], field, dir) {
          if j > 0 { BeforeTransitive(x, s[0], s[j], field, dir); }
        }
        ConsSorted(x, s, field, dir);
      } else {
        BeforeTotal(x, s[0], field, dir);
        var tail := Insert(x, s[1..], field, dir);
        InsertSorted(x, s[1..], field, dir);
        forall j | 0 <= j < |tail| ensures Before(s[0], tail[j], field, dir) {
          if tail[j] != x {
            var k :| 0 <= k < |s[1..]| && s[1..][k] == tail[j];
            assert s[k + 1] == tail[j];
          }
        }
        ConsSorted(s[0], tail, field, dir);
      }
    }
  }

  /** An element that may precede every element of an ordered list can head it. */
  lemma ConsSorted(a: User, t: seq<User>, field: OrderField, dir: SortDir)
    requires SortedBy(t, field, dir)
    requires forall j :: 0 <= j < |t| ==> Before(a, t[j], field, dir)
    ensures SortedBy([a] + t, field, dir)
  {
    var r := [a] + t;
    forall i, j | 0 <= i < j < |r| ensures Before(r[i], r[j], field, dir) {
      if i == 0 {
        assert r[j] == t[j - 1];
      } else {
        assert r[i] == t[i - 1] && r[j] == t[j - 1];
      }
    }
  }

  /** The ordering the database applies: a stable insertion sort. */
  function SortUsers(s: seq<User>, field: OrderField, dir: SortDir): (r: seq<User>)
    ensures multiset(r) == multiset(s)
    ensures SortedBy(r, field, dir)
  {
    if s == [] then []
    else
      assert s == [s[0]] + s[1..];
      InsertSorted(s[0], SortUsers(s[1..], field, dir), field, dir);
      Insert(s[0], SortUsers(s[1..], field, dir), field, dir)
  }

  /** `getTotalUsers`: the number of users the role filter keeps. */
  function GetTotalUsers(roles: seq<Role>, users: seq<User>, role: Option<string>): (n: nat)
    ensures n <= |users|
    ensures (role.None? || role == Some("")) ==> n == |users|
  {
    if role.None? || role == Some("") then
      assert FilterUsers(roles, users, role) == users by { FilterKeepsAll(roles, users, role); }
      |FilterUsers(roles, users, role)|
    else |FilterUsers(roles, users, role)|
  }

  lemma {:induction false} FilterKeepsAll(roles: seq<Role>, users: seq<User>, role: Option<string>)
    requires role.None? || role == Some("")
    ensures FilterUsers(roles, users, role) == users
  {
    if users != [] {
      FilterKeepsAll(roles, users[1..], role);
      assert UserHasRole(roles, users[0], role);
      assert FilterUsers(roles, users, role) == [users[0]] + FilterUsers(roles, users[1..], role);
      assert users == [users[0]] + users[1..];
    }
  }

  /** `getUsers`: every user the role filter keeps, each exactly once, ordered
      by `orderBy` (default `createdAt`) in `orderSort` direction (default
      descending); as many rows as `getTotalUsers` counts. */
  function GetUsers(roles: seq<Role>, users: seq<User>, role: Option<string>,
                    orderBy: Option<OrderField>, orderSort: Option<SortDir>): (r: seq<User>)
    ensures |r| == GetTotalUsers(roles, users, role)
    ensures multiset(r) == multiset(FilterUsers(roles, users, role))
    ensures forall u :: u in r <==> u in users && UserHasRole(roles, u, role)
    ensures SortedBy(r, if orderBy.Some? then orderBy.value else ByCreatedAt,
                       if orderSort.Some? then orderSort.value else Desc)
  {
    var field := if orderBy.Some? then orderBy.value else ByCreatedAt;
    var dir := if orderSort.Some? then orderSort.value else Desc;
    var r := SortUsers(FilterUsers(roles, users, role), field, dir);
    assert |multiset(r)| == |r|;
    assert forall u :: u in r <==> u in multiset(r);
    r
  }

  // ---------------------------------------------------------------------------
  // getFollowers / getTotalFollowers

  /** The search pattern the code builds: the term wrapped in literal `%`. */
  function SearchPattern(search: string): (p: string)
    ensures |p| == |search| + 2 && p[0] == '%' && p[|p| - 1] == '%' && p[1..|p| - 1] == search
  {
    "%" + search + "%"
  }

  /** The `where` filter of `getFollowers`: an OR over the member's and the
      follower's own fullname when the search is non-empty, and the member id
      when it is given and non-zero. */
  predicate FollowerMatches(users: seq<User>, f: Follower, search: Option<string>,
                            memberId: Option<int>, contains: (string, string) -> bool)
  {
    var searchOk :=
      search.None? || search.value == "" ||
      (var m := MemberOf(users, f); m.Some? && contains(m.value.fullname, SearchPattern(search.value))) ||
      contains(f.fullname, SearchPattern(search.value));
    var memberOk := memberId.None? || memberId.value == 0 || f.memberId == memberId;
    searchOk && memberOk
  }

  function FilterFollowers(users: seq<User>, followers: seq<Follower>, search: Option<string>,
                           memberId: Option<int>, contains: (string, string) -> bool): (r: seq<Follower>)
    ensures |r| <= |followers|
    ensures forall f :: f in r <==> f in followers && FollowerMatches(users, f, search, memberId, contains)
    ensures forall f :: multiset(r)[f] ==
                        (if FollowerMatches(users, f, search, memberId, contains) then multiset(followers)[f] else 0)
  {
    if followers == [] then []
    else
      assert followers == [followers[0]] + followers[1..];
      var rest := FilterFollowers(users, followers[1..], search, memberId, contains);
      if FollowerMatches(users, followers[0], search, memberId, contains) then [followers[0]] + rest else rest
  }

  /** The filter keeps the followers in table order, which the page window
      indexes into. */
  lemma {:induction false} FilterFollowersIsSubsequence(users: seq<User>, followers: seq<Follower>,
                                                        search: Option<string>, memberId: Option<int>,
                                                        contains: (string, string) -> bool)
    ensures IsSubsequence(FilterFollowers(users, followers, search, memberId, contains), followers)
    decreases |followers|
  {
    if followers != [] {
      var rest := FilterFollowers(users, followers[1..], search, memberId, contains);
      FilterFollowersIsSubsequence(users, followers[1..], search, memberId, contains);
      if FollowerMatches(users, followers[0], search, memberId, contains) {
        assert FilterFollowers(users, followers, search, memberId, contains)[1..] == rest;
      }
    }
  }

  /** `getTotalFollowers`: every follower, with no filter at all. */
  function GetTotalFollowers(followers: seq<Follower>): (n: nat)
    ensures n == |followers|
  {
    |followers|
  }

  /** `getFollowers`: skip `(page - 1) * 10` filtered rows, take 10, join each
      row with its member. A page below 1 gives a negative `skip`, which the
      query layer rejects. */
  function GetFollowers(users: seq<User>, followers: seq<Follower>, page: Option<int>,
                        search: Option<string>, memberId: Option<int>,
                        contains: (string, string) -> bool): (r: Result<seq<FollowerWithMember>>)
    ensures (if page.Some? then page.value else 1) < 1 <==> r.Err?
    ensures r.Err? ==> r.error.code == InvalidArgument
    ensures r.Ok? ==> |r.value| <= PageSize
    ensures r.Ok? ==> |r.value| <= GetTotalFollowers(followers)
    ensures r.Ok? ==> forall k :: 0 <= k < |r.value| ==>
              r.value[k].follower in followers &&
              FollowerMatches(users, r.value[k].follower, search, memberId, contains) &&
              r.value[k].member == MemberOf(users, r.value[k].follower)
    ensures r.Ok? ==>
              var filtered := FilterFollowers(users, followers, search, memberId, contains);
              var skip := ((if page.Some? then page.value else 1) - 1) * PageSize;
              |r.value| == (if skip + PageSize <= |filtered| then PageSize
                            else if skip <= |filtered| then |filtered| - skip else 0) &&
              forall k :: 0 <= k < |r.value| ==> r.value[k].follower == filtered[skip + k]
  {
    var p := if page.Some? then page.value else 1;
    if p < 1 then Err(RpcError(InvalidArgument, "skip must not be negative"))
    else
      var filtered := FilterFollowers(users, followers, search, memberId, contains);
      var window := PageWindow(filtered, (p - 1) * PageSize);
      PageWindowMatches(users, followers, search, memberId, contains, (p - 1) * PageSize);
      Ok(JoinMembers(users, window))
  }

  /** Every row of a page of the filter is a stored follower the filter keeps. */
  lemma PageWindowMatches(users: seq<User>, followers: seq<Follower>, search: Option<string>,
                          memberId: Option<int>, contains: (string, string) -> bool, skip: nat)
    ensures var w := PageWindow(FilterFollowers(users, followers, search, memberId, contains), skip);
            forall k :: 0 <= k < |w| ==> w[k] in followers && FollowerMatches(users, w[k], search, memberId, contains)
  {
    var filtered := FilterFollowers(users, followers, search, memberId, contains);
    var w := PageWindow(filtered, skip);
    forall k | 0 <= k < |w| ensures w[k] in followers && FollowerMatches(users, w[k], search, memberId, contains) {
      assert w[k] in filtered;
    }
  }

  /** `skip` then `take: 10` over the filtered rows. */
  function PageWindow(filtered: seq<Follower>, skip: nat): (w: seq<Follower>)
    ensures |w| == (if skip + PageSize <= |filtered| then PageSize
                    else if skip <= |filtered| then |filtered| - skip else 0)
    ensures forall k :: 0 <= k < |w| ==> skip + k < |filtered| && w[k] == filtered[skip + k]
  {
    if skip <= |filtered| then
      filtered[skip..if skip + PageSize <= |filtered| then skip + PageSize else |filtered|]
    else []
  }

  /** `include: {member: true}`: each row joined with its member. */
  function JoinMembers(users: seq<User>, fs: seq<Follower>): (r: seq<FollowerWithMember>)
    ensures |r| == |fs|
    ensures forall k :: 0 <= k < |r| ==> r[k].follower == fs[k] && r[k].member == MemberOf(users, fs[k])
  {
    seq(|fs|, k requires 0 <= k < |fs| => WithMember(users, fs[k]))
  }

  /** With a non-zero member id every returned row belongs to that member. */
  lemma GetFollowersOfMember(users: seq<User>, followers: seq<Follower>, page: Option<int>,
                             search: Option<string>, m: int, contains: (string, string) -> bool)
    requires m != 0
    ensures var r := GetFollowers(users, followers, page, search, Some(m), contains);
            r.Ok? ==> forall k :: 0 <= k < |r.value| ==> r.value[k].follower.memberId == Some(m)
  {
  }

  /** With a non-empty search every returned row matches it on its own or on
      its member's fullname. */
  lemma GetFollowersSearch(users: seq<User>, followers: seq<Follower>, page: Option<int>,
                           s: string, memberId: Option<int>, contains: (string, string) -> bool)
    requires s != ""
    ensures var r := GetFollowers(users, followers, page, Some(s), memberId, contains);
            r.Ok? ==> forall k :: 0 <= k < |r.value| ==>
              contains(r.value[k].follower.fullname, SearchPattern(s)) ||
              (r.value[k].member.Some? && contains(r.value[k].member.value.fullname, SearchPattern(s)))
  {
  }

  // ---------------------------------------------------------------------------
  // Record updates shared by the mutations

  /** `updateUser`'s data: fullname and username replaced; the hash replaced
      by `hashed` only for a present, non-empty password. */
  function ApplyUserUpdate(u: User, fullname: string, username: string,
                           password: Option<string>, hashed: string): (r: User)
    ensures r.id == u.id && r.roleId == u.roleId && r.createdAt == u.createdAt
    ensures r.fullname == fullname && r.username == username
    ensures r.password == (if password.Some? && password.value != "" then hashed else u.password)
  {
    var withNames := u.(fullname := fullname, username := username);
    if password.Some? && password.value != "" then withNames.(password := hashed) else withNames
  }

  /** `updateFollower`'s data: the three form fields replaced and the member
      forced to 2. */
  function ApplyFollowerUpdate(f: Follower, fullname: string, phoneNumber: string,
                               arrivalDate: Date): (r: Follower)
    ensures r.id == f.id && r.createdAt == f.createdAt
    ensures r.fullname == fullname && r.phoneNumber == phoneNumber && r.arrivalDate == arrivalDate
    ensures r.memberId == Some(HardCodedMemberId)
  {
    f.(fullname := fullname, phoneNumber := phoneNumber, arrivalDate := arrivalDate,
       memberId := Some(HardCodedMemberId))
  }

  /** The table without its element at position `k`. */
  function RemoveAt<T>(s: seq<T>, k: nat): (r: seq<T>)
    requires k < |s|
    ensures |r| == |s| - 1
    ensures forall i :: 0 <= i < k ==> r[i] == s[i]
    ensures forall i :: k <= i < |r| ==> r[i] == s[i + 1]
  {
    s[..k] + s[k + 1..]
  }

  lemma RemoveAtKeepsUnique(users: seq<User>, k: nat)
    requires k < |users| && UniqueUserIds(users) && UniqueUsernames(users)
    ensures UniqueUserIds(RemoveAt(users, k)) && UniqueUsernames(RemoveAt(users, k))
  {
    var r := RemoveAt(users, k);
    forall i, j | 0 <= i < |r| && 0 <= j < |r| && r[i].id == r[j].id ensures i == j {
      var i' := if i < k then i else i + 1;
      var j' := if j < k then j else j + 1;
      assert users[i'].id == users[j'].id;
    }
    forall i, j | 0 <= i < |r| && 0 <= j < |r| && r[i].username == r[j].username ensures i == j {
      var i' := if i < k then i else i + 1;
      var j' := if j < k then j else j + 1;
      assert users[i'].username == users[j'].username;
    }
  }

  // ---------------------------------------------------------------------------
  // The store and its mutations

  class Store {
    var roles: seq<Role>
    var users: seq<User>
    var followers: seq<Follower>
    var nextUserId: int       // the autoincrement counters of the two tables
    var nextFollowerId: int

    ghost predicate Valid()
      reads this
    {
      && UniqueUserIds(users) && UniqueUsernames(users) && UniqueFollowerIds(followers)
      && (forall i :: 0 <= i < |users| ==> users[i].id < nextUserId)
      && (forall i :: 0 <= i < |followers| ==> followers[i].id < nextFollowerId)
    }

    /** A store holding the seeded roles and empty user and follower tables. */
    constructor (roles: seq<Role>)
      ensures Valid()
      ensures this.roles == roles && users == [] && followers == []
    {
      this.roles := roles;
      users := [];
      followers := [];
      nextUserId := 1;
      nextFollowerId := 1;
    }

    /** `createUser`: the password is stored as `hashed` (its bcrypt hash); a
        username already taken violates the unique constraint. */
    method CreateUser(fullname: string, username: string, hashed: string, roleId: int, now: int)
      returns (r: Result<User>)
      requires Valid()
      modifies this
      ensures Valid()
      ensures roles == old(roles) && followers == old(followers)
      ensures r.Ok? <==> forall i :: 0 <= i < |old(users)| ==> old(users)[i].username != username
      ensures r.Err? ==> r.error.code == UniqueViolation && users == old(users) && nextUserId == old(nextUserId)
      ensures r.Ok? ==> nextUserId == old(nextUserId) + 1
      ensures nextFollowerId == old(nextFollowerId)
      ensures r.Ok? ==> r.value == User(old(nextUserId), fullname, username, hashed, roleId, now)
                        && users == old(users) + [r.value]
    {
      if FindByUsername(users, username).Some? {
        r := Err(RpcError(UniqueViolation, "Unique constraint failed on the fields: (`username`)"));
        return;
      }
      var u := User(nextUserId, fullname, username, hashed, roleId, now);
      users := users + [u];
      nextUserId := nextUserId + 1;
      r := Ok(u);
    }

    /** `updateUser`: only the record with that id changes. */
    method UpdateUser(id: int, fullname: string, username: string, password: Option<string>, hashed: string)
      returns (r: Result<User>)
      requires Valid()
      modifies this
      ensures Valid()
      ensures roles == old(roles) && followers == old(followers)
      ensures nextUserId == old(nextUserId) && nextFollowerId == old(nextFollowerId)
      ensures IndexOfId(old(users), UserId, id).None? ==> r.Err? && r.error.code == RecordNotFound
      ensures r.Ok? <==> IndexOfId(old(users), UserId, id).Some? &&
                         forall i :: 0 <= i < |old(users)| && i != IndexOfId(old(users), UserId, id).value ==>
                           old(users)[i].username != username
      ensures r.Err? && IndexOfId(old(users), UserId, id).Some? ==> r.error.code == UniqueViolation
      ensures r.Err? ==> users == old(users)
      ensures r.Ok? ==>
                var k := IndexOfId(old(users), UserId, id).value;
                r.value == ApplyUserUpdate(old(users)[k], fullname, username, password, hashed)
                && users == old(users)[k := r.value]
    {
      var found := IndexOfId(users, UserId, id);
      if found.None? {
        r := Err(RpcError(RecordNotFound, "Record to update not found."));
        return;
      }
      var k := found.value;
      var taken := exists i :: 0 <= i < |users| && i != k && users[i].username == username;
      if taken {
        r := Err(RpcError(UniqueViolation, "Unique constraint failed on the fields: (`username`)"));
        return;
      }
      var u := ApplyUserUpdate(users[k], fullname, username, password, hashed);
      users := users[k := u];
      r := Ok(u);
    }

    /** `deleteUser`: removes the record with that id and returns it. */
    method DeleteUser(id: int) returns (r: Result<User>)
      requires Valid()
      modifies this
      ensures Valid()
      ensures roles == old(roles) && followers == old(followers)
      ensures nextUserId == old(nextUserId) && nextFollowerId == old(nextFollowerId)
      ensures r.Err? <==> IndexOfId(old(users), UserId, id).None?
      ensures r.Err? ==> r.error.code == RecordNotFound && users == old(users)
      ensures r.Ok? ==>
                var k := IndexOfId(old(users), UserId, id).value;
                r.value == old(users)[k] && users == RemoveAt(old(users), k)
    {
      var found := IndexOfId(users, UserId, id);
      if found.None? {
        r := Err(RpcError(RecordNotFound, "Record to delete does not exist."));
        return;
      }
      var k := found.value;
      r := Ok(users[k]);
      RemoveAtKeepsUnique(users, k);
      users := RemoveAt(users, k);
    }

    /** `createFollower`: stores member 2 whatever the caller. */
    method CreateFollower(fullname: string, phoneNumber: string, arrivalDate: Date, now: int)
      returns (f: Follower)
      requires Valid()
      modifies this
      ensures Valid()
      ensures roles == old(roles) && users == old(users)
      ensures f == Follower(old(nextFollowerId), fullname, phoneNumber, arrivalDate, now, Some(HardCodedMemberId))
      ensures followers == old(followers) + [f]
      ensures nextFollowerId == old(nextFollowerId) + 1 && nextUserId == old(nextUserId)
    {
      f := Follower(nextFollowerId, fullname, phoneNumber, arrivalDate, now, Some(HardCodedMemberId));
      followers := followers + [f];
      nextFollowerId := nextFollowerId + 1;
    }

    /** `updateFollower`: only the record with that id changes, and its member
        becomes 2. */
    method UpdateFollower(id: int, fullname: string, phoneNumber: string, arrivalDate: Date)
      returns (r: Result<Follower>)
      requires Valid()
      modifies this
      ensures Valid()
      ensures roles == old(roles) && users == old(users)
      ensures nextUserId == old(nextUserId) && nextFollowerId == old(nextFollowerId)
      ensures r.Err? <==> IndexOfId(old(followers), FollowerId, id).None?
      ensures r.Err? ==> r.error.code == RecordNotFound && followers == old(followers)
      ensures r.Ok? ==>
                var k := IndexOfId(old(followers), FollowerId, id).value;
                r.value == ApplyFollowerUpdate(old(followers)[k], fullname, phoneNumber, arrivalDate)
                && followers == old(followers)[k := r.value]
    {
      var found := IndexOfId(followers, FollowerId, id);
      if found.None? {
        r := Err(RpcError(RecordNotFound, "Record to update not found."));
        return;
      }
      var k := found.value;
      var f := ApplyFollowerUpdate(followers[k], fullname, phoneNumber, arrivalDate);
      followers := followers[k := f];
      r := Ok(f);
    }

    /** `deleteFollower`: removes the record with that id and returns it. */
    method DeleteFollower(id: int) returns (r: Result<Follower>)
      requires Valid()
      modifies this
      ensures Valid()
      ensures roles == old(roles) && users == old(users)
      ensures nextUserId == old(nextUserId) && nextFollowerId == old(nextFollowerId)
      ensures r.Err? <==> IndexOfId(old(followers), FollowerId, id).None?
      ensures r.Err? ==> r.error.code == RecordNotFound && followers == old(followers)
      ensures r.Ok? ==>
                var k := IndexOfId(old(followers), FollowerId, id).value;
                r.value == old(followers)[k] && followers == RemoveAt(old(followers), k)
    {
      var found := IndexOfId(followers, FollowerId, id);
      if found.None? {
        r := Err(RpcError(RecordNotFound, "Record to delete does not exist."));
        return;
      }
      var k := found.value;
      r := Ok(followers[k]);
      var rest := RemoveAt(followers, k);
      forall i, j | 0 <= i < |rest| && 0 <= j < |rest| && rest[i].id == rest[j].id ensures i == j {
        var i' := if i < k then i else i + 1;
        var j' := if j < k then j else j + 1;
        assert followers[i'].id == followers[j'].id;
      }
      followers := rest;
    }
  }
}
