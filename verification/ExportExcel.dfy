/**
 * The spreadsheet export job: three row sets read from the tables, each mapped
 * to flat rows numbered from 1, appended as the sheets `Followers`, `KOL` and
 * `Public Followers`, in that order. Dates are written `DD/MM/YYYY`. The
 * workbook and buffer writing of the spreadsheet library are not modelled; the
 * result here is the list of sheets with their rows.
 */
module ExportExcel {
  import opened Common
  import opened Router

  /** The seeded administrator, whom the KOL sheet leaves out. */
  const SeedAdminUsername := "magenta"

  datatype Row =
    | FollowerRow(no: nat, name: string, phone: string, joinDate: string, kol: Option<string>)
    | KolRow(no: nat, username: string, fullname: string)
    | PublicFollowerRow(no: nat, name: string, phone: string, joinDate: string)

  datatype Sheet = Sheet(name: string, rows: seq<Row>)

  // ---------------------------------------------------------------------------
  // formatDate

  /** `String(n).padStart(2, '0')`. */
  function Pad2(n: nat): (s: string)
    ensures n < 100 ==> |s| == 2 && AllDigits(s) && DecimalValue(s) == n
    ensures n >= 10 ==> s == NatToString(n)
  {
    NatToStringRoundTrip(n);
    NatToStringLength(n);
    var r := PadStart(NatToString(n), 2, '0');
    if n < 10 then
      assert r == ['0'] + NatToString(n);
      assert r[..1] == ['0'];
      r
    else r
  }

  /** `String(year)`: a minus sign before the digits of a negative year. */
  function YearString(year: int): (s: string)
    ensures year >= 0 ==> s == NatToString(year)
    ensures year < 0 ==> s == "-" + NatToString(-year)
  {
    if year < 0 then "-" + NatToString(-year) else NatToString(year)
  }

  /** `formatDate`: day and 1-based month zero-padded to two digits, then the
      year, separated by `/`. */
  function FormatDate(d: Date): (s: string)
    ensures d.day < 100 && d.month0 < 99 && 1000 <= d.year < 10000 ==>
              |s| == 10 && s[2] == '/' && s[5] == '/'
              && AllDigits(s[0..2]) && AllDigits(s[3..5]) && AllDigits(s[6..10])
  {
    NatToStringLength(if d.year >= 0 then d.year else 0);
    Pad2(d.day) + "/" + Pad2(d.month0 + 1) + "/" + YearString(d.year)
  }

  /** Reads a `DD/MM/YYYY` string back into calendar fields. */
  function ParseDate(s: string): Option<Date>
  {
    if |s| == 10 && s[2] == '/' && s[5] == '/'
       && AllDigits(s[0..2]) && AllDigits(s[3..5]) && AllDigits(s[6..10])
       && DecimalValue(s[3..5]) >= 1
    then Some(Date(DecimalValue(s[0..2]), DecimalValue(s[3..5]) - 1, DecimalValue(s[6..10])))
    else None
  }

  /** For a four-digit year, formatting loses nothing: the day, the month and
      the year can be read back from their fixed positions. */
  lemma FormatDateRoundTrip(d: Date)
    requires d.day < 100 && d.month0 < 99 && 1000 <= d.year < 10000
    ensures ParseDate(FormatDate(d)) == Some(d)
  {
    var s := FormatDate(d);
    NatToStringLength(d.year);
    NatToStringRoundTrip(d.year);
    assert s[0..2] == Pad2(d.day);
    assert s[3..5] == Pad2(d.month0 + 1);
    assert s[6..10] == NatToString(d.year);
  }

  // ---------------------------------------------------------------------------
  // The three row sets the job reads

  /** The followers `where: {memberId: {not: null}}` keeps, in table order. */
  function FollowersWithMember(followers: seq<Follower>): (r: seq<Follower>)
    ensures |r| <= |followers|
    ensures forall k :: 0 <= k < |r| ==> r[k].memberId.Some?
    ensures forall f :: multiset(r)[f] == if f.memberId.Some? then multiset(followers)[f] else 0
  {
    if followers == [] then []
    else
      assert followers == [followers[0]] + followers[1..];
      var rest := FollowersWithMember(followers[1..]);
      if followers[0].memberId.Some? then [followers[0]] + rest else rest
  }

  /** `findMany({where: {memberId: {not: null}}, include: {member: true}})`. */
  function MemberFollowers(users: seq<User>, followers: seq<Follower>): (r: seq<FollowerWithMember>)
    ensures |r| <= |followers|
    ensures forall k :: 0 <= k < |r| ==> r[k].follower.memberId.Some? && r[k] == WithMember(users, r[k].follower)
  {
    JoinMembers(users, FollowersWithMember(followers))
  }

  /** `findMany({where: {memberId: null}})`. */
  function PublicFollowers(followers: seq<Follower>): (r: seq<Follower>)
    ensures |r| <= |followers|
    ensures forall k :: 0 <= k < |r| ==> r[k].memberId.None?
    ensures forall f :: multiset(r)[f] == if f.memberId.None? then multiset(followers)[f] else 0
  {
    if followers == [] then []
    else
      assert followers == [followers[0]] + followers[1..];
      var rest := PublicFollowers(followers[1..]);
      if followers[0].memberId.None? then [followers[0]] + rest else rest
  }

  /** `findMany({where: {username: {not: 'magenta'}}})`. */
  function KolUsers(users: seq<User>): (r: seq<User>)
    ensures |r| <= |users|
    ensures forall u :: u in r <==> u in users && u.username != SeedAdminUsername
    ensures forall u :: multiset(r)[u] == if u.username != SeedAdminUsername then multiset(users)[u] else 0
  {
    if users == [] then []
    else
      assert users == [users[0]] + users[1..];
      var rest := KolUsers(users[1..]);
      if users[0].username != SeedAdminUsername then [users[0]] + rest else rest
  }

  function Followers(rows: seq<FollowerWithMember>): seq<Follower>
  {
    seq(|rows|, k requires 0 <= k < |rows| => rows[k].follower)
  }

  /** The two follower queries split the table: every follower lands in
      exactly one of them, and none is invented. */
  lemma FollowerQueriesPartition(users: seq<User>, followers: seq<Follower>)
    ensures multiset(Followers(MemberFollowers(users, followers))) + multiset(PublicFollowers(followers))
            == multiset(followers)
  {
    var fs := FollowersWithMember(followers);
    assert Followers(JoinMembers(users, fs)) == fs;
    WhereMemberIdSplits(followers);
  }

  /** `memberId: {not: null}` and `memberId: null` split any table. */
  lemma WhereMemberIdSplits(followers: seq<Follower>)
    ensures multiset(FollowersWithMember(followers)) + multiset(PublicFollowers(followers)) == multiset(followers)
  {
    var both := multiset(FollowersWithMember(followers)) + multiset(PublicFollowers(followers));
    assert forall f :: both[f] == multiset(followers)[f];
  }

  // ---------------------------------------------------------------------------
  // Row mappers: `map((x, index) => ({no: index + 1, ...}))`

  /** One Followers row per joined follower, numbered from 1, with the
      member's fullname in the `kol` column (`f.member?.fullname`). */
  function FollowerRows(fs: seq<FollowerWithMember>): (r: seq<Row>)
    ensures |r| == |fs|
    ensures forall i :: 0 <= i < |r| ==>
      r[i].FollowerRow? && r[i].no == i + 1 &&
      r[i].name == fs[i].follower.fullname && r[i].phone == fs[i].follower.phoneNumber &&
      r[i].joinDate == FormatDate(fs[i].follower.arrivalDate) &&
      (r[i].kol.Some? <==> fs[i].member.Some?) &&
      (r[i].kol.Some? ==> r[i].kol.value == fs[i].member.value.fullname)
  {
    seq(|fs|, i requires 0 <= i < |fs| =>
      var f := fs[i].follower;
      FollowerRow(i + 1, f.fullname, f.phoneNumber, FormatDate(f.arrivalDate),
                  if fs[i].member.Some? then Some(fs[i].member.value.fullname) else None))
  }

  /** One KOL row per user, numbered from 1, holding its username and
      fullname. */
  function KolRows(us: seq<User>): (r: seq<Row>)
    ensures |r| == |us|
    ensures forall i :: 0 <= i < |r| ==>
      r[i].KolRow? && r[i].no == i + 1 && r[i].username == us[i].username && r[i].fullname == us[i].fullname
  {
    seq(|us|, i requires 0 <= i < |us| => KolRow(i + 1, us[i].username, us[i].fullname))
  }

  /** One Public Followers row per follower, numbered from 1, with its name,
      phone and formatted arrival date. */
  function PublicFollowerRows(fs: seq<Follower>): (r: seq<Row>)
    ensures |r| == |fs|
    ensures forall i :: 0 <= i < |r| ==>
      r[i].PublicFollowerRow? && r[i].no == i + 1 && r[i].name == fs[i].fullname &&
      r[i].phone == fs[i].phoneNumber && r[i].joinDate == FormatDate(fs[i].arrivalDate)
  {
    seq(|fs|, i requires 0 <= i < |fs| =>
      PublicFollowerRow(i + 1, fs[i].fullname, fs[i].phoneNumber, FormatDate(fs[i].arrivalDate)))
  }

  /** The `no` column counts the rows from 1. */
  predicate NumberedFromOne(rows: seq<Row>)
  {
    forall i :: 0 <= i < |rows| ==> rows[i].no == i + 1
  }

  /** `exportExcel`: the sheets in the order they are appended, every sheet
      numbered 1..n in the order of its rows. */
  function ExportWorkbook(users: seq<User>, followers: seq<Follower>): (sheets: seq<Sheet>)
    ensures |sheets| == 3
    ensures sheets[0].name == "Followers" && sheets[1].name == "KOL" && sheets[2].name == "Public Followers"
    ensures forall s :: s in sheets ==> NumberedFromOne(s.rows)
  {
    var members := FollowerRows(MemberFollowers(users, followers));
    var kols := KolRows(KolUsers(users));
    var publics := PublicFollowerRows(PublicFollowers(followers));
    assert NumberedFromOne(members) && NumberedFromOne(kols) && NumberedFromOne(publics);
    [Sheet("Followers", members), Sheet("KOL", kols), Sheet("Public Followers", publics)]
  }

  /** The Followers sheet: one row per follower with a member, in query order,
      whose `kol` column is that member's fullname. */
  lemma FollowersSheet(users: seq<User>, followers: seq<Follower>)
    ensures var rows := ExportWorkbook(users, followers)[0].rows;
            var src := MemberFollowers(users, followers);
            |rows| == |src| &&
            forall i :: 0 <= i < |rows| ==>
              rows[i].FollowerRow? && src[i].follower.memberId.Some? &&
              rows[i].name == src[i].follower.fullname &&
              rows[i].phone == src[i].follower.phoneNumber &&
              rows[i].joinDate == FormatDate(src[i].follower.arrivalDate) &&
              (var m := MemberOf(users, src[i].follower);
               rows[i].kol == if m.Some? then Some(m.value.fullname) else None)
  {
    assert ExportWorkbook(users, followers)[0].rows == FollowerRows(MemberFollowers(users, followers));
  }

  /** The Public Followers sheet: one row per follower without a member, and
      no `kol` column. */
  lemma PublicFollowersSheet(users: seq<User>, followers: seq<Follower>)
    ensures var rows := ExportWorkbook(users, followers)[2].rows;
            var src := PublicFollowers(followers);
            |rows| == |src| &&
            forall i :: 0 <= i < |rows| ==>
              rows[i].PublicFollowerRow? && src[i].memberId.None? &&
              rows[i].name == src[i].fullname && rows[i].phone == src[i].phoneNumber &&
              rows[i].joinDate == FormatDate(src[i].arrivalDate)
  {
  }

  /** The two follower sheets together hold one row per follower. */
  lemma FollowerSheetsCoverTable(users: seq<User>, followers: seq<Follower>)
    ensures var sheets := ExportWorkbook(users, followers);
            |sheets[0].rows| + |sheets[2].rows| == |followers|
  {
    FollowerQueriesPartition(users, followers);
    var m := Followers(MemberFollowers(users, followers));
    assert |multiset(m)| + |multiset(PublicFollowers(followers))| == |multiset(followers)|;
  }

  /** The KOL sheet: row i is user i of the query, with only username and
      fullname; every user other than `magenta` has a row, and no row is
      `magenta`'s. */
  lemma KolSheet(users: seq<User>, followers: seq<Follower>, u: User)
    ensures var rows := ExportWorkbook(users, followers)[1].rows;
            var src := KolUsers(users);
            |rows| == |src| &&
            (forall i :: 0 <= i < |rows| ==>
               src[i] in users && rows[i] == KolRow(i + 1, src[i].username, src[i].fullname)) &&
            ((exists i :: 0 <= i < |rows| && rows[i] == KolRow(i + 1, u.username, u.fullname))
              <== u in users && u.username != SeedAdminUsername) &&
            (forall i :: 0 <= i < |rows| ==> rows[i].username != SeedAdminUsername)
  {
    var src := KolUsers(users);
    var rows := ExportWorkbook(users, followers)[1].rows;
    assert rows == KolRows(src);
    if u in users && u.username != SeedAdminUsername {
      var i :| 0 <= i < |src| && src[i] == u;
      assert rows[i] == KolRow(i + 1, u.username, u.fullname);
    }
    forall i | 0 <= i < |rows|
      ensures src[i] in users && rows[i] == KolRow(i + 1, src[i].username, src[i].fullname)
      ensures rows[i].username != SeedAdminUsername
    {
      assert src[i] in src;
    }
  }
}
