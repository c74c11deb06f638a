/** The admin controller, mounted behind the admin-only guard: the user search, the
    role change, the account removal, the dashboard statistics and the activity report. */
module AdminController {
  import opened Common
  import opened UserModel
  import Text
  import Listing
  import Db
  import RequestModel
  import DonationModel
  import DriveModel

  // ---------------------------------------------------------------- users

  /** The query of the user search: `page` (default 1), `perPage` (default 20), `q` (default ""). */
  datatype SearchQuery = SearchQuery(page: Option<Pos>, perPage: Option<Pos>, q: Option<string>)

  /** An empty search term selects every account; any other selects the accounts whose
      name or email contains it, ignoring case. */
  predicate Found(u: User, term: string) {
    term != "" ==> Text.ContainsIgnoringCase(u.name, term) || Text.ContainsIgnoringCase(u.email, term)
  }

  function Searches(term: string): User -> bool {
    (u: User) => Found(u, term)
  }

  /** The search response: full account records (the query selects every field) and the
      number of matches. */
  datatype UserSearch = UserSearch(users: seq<User>, total: nat)

  /** `getUsers`. */
  function GetUsers(rows: seq<User>, actor: Actor, query: SearchQuery): (r: Response<UserSearch>)
    ensures actor.role != Admin <==> r == Forbidden
    ensures r.Ok? || r.Forbidden?
    ensures r.Ok? ==>
              var term := OrDefault(query.q, "");
              && r.value.total == |Listing.Filter(rows, Searches(term))|
              && r.value.users == Listing.Paginate(Listing.SortBy(Listing.Filter(rows, Searches(term)), NewestKey),
                                                   OrDefault(query.page, 1), OrDefault(query.perPage, 20))
              && |r.value.users| <= OrDefault(query.perPage, 20)
              && Listing.Sorted(r.value.users, NewestKey)
              && (forall u :: u in r.value.users ==> u in rows && Found(u, term))
  {
    if actor.role != Admin then Forbidden
    else
      var page := Listing.Listed(rows, Searches(OrDefault(query.q, "")), NewestKey,
                                 OrDefault(query.page, 1), OrDefault(query.perPage, 20));
      Ok(UserSearch(page.items, page.total))
  }

  /** Without a search term every account is counted. */
  lemma EmptySearchCountsAll(rows: seq<User>, actor: Actor, query: SearchQuery)
    requires actor.role == Admin && !Given(query.q)
    ensures GetUsers(rows, actor, query).Ok? && GetUsers(rows, actor, query).value.total == |rows|
  {
    assert OrDefault(query.q, "") == "";
    Listing.FilterAll(rows, Searches(""));
  }

  /** `changeRole`: 400 unless the body names one of the four roles, then 404, then only
      the role changes. */
  method ChangeRole(db: Db.Store, actor: Actor, id: Id, role: Option<string>) returns (r: Response<User>)
    requires db.Valid()
    modifies db
    ensures db.Valid()
    ensures actor.role != Admin ==> r == Forbidden
    ensures actor.role == Admin && (role.None? || ParseRole(role.value).None?) ==> r == BadRequest(["Invalid role"])
    ensures actor.role == Admin && role.Some? && ParseRole(role.value).Some? ==>
              r == if id in old(db.users) then Ok(old(db.users)[id].(role := ParseRole(role.value).value)) else NotFound
    ensures r.Ok? ==> RoleName(r.value.role) == role.value
    ensures db.Snapshot() == if r.Ok? then old(db.Snapshot()).(users := old(db.users)[id := r.value]) else old(db.Snapshot())
  {
    if actor.role != Admin {
      return Forbidden;
    }
    if role.None? || ParseRole(role.value).None? {
      return BadRequest(["Invalid role"]);
    }
    if id !in db.users {
      return NotFound;
    }
    var user := db.users[id].(role := ParseRole(role.value).value);
    db.PutUser(user);
    r := Ok(user);
  }

  /** `removeUser`: 404, then the account goes; unlike the user routes' delete, an admin
      may remove their own account here. */
  method RemoveUser(db: Db.Store, actor: Actor, id: Id) returns (r: Response<()>)
    requires db.Valid()
    modifies db
    ensures db.Valid()
    ensures actor.role != Admin ==> r == Forbidden
    ensures actor.role == Admin ==> r == if id in old(db.users) then Ok(()) else NotFound
    ensures db.Snapshot() == if r.Ok? then old(db.Snapshot()).(users := old(db.users) - {id}) else old(db.Snapshot())
  {
    if actor.role != Admin {
      return Forbidden;
    }
    if id !in db.users {
      return NotFound;
    }
    db.RemoveUser(id);
    r := Ok(());
  }

  // ---------------------------------------------------------------- statistics

  /** The number of accounts with `role`. */
  function CountRole(rows: seq<User>, role: Role): nat {
    |Listing.Filter(rows, HasRole(RoleName(role)))|
  }

  /** Every account has exactly one of the four roles. */
  lemma {:induction false} RoleCountsSum(rows: seq<User>)
    ensures CountRole(rows, Admin) + CountRole(rows, Donor) + CountRole(rows, Recipient) + CountRole(rows, Logistics) == |rows|
  {
    if rows != [] {
      RoleCountsSum(rows[1..]);
      RoleNameInjective(rows[0].role, Admin);
      RoleNameInjective(rows[0].role, Donor);
      RoleNameInjective(rows[0].role, Recipient);
      RoleNameInjective(rows[0].role, Logistics);
    }
  }

  /** One `$group` output document: a role and how many accounts have it. */
  datatype RoleCount = RoleCount(role: Role, count: nat)

  function Group(rows: seq<User>, role: Role): (g: seq<RoleCount>)
    ensures |g| <= 1
    ensures forall x :: x in g <==> CountRole(rows, role) > 0 && x == RoleCount(role, CountRole(rows, role))
  {
    if CountRole(rows, role) > 0 then [RoleCount(role, CountRole(rows, role))] else []
  }

  /** The groups of the roles in `roles`, in that order, skipping the roles nobody has. */
  function Groups(rows: seq<User>, roles: seq<Role>): (groups: seq<RoleCount>)
    requires forall i, j :: 0 <= i < j < |roles| ==> roles[i] != roles[j]
    ensures forall g :: g in groups ==> g.role in roles && g.count == CountRole(rows, g.role) && g.count > 0
    ensures forall role :: role in roles && CountRole(rows, role) > 0 ==> RoleCount(role, CountRole(rows, role)) in groups
    ensures forall i, j :: 0 <= i < j < |groups| ==> groups[i].role != groups[j].role
  {
    if roles == [] then []
    else
      var first, rest := Group(rows, roles[0]), Groups(rows, roles[1..]);
      var groups := first + rest;
      forall i, j | 0 <= i < j < |groups|
        ensures groups[i].role != groups[j].role
      {
        if i < |first| {
          assert groups[i] in first && groups[j] == rest[j - |first|];
          assert rest[j - |first|] in rest;
        } else {
          assert groups[i] == rest[i - |first|] && groups[j] == rest[j - |first|];
        }
      }
      groups
  }

  const AllRoles: seq<Role> := [Admin, Donor, Recipient, Logistics]

  lemma AllRolesListed(role: Role)
    ensures role in AllRoles
  {
    match role
    case Admin => assert AllRoles[0] == role;
    case Donor => assert AllRoles[1] == role;
    case Recipient => assert AllRoles[2] == role;
    case Logistics => assert AllRoles[3] == role;
  }

  /** `aggregate([{ $group: { _id: "$role", count: { $sum: 1 } } }])`: one document per
      role that some account has, with its count; no role twice. */
  function Aggregate(rows: seq<User>): (groups: seq<RoleCount>)
    ensures forall g :: g in groups ==> g.count == CountRole(rows, g.role) && g.count > 0
    ensures forall role :: CountRole(rows, role) > 0 ==> RoleCount(role, CountRole(rows, role)) in groups
    ensures forall i, j :: 0 <= i < j < |groups| ==> groups[i].role != groups[j].role
  {
    forall role ensures role in AllRoles {
      AllRolesListed(role);
    }
    Groups(rows, AllRoles)
  }

  /** `groups[i]` is the last group for its role. */
  predicate LastFor(groups: seq<RoleCount>, i: int, n: int) {
    0 <= i < n <= |groups| && forall j :: i < j < n ==> groups[j].role != groups[i].role
  }

  /** `usersByRole.forEach(r => totals[r._id] = r.count)`: a key per role that occurs,
      holding the count of the last group for that role. */
  method Totals(groups: seq<RoleCount>) returns (totals: map<Role, nat>)
    ensures forall role :: role in totals <==> exists i :: 0 <= i < |groups| && groups[i].role == role
    ensures forall i :: LastFor(groups, i, |groups|) ==> totals[groups[i].role] == groups[i].count
  {
    totals := map[];
    var n := 0;
    while n < |groups|
      invariant 0 <= n <= |groups|
      invariant forall role :: role in totals <==> exists i :: 0 <= i < n && groups[i].role == role
      invariant forall i :: LastFor(groups, i, n) ==> totals[groups[i].role] == groups[i].count
    {
      totals := totals[groups[n].role := groups[n].count];
      n := n + 1;
    }
  }

  /** The per-role keys of `totals`: a key for each role some account has, holding the
      number of accounts with it. */
  method RoleTotals(users: seq<User>) returns (byRole: map<Role, nat>)
    ensures forall role :: role in byRole <==> CountRole(users, role) > 0
    ensures forall role :: role in byRole ==> byRole[role] == CountRole(users, role)
  {
    var groups := Aggregate(users);
    byRole := Totals(groups);
    forall role | role in byRole
      ensures byRole[role] == CountRole(users, role)
    {
      var i :| 0 <= i < |groups| && groups[i].role == role;
      assert LastFor(groups, i, |groups|);
      assert groups[i] in groups;
    }
    forall role | CountRole(users, role) > 0
      ensures role in byRole
    {
      var g := RoleCount(role, CountRole(users, role));
      var i :| 0 <= i < |groups| && groups[i] == g;
    }
  }

  /** The fields `recentDrives` selects. */
  datatype DriveSummary = DriveSummary(id: Id, title: string, startDate: Time, endDate: Time)

  function Summaries(ds: seq<DriveModel.Drive>): (r: seq<DriveSummary>)
    ensures |r| == |ds|
    ensures forall i :: 0 <= i < |ds| ==> r[i] == DriveSummary(ds[i].id, ds[i].title, ds[i].startDate, ds[i].endDate)
  {
    seq(|ds|, i requires 0 <= i < |ds| => DriveSummary(ds[i].id, ds[i].title, ds[i].startDate, ds[i].endDate))
  }

  function DriveKey(d: DriveModel.Drive): Listing.SortKey {
    Listing.NewestFirst(d.createdAt)
  }

  /** `find().sort({ createdAt: -1 }).limit(5)`: five distinct stored drives at most,
      newest first; every drive left out is no newer than every drive listed. */
  function RecentDrives(rows: seq<DriveModel.Drive>): (r: seq<DriveModel.Drive>)
    ensures |r| == if |rows| <= 5 then |rows| else 5
    ensures Listing.Sorted(r, DriveKey)
    ensures multiset(r) <= multiset(rows)
    ensures forall x, i :: x in multiset(rows) - multiset(r) && 0 <= i < |r| ==> x.createdAt <= r[i].createdAt
  {
    var r := Listing.Newest(rows, DriveKey, 5);
    forall x, i | x in multiset(rows) - multiset(r) && 0 <= i < |r|
      ensures x.createdAt <= r[i].createdAt
    {
      assert Listing.KeyLe(DriveKey(r[i]), DriveKey(x));
    }
    r
  }

  predicate IsActive(d: DriveModel.Drive) {
    d.status == DriveModel.Active || d.status == DriveModel.Upcoming
  }

  predicate IsPending(r: RequestModel.Request) {
    r.status == RequestModel.Pending
  }

  predicate IsAvailable(d: DonationModel.Donation) {
    d.status == DonationModel.Available
  }

  /** The statistics response: `totals` (split into its per-role keys and its four fixed
      keys), the two status counts and the recent drives. */
  datatype Stats = Stats(
    byRole: map<Role, nat>,
    users: nat,
    donations: nat,
    requests: nat,
    activeDrives: nat,
    pendingRequests: nat,
    availableDonations: nat,
    recentDrives: seq<DriveSummary>)

  /** `getStats`, over the documents of each collection. */
  method GetStats(db: Db.Store, actor: Actor) returns (r: Response<Stats>)
    ensures actor.role != Admin ==> r == Forbidden
    ensures actor.role == Admin ==> r.Ok?
    ensures r.Ok? ==>
              var users := Db.Rows(db.users, db.nextId);
              && (forall role :: role in r.value.byRole <==> CountRole(users, role) > 0)
              && (forall role :: role in r.value.byRole ==> r.value.byRole[role] == CountRole(users, role))
              && r.value.users == |users|
              && r.value.donations == |Db.Rows(db.donations, db.nextId)|
              && r.value.requests == |Db.Rows(db.requests, db.nextId)|
              && r.value.activeDrives == |Listing.Filter(Db.Rows(db.drives, db.nextId), IsActive)|
              && r.value.pendingRequests == |Listing.Filter(Db.Rows(db.requests, db.nextId), IsPending)|
              && r.value.availableDonations == |Listing.Filter(Db.Rows(db.donations, db.nextId), IsAvailable)|
              && r.value.recentDrives == Summaries(RecentDrives(Db.Rows(db.drives, db.nextId)))
  {
    if actor.role != Admin {
      return Forbidden;
    }
    var users := Db.Rows(db.users, db.nextId);
    var byRole := RoleTotals(users);
    var requests := Db.Rows(db.requests, db.nextId);
    var donations := Db.Rows(db.donations, db.nextId);
    var drives := Db.Rows(db.drives, db.nextId);
    r := Ok(Stats(byRole, |users|, |donations|, |requests|,
                  |Listing.Filter(drives, IsActive)|,
                  |Listing.Filter(requests, IsPending)|,
                  |Listing.Filter(donations, IsAvailable)|,
                  Summaries(RecentDrives(drives))));
  }

  // ---------------------------------------------------------------- reports

  datatype EntryKind = DonationEntry | RequestEntry

  /** `{ type, createdAt, title, summary: description }`. */
  datatype ReportEntry = ReportEntry(kind: EntryKind, createdAt: Time, title: string, summary: string)

  function DonationReport(d: DonationModel.Donation): ReportEntry {
    ReportEntry(DonationEntry, d.createdAt, d.title, d.description)
  }

  function RequestReport(r: RequestModel.Request): ReportEntry {
    ReportEntry(RequestEntry, r.createdAt, r.title, r.description)
  }

  function DonationEntries(ds: seq<DonationModel.Donation>): (r: seq<ReportEntry>)
    ensures |r| == |ds|
    ensures forall i :: 0 <= i < |ds| ==> r[i] == DonationReport(ds[i])
  {
    seq(|ds|, i requires 0 <= i < |ds| => DonationReport(ds[i]))
  }

  function RequestEntries(rs: seq<RequestModel.Request>): (r: seq<ReportEntry>)
    ensures |r| == |rs|
    ensures forall i :: 0 <= i < |rs| ==> r[i] == RequestReport(rs[i])
  {
    seq(|rs|, i requires 0 <= i < |rs| => RequestReport(rs[i]))
  }

  function DonationKey(d: DonationModel.Donation): Listing.SortKey {
    Listing.NewestFirst(d.createdAt)
  }

  function RequestKey(r: RequestModel.Request): Listing.SortKey {
    Listing.NewestFirst(r.createdAt)
  }

  function EntryKey(e: ReportEntry): Listing.SortKey {
    Listing.NewestFirst(e.createdAt)
  }

  /** The merged entries before the final sort: the entries of the 20 newest donations,
      then those of the 20 newest requests. */
  function Merged(donations: seq<DonationModel.Donation>, requests: seq<RequestModel.Request>): (m: seq<ReportEntry>)
    ensures |m| <= 40
    ensures var top, rest := Listing.Newest(donations, DonationKey, 20), Listing.Newest(requests, RequestKey, 20);
            && |m| == |top| + |rest|
            && (forall i :: 0 <= i < |top| ==> m[i] == DonationReport(top[i]))
            && (forall i :: |top| <= i < |m| ==> m[i] == RequestReport(rest[i - |top|]))
  {
    DonationEntries(Listing.Newest(donations, DonationKey, 20)) +
    RequestEntries(Listing.Newest(requests, RequestKey, 20))
  }

  /** `getReports`: the merge sorted newest first, cut at 100 entries, which it never
      reaches. */
  function GetReports(donations: seq<DonationModel.Donation>, requests: seq<RequestModel.Request>, actor: Actor): (r: Response<seq<ReportEntry>>)
    ensures actor.role != Admin <==> r == Forbidden
    ensures r.Ok? || r.Forbidden?
    ensures r.Ok? ==>
              && |r.value| == |Merged(donations, requests)| <= 40
              && multiset(r.value) == multiset(Merged(donations, requests))
              && Listing.Sorted(r.value, EntryKey)
  {
    if actor.role != Admin then Forbidden
    else Ok(Listing.Take(Listing.SortBy(Merged(donations, requests), EntryKey), 100))
  }

  /** Every donation entry of the merge is built from a stored donation. */
  lemma ReportedDonationsAreStored(donations: seq<DonationModel.Donation>, requests: seq<RequestModel.Request>, e: ReportEntry)
    requires e in Merged(donations, requests) && e.kind == DonationEntry
    ensures exists d :: d in donations && e == DonationReport(d)
  {
    var top := Listing.Newest(donations, DonationKey, 20);
    var m := Merged(donations, requests);
    var i :| 0 <= i < |m| && m[i] == e;
    if i >= |top| {
      assert false;
    }
    assert top[i] in multiset(top);
  }

  /** Every request entry of the merge is built from a stored request. */
  lemma ReportedRequestsAreStored(donations: seq<DonationModel.Donation>, requests: seq<RequestModel.Request>, e: ReportEntry)
    requires e in Merged(donations, requests) && e.kind == RequestEntry
    ensures exists r :: r in requests && e == RequestReport(r)
  {
    var top := Listing.Newest(donations, DonationKey, 20);
    var rest := Listing.Newest(requests, RequestKey, 20);
    var m := Merged(donations, requests);
    var i :| 0 <= i < |m| && m[i] == e;
    if i < |top| {
      assert false;
    }
    assert rest[i - |top|] in multiset(rest);
  }

  /** A donation whose entry is missing from the merge is not among the 20 kept. */
  lemma DonationLeftOut(donations: seq<DonationModel.Donation>, requests: seq<RequestModel.Request>,
                        d: DonationModel.Donation)
    requires d in donations && DonationReport(d) !in Merged(donations, requests)
    ensures d in multiset(donations) - multiset(Listing.Newest(donations, DonationKey, 20))
  {
    var top := Listing.Newest(donations, DonationKey, 20);
    var m := Merged(donations, requests);
    forall k | 0 <= k < |top|
      ensures top[k] != d
    {
      assert m[k] == DonationReport(top[k]);
    }
  }

  /** A request whose entry is missing from the merge is not among the 20 kept. */
  lemma RequestLeftOut(donations: seq<DonationModel.Donation>, requests: seq<RequestModel.Request>,
                       r: RequestModel.Request)
    requires r in requests && RequestReport(r) !in Merged(donations, requests)
    ensures r in multiset(requests) - multiset(Listing.Newest(requests, RequestKey, 20))
  {
    var top := Listing.Newest(donations, DonationKey, 20);
    var rest := Listing.Newest(requests, RequestKey, 20);
    var m := Merged(donations, requests);
    forall k | 0 <= k < |rest|
      ensures rest[k] != r
    {
      assert m[|top| + k] == RequestReport(rest[k]);
    }
  }

  /** A donation whose entry is not in the report is no newer than any donation that
      is: the report keeps the newest donations. */
  lemma UnreportedDonationsAreOlder(donations: seq<DonationModel.Donation>, requests: seq<RequestModel.Request>,
                                    d: DonationModel.Donation, e: ReportEntry)
    requires d in donations && DonationReport(d) !in Merged(donations, requests)
    requires e in Merged(donations, requests) && e.kind == DonationEntry
    ensures d.createdAt <= e.createdAt
  {
    var top := Listing.Newest(donations, DonationKey, 20);
    var m := Merged(donations, requests);
    DonationLeftOut(donations, requests, d);
    var i :| 0 <= i < |m| && m[i] == e;
    if i >= |top| {
      assert false;
    }
    assert Listing.KeyLe(DonationKey(top[i]), DonationKey(d));
  }

  /** A request whose entry is not in the report is no newer than any request that is. */
  lemma UnreportedRequestsAreOlder(donations: seq<DonationModel.Donation>, requests: seq<RequestModel.Request>,
                                   r: RequestModel.Request, e: ReportEntry)
    requires r in requests && RequestReport(r) !in Merged(donations, requests)
    requires e in Merged(donations, requests) && e.kind == RequestEntry
    ensures r.createdAt <= e.createdAt
  {
    var top := Listing.Newest(donations, DonationKey, 20);
    var rest := Listing.Newest(requests, RequestKey, 20);
    var m := Merged(donations, requests);
    RequestLeftOut(donations, requests, r);
    var i :| 0 <= i < |m| && m[i] == e;
    if i < |top| {
      assert false;
    }
    var j := i - |top|;
    assert e == RequestReport(rest[j]);
    assert Listing.KeyLe(RequestKey(rest[j]), RequestKey(r));
  }
}
