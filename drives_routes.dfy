/** The donation-drive routes: the public list and detail, the admin's create, update
    and delete, and joining a drive as a volunteer. */
module DriveRoutes {
  import opened Common
  import opened DriveModel
  import Text
  import Listing
  import Db

  // ---------------------------------------------------------------- listing

  /** The query parameters the list handler reads; any other key is ignored. */
  datatype DriveQuery = DriveQuery(filter: DriveFilter, page: Option<Pos>, limit: Option<Pos>)

  datatype DriveFilter = DriveFilter(
    status: Option<string>,
    category: Option<string>,
    isEmergency: Option<string>)

  /** Exact equality on the status and the category when given; `isEmergency`, when
      present at all (even empty), selects the emergency drives exactly when it is "true". */
  predicate Matches(d: Drive, q: DriveFilter) {
    && (Given(q.status) ==> StatusName(d.status) == q.status.value)
    && (Given(q.category) ==> CategoryName(d.category) == q.category.value)
    && (q.isEmergency.Some? ==> d.isEmergency == (q.isEmergency.value == "true"))
  }

  function Selects(q: DriveFilter): Drive -> bool {
    d => Matches(d, q)
  }

  /** Any value of `isEmergency` other than "true" selects the drives that are not
      emergencies. */
  lemma EmergencyFlagIsExact(d: Drive, v: string)
    ensures Matches(d, DriveFilter(None, None, Some(v))) <==> (d.isEmergency <==> v == "true")
  {
  }

  function NewestKey(d: Drive): Listing.SortKey {
    Listing.NewestFirst(d.createdAt)
  }

  /** `GET /`: page `page` (default 1) of `limit` (default 10) matching drives,
      newest first. */
  function List(rows: seq<Drive>, q: DriveQuery): (r: Listing.ListPage<Drive>)
    ensures forall x :: x in r.items ==> x in rows && Matches(x, q.filter)
    ensures Listing.Sorted(r.items, NewestKey)
    ensures |r.items| <= OrDefault(q.limit, 10) && r.currentPage == OrDefault(q.page, 1)
    ensures r.total == |Listing.Filter(rows, Selects(q.filter))|
    ensures r.totalPages == Listing.TotalPages(r.total, OrDefault(q.limit, 10))
    ensures r.items == Listing.Paginate(Listing.SortBy(Listing.Filter(rows, Selects(q.filter)), NewestKey), OrDefault(q.page, 1), OrDefault(q.limit, 10))
  {
    Listing.Listed(rows, Selects(q.filter), NewestKey, OrDefault(q.page, 1), OrDefault(q.limit, 10))
  }

  /** Every matching drive is on some page within the reported page count. */
  lemma ListComplete(rows: seq<Drive>, q: DriveQuery, x: Drive)
    requires x in rows && Matches(x, q.filter)
    ensures exists page: Pos :: page <= List(rows, q).totalPages && x in List(rows, q.(page := Some(page))).items
  {
    Listing.ListedComplete(rows, Selects(q.filter), NewestKey, OrDefault(q.limit, 10), x);
    var page: Pos :| page <= Listing.TotalPages(|Listing.Filter(rows, Selects(q.filter))|, OrDefault(q.limit, 10)) &&
                     x in Listing.Listed(rows, Selects(q.filter), NewestKey, page, OrDefault(q.limit, 10)).items;
    assert x in List(rows, q.(page := Some(page))).items;
  }

  /** `GET /:id`. */
  function Get(drives: map<Id, Drive>, id: Id): (r: Response<Drive>)
    ensures r.Ok? <==> id in drives
    ensures r.Ok? ==> r.value == drives[id]
    ensures !r.Ok? ==> r == NotFound
  {
    if id in drives then Ok(drives[id]) else NotFound
  }

  // ---------------------------------------------------------------- create

  /** A date field of the body: an ISO 8601 string, parsed to its instant, or anything else. */
  datatype DateInput = IsoDate(at: Time) | NotIsoDate

  /** A create body: the validated fields as sent, every other field already cast, and
      a `createdAt` if the body sends one. A body `_id` or `updatedAt` is not part of
      the model (the timestamps plugin overwrites `updatedAt` on the first save). */
  datatype DriveBody = DriveBody(
    title: string,
    description: string,
    category: string,
    startDate: DateInput,
    endDate: DateInput,
    fields: DriveFields,
    createdAt: Option<Time>)

  /** The chain's `trim()` sanitizers rewrite the title and the description in the body. */
  function Sanitize(b: DriveBody): (s: DriveBody)
    ensures s.title == Text.Trim(b.title) && s.description == Text.Trim(b.description)
    ensures Text.IsTrimmed(s.title) && Text.IsTrimmed(s.description)
    ensures s.(title := b.title, description := b.description) == b
  {
    b.(title := Text.Trim(b.title), description := Text.Trim(b.description))
  }

  /** What the checks accept of a sanitized body; nothing relates the two dates. */
  predicate BodyValid(b: DriveBody) {
    && |b.title| >= 3
    && |b.description| >= 10
    && ParseCategory(b.category).Some?
    && b.startDate.IsoDate?
    && b.endDate.IsoDate?
  }

  /** `validationResult(req)`: one error per failing check, in the chain's order. */
  function CreateErrors(b: DriveBody): (errs: seq<FieldError>)
    ensures errs == [] <==> BodyValid(b)
    ensures |errs| <= 5
    ensures InChainOrder(errs)
    ensures forall i, j :: 0 <= i < j < |errs| ==> errs[i] != errs[j]
  {
    Report(|b.title| < 3, |b.description| < 10, ParseCategory(b.category).None?,
           b.startDate.NotIsoDate?, b.endDate.NotIsoDate?)
  }

  /** The errors of the failing checks, in the chain's order. */
  function Report(title: bool, description: bool, category: bool, startDate: bool, endDate: bool): (r: seq<FieldError>)
    ensures r == [] <==> !title && !description && !category && !startDate && !endDate
    ensures |r| <= 5
    ensures InChainOrder(r)
  {
    Check(title, TitleTooShort, Check(description, DescriptionTooShort, Check(category, BadCategory,
      Check(startDate, BadStartDate, Check(endDate, BadEndDate, [])))))
  }

  /** The report names exactly the failing checks. */
  lemma ReportNames(title: bool, description: bool, category: bool, startDate: bool, endDate: bool)
    ensures TitleTooShort in Report(title, description, category, startDate, endDate) <==> title
    ensures DescriptionTooShort in Report(title, description, category, startDate, endDate) <==> description
    ensures BadCategory in Report(title, description, category, startDate, endDate) <==> category
    ensures BadStartDate in Report(title, description, category, startDate, endDate) <==> startDate
    ensures BadEndDate in Report(title, description, category, startDate, endDate) <==> endDate
  {
  }

  /** Each error is reported exactly when its check fails. */
  lemma CreateErrorsNameFailures(b: DriveBody)
    ensures TitleTooShort in CreateErrors(b) <==> |b.title| < 3
    ensures DescriptionTooShort in CreateErrors(b) <==> |b.description| < 10
    ensures BadCategory in CreateErrors(b) <==> ParseCategory(b.category).None?
    ensures BadStartDate in CreateErrors(b) <==> b.startDate.NotIsoDate?
    ensures BadEndDate in CreateErrors(b) <==> b.endDate.NotIsoDate?
  {
    ReportNames(|b.title| < 3, |b.description| < 10, ParseCategory(b.category).None?,
                b.startDate.NotIsoDate?, b.endDate.NotIsoDate?);
  }

  /** `new DonationDrive({ ...req.body, organizer: req.user._id })` on the sanitized body:
      the parsed category and dates, the schema defaults for what the body omits, and the
      actor as organizer. */
  function Build(id: Id, organizer: Id, b: DriveBody, now: Time): (d: Drive)
    requires BodyValid(b)
    ensures d.id == id && d.organizer == organizer
    ensures b.createdAt.Some? ==> d.createdAt == b.createdAt.value
    ensures b.createdAt.None? ==> d.createdAt == now
    ensures d.updatedAt == d.createdAt
    ensures d.title == b.title && |d.title| >= 3 && d.description == b.description && |d.description| >= 10
    ensures CategoryName(d.category) == b.category
    ensures d.startDate == b.startDate.at && d.endDate == b.endDate.at
    ensures d.status == OrDefault(b.fields.status, Upcoming)
    ensures d.isEmergency == OrDefault(b.fields.isEmergency, false) && d.emergencyType == b.fields.emergencyType
    ensures d.volunteers == OrDefault(b.fields.volunteers, [])
  {
    var base := NewDrive(id, organizer, b.title, b.description, ParseCategory(b.category).value,
                         b.startDate.at, b.endDate.at, OrDefault(b.createdAt, now));
    ApplyFields(base, b.fields.(organizer := None))
  }

  /** An organizer named in the body has no effect. */
  lemma BuildIgnoresBodyOrganizer(id: Id, organizer: Id, b: DriveBody, other: Id, now: Time)
    requires BodyValid(b)
    ensures Build(id, organizer, b.(fields := b.fields.(organizer := Some(other))), now) == Build(id, organizer, b, now)
  {
  }

  /** A body the route accepts is stored exactly when an emergency drive also names its
      emergency type; otherwise `save()` fails. */
  lemma SaveSucceeds(id: Id, organizer: Id, b: DriveBody, now: Time)
    requires BodyValid(b)
    ensures SchemaValid(Build(id, organizer, b, now)) <==>
            (OrDefault(b.fields.isEmergency, false) ==> b.fields.emergencyType.Some?)
  {
  }

  /** A drive that ends before it starts passes the checks and is stored. */
  lemma EndBeforeStartAccepted(id: Id, organizer: Id, b: DriveBody, now: Time)
    requires BodyValid(b) && b.endDate.at < b.startDate.at && b.fields.isEmergency.None?
    ensures CreateErrors(b) == [] && SchemaValid(Build(id, organizer, b, now))
    ensures Build(id, organizer, b, now).endDate < Build(id, organizer, b, now).startDate
  {
  }

  /** `POST /` (admins only). */
  method Create(db: Db.Store, actor: Actor, body: DriveBody, now: Time) returns (r: Response<Drive>)
    requires db.Valid()
    modifies db
    ensures db.Valid()
    ensures actor.role != Admin ==> r == Forbidden
    ensures actor.role == Admin && !BodyValid(Sanitize(body)) ==> r == BadRequest(Messages(CreateErrors(Sanitize(body))))
    ensures actor.role == Admin && BodyValid(Sanitize(body)) ==>
              var made := Build(old(db.nextId), actor.id, Sanitize(body), now);
              if SchemaValid(made)
              then r == Created(made) &&
                   db.Snapshot() == old(db.Snapshot()).(drives := old(db.drives)[made.id := made], nextId := made.id + 1)
              else r == ServerError
    ensures !r.Created? ==> db.Snapshot() == old(db.Snapshot())
  {
    if actor.role != Admin {
      return Forbidden;
    }
    var b := Sanitize(body);
    var errors := CreateErrors(b);
    if errors != [] {
      return BadRequest(Messages(errors));
    }
    var made := Build(db.nextId, actor.id, b, now);
    if !SchemaValid(made) {
      return ServerError;
    }
    SchemaValidHasRequired(made);
    db.AddDrive(made);
    r := Created(made);
  }

  // ---------------------------------------------------------------- update, delete

  /** `PUT /:id` (admins only): the update validators run on the body before the lookup,
      so an invalid body fails even for a missing drive. */
  method Update(db: Db.Store, actor: Actor, id: Id, p: DrivePatch, now: Time) returns (r: Response<Drive>)
    requires db.Valid()
    modifies db
    ensures db.Valid()
    ensures actor.role != Admin ==> r == Forbidden
    ensures actor.role == Admin && !PatchValid(p) ==> r == ServerError
    ensures actor.role == Admin && PatchValid(p) ==>
              r == if id in old(db.drives) then Ok(ApplyPatch(old(db.drives)[id], p, now)) else NotFound
    ensures db.Snapshot() == if r.Ok? then old(db.Snapshot()).(drives := old(db.drives)[id := r.value]) else old(db.Snapshot())
  {
    if actor.role != Admin {
      return Forbidden;
    }
    if !PatchValid(p) {
      return ServerError;
    }
    if id !in db.drives {
      return NotFound;
    }
    var stored := db.drives[id];
    var updated := ApplyPatch(stored, p, now);
    PatchValidity(stored, p, now);
    db.PutDrive(updated);
    r := Ok(updated);
  }

  /** `DELETE /:id` (admins only). */
  method Delete(db: Db.Store, actor: Actor, id: Id) returns (r: Response<()>)
    requires db.Valid()
    modifies db
    ensures db.Valid()
    ensures actor.role != Admin ==> r == Forbidden
    ensures actor.role == Admin ==> r == if id in old(db.drives) then Ok(()) else NotFound
    ensures db.Snapshot() == if r.Ok? then old(db.Snapshot()).(drives := old(db.drives) - {id}) else old(db.Snapshot())
  {
    if actor.role != Admin {
      return Forbidden;
    }
    if id !in db.drives {
      return NotFound;
    }
    db.RemoveDrive(id);
    r := Ok(());
  }

  // ---------------------------------------------------------------- volunteers

  /** `vs[i]` is the first entry for `user`. */
  predicate FirstFor(vs: seq<Volunteer>, user: Id, i: int) {
    0 <= i < |vs| && vs[i].user == user && forall j :: 0 <= j < i ==> vs[j].user != user
  }

  /** `drive.volunteers.find(v => v.user === user)`. */
  method FindVolunteer(vs: seq<Volunteer>, user: Id) returns (found: Option<Volunteer>)
    ensures found.Some? <==> HasVolunteer(vs, user)
    ensures found.Some? ==> exists i :: FirstFor(vs, user, i) && vs[i] == found.value
  {
    var i := 0;
    while i < |vs|
      invariant 0 <= i <= |vs|
      invariant forall j :: 0 <= j < i ==> vs[j].user != user
    {
      if vs[i].user == user {
        assert FirstFor(vs, user, i);
        return Some(vs[i]);
      }
      i := i + 1;
    }
    return None;
  }

  /** `POST /:id/volunteer`: 404, then 400 for a user already listed, then the actor is
      appended and the whole drive is saved, which the schema's validators may refuse. */
  method Volunteer(db: Db.Store, actor: Actor, id: Id, role: Option<string>, now: Time) returns (r: Response<()>)
    requires db.Valid()
    modifies db
    ensures db.Valid()
    ensures id !in old(db.drives) ==> r == NotFound
    ensures id in old(db.drives) && HasVolunteer(old(db.drives)[id].volunteers, actor.id) ==>
              r == BadRequest(["Already a volunteer for this drive"])
    ensures id in old(db.drives) && !HasVolunteer(old(db.drives)[id].volunteers, actor.id) ==>
              r == if SchemaValid(old(db.drives)[id]) then Ok(()) else ServerError
    ensures db.Snapshot() == if r.Ok? then old(db.Snapshot()).(drives := old(db.drives)[id := Join(old(db.drives)[id], actor.id, role, now)])
                             else old(db.Snapshot())
  {
    if id !in db.drives {
      return NotFound;
    }
    var drive := db.drives[id];
    var existing := FindVolunteer(drive.volunteers, actor.id);
    if existing.Some? {
      return BadRequest(["Already a volunteer for this drive"]);
    }
    var joined := Join(drive, actor.id, role, now);
    JoinValidity(drive, actor.id, role, now);
    if !SchemaValid(joined) {
      return ServerError;
    }
    db.PutDrive(joined);
    r := Ok(());
  }

  /** A successful join leaves the actor registered and a duplicate-free list duplicate-free. */
  lemma VolunteerKeepsDistinct(d: Drive, user: Id, role: Option<string>, now: Time)
    requires DistinctVolunteers(d.volunteers) && !HasVolunteer(d.volunteers, user)
    ensures DistinctVolunteers(Join(d, user, role, now).volunteers)
    ensures HasVolunteer(Join(d, user, role, now).volunteers, user)
  {
    JoinKeepsDistinct(d, user, role, now);
    JoinRegisters(d, user, role, now);
  }
}
