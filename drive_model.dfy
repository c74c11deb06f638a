/** The DonationDrive schema: an admin-organised campaign, with its enums, defaults,
    the conditional requirement on `emergencyType`, and its volunteer list. */
module DriveModel {
  import opened Common
  import Text

  /** The drive categories: the item categories without `other`, plus `mixed`. */
  datatype DriveCategory = Food | Clothing | Medical | Shelter | Education | Mixed

  function CategoryName(c: DriveCategory): string {
    match c
    case Food => "food"
    case Clothing => "clothing"
    case Medical => "medical"
    case Shelter => "shelter"
    case Education => "education"
    case Mixed => "mixed"
  }

  function ParseCategory(s: string): (r: Option<DriveCategory>)
    ensures r.Some? ==> CategoryName(r.value) == s
    ensures r.None? ==> forall c :: CategoryName(c) != s
  {
    if s == "food" then Some(Food)
    else if s == "clothing" then Some(Clothing)
    else if s == "medical" then Some(Medical)
    else if s == "shelter" then Some(Shelter)
    else if s == "education" then Some(Education)
    else if s == "mixed" then Some(Mixed)
    else None
  }

  datatype DriveStatus = Upcoming | Active | Completed | Cancelled

  function StatusName(s: DriveStatus): string {
    match s
    case Upcoming => "upcoming"
    case Active => "active"
    case Completed => "completed"
    case Cancelled => "cancelled"
  }

  datatype TargetItem = TargetItem(item: Option<string>, quantity: Option<int>, unit: Option<string>, description: Option<string>)

  datatype CollectedItem = CollectedItem(item: Option<string>, quantity: Option<int>, unit: Option<string>)

  datatype Progress = Progress(totalDonations: int, totalValue: int, itemsCollected: seq<CollectedItem>)

  datatype Requirements = Requirements(minAge: int, documentation: seq<string>, specialInstructions: Option<string>)

  /** One entry of `volunteers`; the schema itself does not make `user` unique. */
  datatype Volunteer = Volunteer(user: Id, role: Option<string>, joinedAt: Time)

  datatype DriveLocation = DriveLocation(name: Option<string>, place: Location)

  /** A stored drive. A required string that was never supplied is the empty string. */
  datatype Drive = Drive(
    id: Id,
    title: string,
    description: string,
    organizer: Id,
    category: DriveCategory,
    targetItems: seq<TargetItem>,
    location: DriveLocation,
    startDate: Time,
    endDate: Time,
    status: DriveStatus,
    isEmergency: bool,
    emergencyType: Option<EmergencyType>,
    targetRecipients: int,
    currentDonations: seq<Id>,
    logistics: seq<Id>,
    volunteers: seq<Volunteer>,
    progress: Progress,
    requirements: Requirements,
    images: seq<string>,
    tags: seq<string>,
    isPublic: bool,
    createdAt: Time,
    updatedAt: Time)

  /** The schema's validators: required strings are non-empty, and `emergencyType` is
      required exactly when `isEmergency` holds (`required: function () { return this.isEmergency }`). */
  predicate SchemaValid(d: Drive) {
    && d.title != "" && d.description != ""
    && (d.isEmergency ==> d.emergencyType.Some?)
  }

  /** A drive built from the fields the create route validates, every other field at its
      schema default. Nothing relates `endDate` to `startDate`. */
  function NewDrive(id: Id, organizer: Id, title: string, description: string, category: DriveCategory,
                    startDate: Time, endDate: Time, now: Time): (d: Drive)
    ensures d.id == id && d.organizer == organizer && d.createdAt == now && d.updatedAt == now
    ensures d.status == Upcoming && !d.isEmergency && d.emergencyType == None
    ensures d.targetRecipients == 0 && d.progress.totalDonations == 0 && d.progress.totalValue == 0
    ensures d.volunteers == [] && d.requirements.minAge == 0 && d.isPublic
  {
    Drive(id, title, description, organizer, category, [], DriveLocation(None, NoLocation),
          startDate, endDate, Upcoming, false, None, 0, [], [], [],
          Progress(0, 0, []), Requirements(0, [], None), [], [], true, now, now)
  }

  /** The body fields that no route validator looks at; each one present overrides the
      stored value. */
  datatype DriveFields = DriveFields(
    organizer: Option<Id>,
    targetItems: Option<seq<TargetItem>>,
    location: Option<DriveLocation>,
    status: Option<DriveStatus>,
    isEmergency: Option<bool>,
    emergencyType: Option<EmergencyType>,
    targetRecipients: Option<int>,
    currentDonations: Option<seq<Id>>,
    logistics: Option<seq<Id>>,
    volunteers: Option<seq<Volunteer>>,
    progress: Option<Progress>,
    requirements: Option<Requirements>,
    images: Option<seq<string>>,
    tags: Option<seq<string>>,
    isPublic: Option<bool>)

  const NoFields: DriveFields :=
    DriveFields(None, None, None, None, None, None, None, None, None, None, None, None, None, None, None)

  /** The body fields outside the validated ones, overlaid on a stored drive. */
  function ApplyFields(d: Drive, f: DriveFields): Drive
  {
    d.(organizer := OrDefault(f.organizer, d.organizer),
       targetItems := OrDefault(f.targetItems, d.targetItems),
       location := OrDefault(f.location, d.location),
       status := OrDefault(f.status, d.status),
       isEmergency := OrDefault(f.isEmergency, d.isEmergency),
       emergencyType := if f.emergencyType.Some? then f.emergencyType else d.emergencyType,
       targetRecipients := OrDefault(f.targetRecipients, d.targetRecipients),
       currentDonations := OrDefault(f.currentDonations, d.currentDonations),
       logistics := OrDefault(f.logistics, d.logistics),
       volunteers := OrDefault(f.volunteers, d.volunteers),
       progress := OrDefault(f.progress, d.progress),
       requirements := OrDefault(f.requirements, d.requirements),
       images := OrDefault(f.images, d.images),
       tags := OrDefault(f.tags, d.tags),
       isPublic := OrDefault(f.isPublic, d.isPublic))
  }

  /** An update body, already cast to the schema's types. */
  datatype DrivePatch = DrivePatch(
    title: Option<string>,
    description: Option<string>,
    category: Option<DriveCategory>,
    startDate: Option<Time>,
    endDate: Option<Time>,
    fields: DriveFields)

  /** `findByIdAndUpdate(id, body)`: every path present is set (the schema trims a title),
      and the timestamps plugin stamps `updatedAt`. */
  function ApplyPatch(d: Drive, p: DrivePatch, now: Time): (u: Drive)
    ensures u.id == d.id && u.createdAt == d.createdAt && u.updatedAt == now
    ensures p.fields.volunteers.None? ==> u.volunteers == d.volunteers
  {
    ApplyFields(d, p.fields).(
      title := if p.title.Some? then Text.Trim(p.title.value) else d.title,
      description := OrDefault(p.description, d.description),
      category := OrDefault(p.category, d.category),
      startDate := OrDefault(p.startDate, d.startDate),
      endDate := OrDefault(p.endDate, d.endDate),
      updatedAt := now)
  }

  /** `$set` path by path: each path the body sets takes the body's value (a title
      trimmed), each path it leaves out keeps the stored value. */
  lemma PatchPaths(d: Drive, p: DrivePatch, now: Time, u: Drive)
    requires u == ApplyPatch(d, p, now)
    ensures p.title.Some? ==> u.title == Text.Trim(p.title.value)
    ensures p.title.None? ==> u.title == d.title
    ensures p.description.Some? ==> u.description == p.description.value
    ensures p.description.None? ==> u.description == d.description
    ensures p.category.Some? ==> u.category == p.category.value
    ensures p.category.None? ==> u.category == d.category
    ensures p.startDate.Some? ==> u.startDate == p.startDate.value
    ensures p.startDate.None? ==> u.startDate == d.startDate
    ensures p.endDate.Some? ==> u.endDate == p.endDate.value
    ensures p.endDate.None? ==> u.endDate == d.endDate
    ensures p.fields.organizer.Some? ==> u.organizer == p.fields.organizer.value
    ensures p.fields.organizer.None? ==> u.organizer == d.organizer
    ensures p.fields.targetItems.Some? ==> u.targetItems == p.fields.targetItems.value
    ensures p.fields.targetItems.None? ==> u.targetItems == d.targetItems
    ensures p.fields.location.Some? ==> u.location == p.fields.location.value
    ensures p.fields.location.None? ==> u.location == d.location
    ensures p.fields.status.Some? ==> u.status == p.fields.status.value
    ensures p.fields.status.None? ==> u.status == d.status
    ensures p.fields.isEmergency.Some? ==> u.isEmergency == p.fields.isEmergency.value
    ensures p.fields.isEmergency.None? ==> u.isEmergency == d.isEmergency
    ensures p.fields.emergencyType.Some? ==> u.emergencyType == p.fields.emergencyType
    ensures p.fields.emergencyType.None? ==> u.emergencyType == d.emergencyType
    ensures p.fields.targetRecipients.Some? ==> u.targetRecipients == p.fields.targetRecipients.value
    ensures p.fields.targetRecipients.None? ==> u.targetRecipients == d.targetRecipients
    ensures p.fields.currentDonations.Some? ==> u.currentDonations == p.fields.currentDonations.value
    ensures p.fields.currentDonations.None? ==> u.currentDonations == d.currentDonations
    ensures p.fields.logistics.Some? ==> u.logistics == p.fields.logistics.value
    ensures p.fields.logistics.None? ==> u.logistics == d.logistics
    ensures p.fields.volunteers.Some? ==> u.volunteers == p.fields.volunteers.value
    ensures p.fields.volunteers.None? ==> u.volunteers == d.volunteers
    ensures p.fields.progress.Some? ==> u.progress == p.fields.progress.value
    ensures p.fields.progress.None? ==> u.progress == d.progress
    ensures p.fields.requirements.Some? ==> u.requirements == p.fields.requirements.value
    ensures p.fields.requirements.None? ==> u.requirements == d.requirements
    ensures p.fields.images.Some? ==> u.images == p.fields.images.value
    ensures p.fields.images.None? ==> u.images == d.images
    ensures p.fields.tags.Some? ==> u.tags == p.fields.tags.value
    ensures p.fields.tags.None? ==> u.tags == d.tags
    ensures p.fields.isPublic.Some? ==> u.isPublic == p.fields.isPublic.value
    ensures p.fields.isPublic.None? ==> u.isPublic == d.isPublic
  {
  }

  /** The checks that survive an update: a title or description that the update sets
      must be non-empty. The update validators check only the set paths, and a
      `required` validator fails on a set path only when it is emptied, so the
      conditional requirement on `emergencyType` is not among them. */
  predicate PatchValid(p: DrivePatch) {
    && (p.title.Some? ==> Text.Trim(p.title.value) != "")
    && (p.description.Some? ==> p.description.value != "")
  }

  /** What every stored drive satisfies, whichever route wrote it. */
  predicate RequiredPresent(d: Drive) {
    d.title != "" && d.description != ""
  }

  lemma SchemaValidHasRequired(d: Drive)
    requires SchemaValid(d)
    ensures RequiredPresent(d)
  {
  }

  /** On a stored drive, the updated drive keeps its required strings exactly when the
      patch passes the update validators. */
  lemma PatchValidity(d: Drive, p: DrivePatch, now: Time)
    requires RequiredPresent(d)
    ensures RequiredPresent(ApplyPatch(d, p, now)) <==> PatchValid(p)
  {
  }

  /** An update that passes its validators can still leave an emergency drive without
      an emergency type, which the next `save()` of that drive then refuses. */
  lemma PatchCanBreakEmergencyRule(d: Drive, now: Time)
    requires SchemaValid(d) && d.emergencyType.None?
    ensures PatchValid(DrivePatch(None, None, None, None, None, NoFields.(isEmergency := Some(true)))) &&
            !SchemaValid(ApplyPatch(d, DrivePatch(None, None, None, None, None, NoFields.(isEmergency := Some(true))), now))
  {
  }

  /** No user appears twice among the volunteers. */
  predicate DistinctVolunteers(vs: seq<Volunteer>) {
    forall i, j :: 0 <= i < j < |vs| ==> vs[i].user != vs[j].user
  }

  /** `user` is among the volunteers. */
  predicate HasVolunteer(vs: seq<Volunteer>, user: Id) {
    exists i :: 0 <= i < |vs| && vs[i].user == user
  }

  /** `req.body.role || 'volunteer'`: a missing or empty label becomes "volunteer". */
  function RoleLabel(role: Option<string>): (l: string)
    ensures l != ""
    ensures Given(role) ==> l == role.value
    ensures !Given(role) ==> l == "volunteer"
  {
    if Given(role) then role.value else "volunteer"
  }

  /** The drive after `user` joins: one entry is pushed at the end, stamped `now`
      (the schema default of `joinedAt`), and only `updatedAt` changes besides. */
  function Join(d: Drive, user: Id, role: Option<string>, now: Time): (j: Drive)
    ensures |j.volunteers| == |d.volunteers| + 1
    ensures j.volunteers[..|d.volunteers|] == d.volunteers
    ensures j.volunteers[|d.volunteers|] == Volunteer(user, Some(RoleLabel(role)), now)
    ensures j.(volunteers := d.volunteers, updatedAt := d.updatedAt) == d
  {
    d.(volunteers := d.volunteers + [Volunteer(user, Some(RoleLabel(role)), now)], updatedAt := now)
  }

  /** Joining only when absent keeps the volunteer list free of duplicates. */
  lemma JoinKeepsDistinct(d: Drive, user: Id, role: Option<string>, now: Time)
    requires DistinctVolunteers(d.volunteers) && !HasVolunteer(d.volunteers, user)
    ensures DistinctVolunteers(Join(d, user, role, now).volunteers)
  {
    var vs := Join(d, user, role, now).volunteers;
    forall i, j | 0 <= i < j < |vs|
      ensures vs[i].user != vs[j].user
    {
      if j == |d.volunteers| {
        assert vs[i] == d.volunteers[i];
      } else {
        assert vs[i] == d.volunteers[i] && vs[j] == d.volunteers[j];
      }
    }
  }

  /** After joining, the user is a volunteer, so joining again is refused. */
  lemma JoinRegisters(d: Drive, user: Id, role: Option<string>, now: Time)
    ensures HasVolunteer(Join(d, user, role, now).volunteers, user)
  {
    var vs := Join(d, user, role, now).volunteers;
    assert vs[|d.volunteers|].user == user;
  }

  /** The volunteer list plays no part in the schema's validators. */
  lemma JoinValidity(d: Drive, user: Id, role: Option<string>, now: Time)
    ensures SchemaValid(Join(d, user, role, now)) <==> SchemaValid(d)
    ensures RequiredPresent(Join(d, user, role, now)) <==> RequiredPresent(d)
  {
  }
}
