/** The Donation schema: a donor's offer of items, with its enums, defaults and value
    bounds, and how a body or an update patch overlays a stored donation. */
module DonationModel {
  import opened Common
  import opened Items
  import Text

  datatype Condition = New | LikeNew | Good | Fair | Poor

  function ConditionName(c: Condition): string {
    match c
    case New => "new"
    case LikeNew => "like_new"
    case Good => "good"
    case Fair => "fair"
    case Poor => "poor"
  }

  function ParseCondition(s: string): (r: Option<Condition>)
    ensures r.Some? ==> ConditionName(r.value) == s
    ensures r.None? ==> forall c :: ConditionName(c) != s
  {
    if s == "new" then Some(New)
    else if s == "like_new" then Some(LikeNew)
    else if s == "good" then Some(Good)
    else if s == "fair" then Some(Fair)
    else if s == "poor" then Some(Poor)
    else None
  }

  datatype DonationStatus = Available | Reserved | Donated | Expired

  function StatusName(s: DonationStatus): string {
    match s
    case Available => "available"
    case Reserved => "reserved"
    case Donated => "donated"
    case Expired => "expired"
  }

  /** A stored donation. A required string that was never supplied is the empty string. */
  datatype Donation = Donation(
    id: Id,
    donor: Id,
    title: string,
    description: string,
    category: Category,
    subcategory: string,
    quantity: int,
    unit: string,
    condition: Condition,
    images: seq<string>,
    location: Location,
    status: DonationStatus,
    drive: Option<Id>,
    recipient: Option<Id>,
    logistics: Option<Id>,
    deliveryDate: Option<Time>,
    deliveryStatus: DeliveryStatus,
    feedback: Feedback,
    isEmergency: bool,
    expiryDate: Option<Time>,
    tags: seq<string>,
    createdAt: Time,
    updatedAt: Time)

  /** The schema's validators: required strings (every image URI among them) are
      non-empty, at least one item is offered, and a rating lies in 1..5. */
  predicate SchemaValid(d: Donation) {
    && d.title != "" && d.description != "" && d.subcategory != "" && d.unit != ""
    && d.quantity >= 1
    && (forall i :: 0 <= i < |d.images| ==> d.images[i] != "")
    && FeedbackValid(d.feedback)
  }

  /** A donation built from the fields the create route validates, every other field at
      its schema default (and the required `subcategory` and `unit` still missing). */
  function NewDonation(id: Id, donor: Id, title: string, description: string, category: Category,
                       quantity: int, condition: Condition, now: Time): (d: Donation)
    ensures d.id == id && d.donor == donor && d.createdAt == now && d.updatedAt == now
    ensures d.status == Available && d.drive == None && d.recipient == None && d.logistics == None
    ensures d.deliveryStatus == DeliveryPending && !d.isEmergency && d.images == []
  {
    Donation(id, donor, title, description, category, "", quantity, "", condition, [],
             NoLocation, Available, None, None, None, None, DeliveryPending, NoFeedback,
             false, None, [], now, now)
  }

  /** The body fields that no route validator looks at; each one present overrides the
      stored value. */
  datatype DonationFields = DonationFields(
    donor: Option<Id>,
    subcategory: Option<string>,
    unit: Option<string>,
    images: Option<seq<string>>,
    location: Option<Location>,
    status: Option<DonationStatus>,
    drive: Option<Id>,
    recipient: Option<Id>,
    logistics: Option<Id>,
    deliveryDate: Option<Time>,
    deliveryStatus: Option<DeliveryStatus>,
    feedback: Option<Feedback>,
    isEmergency: Option<bool>,
    expiryDate: Option<Time>,
    tags: Option<seq<string>>)

  const NoFields: DonationFields :=
    DonationFields(None, None, None, None, None, None, None, None, None, None, None, None, None, None, None)

  /** The body fields outside the validated ones, overlaid on a stored donation. */
  function ApplyFields(d: Donation, f: DonationFields): Donation
  {
    d.(donor := OrDefault(f.donor, d.donor),
       subcategory := OrDefault(f.subcategory, d.subcategory),
       unit := OrDefault(f.unit, d.unit),
       images := OrDefault(f.images, d.images),
       location := OrDefault(f.location, d.location),
       status := OrDefault(f.status, d.status),
       drive := if f.drive.Some? then f.drive else d.drive,
       recipient := if f.recipient.Some? then f.recipient else d.recipient,
       logistics := if f.logistics.Some? then f.logistics else d.logistics,
       deliveryDate := if f.deliveryDate.Some? then f.deliveryDate else d.deliveryDate,
       deliveryStatus := OrDefault(f.deliveryStatus, d.deliveryStatus),
       feedback := OrDefault(f.feedback, d.feedback),
       isEmergency := OrDefault(f.isEmergency, d.isEmergency),
       expiryDate := if f.expiryDate.Some? then f.expiryDate else d.expiryDate,
       tags := OrDefault(f.tags, d.tags))
  }

  /** An update body, already cast to the schema's types. */
  datatype DonationPatch = DonationPatch(
    title: Option<string>,
    description: Option<string>,
    category: Option<Category>,
    quantity: Option<int>,
    condition: Option<Condition>,
    fields: DonationFields)

  /** `findByIdAndUpdate(id, body)`: every path present is set (the schema trims a title),
      and the timestamps plugin stamps `updatedAt`. */
  function ApplyPatch(d: Donation, p: DonationPatch, now: Time): (u: Donation)
    ensures u.id == d.id && u.createdAt == d.createdAt && u.updatedAt == now
    ensures p.fields.donor.None? ==> u.donor == d.donor
    ensures p.fields.status.None? ==> u.status == d.status
  {
    ApplyFields(d, p.fields).(
      title := if p.title.Some? then Text.Trim(p.title.value) else d.title,
      description := OrDefault(p.description, d.description),
      category := OrDefault(p.category, d.category),
      quantity := OrDefault(p.quantity, d.quantity),
      condition := OrDefault(p.condition, d.condition),
      updatedAt := now)
  }

  /** `$set` path by path: each path the body sets takes the body's value (a title
      trimmed), each path it leaves out keeps the stored value. */
  lemma PatchPaths(d: Donation, p: DonationPatch, now: Time, u: Donation)
    requires u == ApplyPatch(d, p, now)
    ensures p.title.Some? ==> u.title == Text.Trim(p.title.value)
    ensures p.title.None? ==> u.title == d.title
    ensures p.description.Some? ==> u.description == p.description.value
    ensures p.description.None? ==> u.description == d.description
    ensures p.category.Some? ==> u.category == p.category.value
    ensures p.category.None? ==> u.category == d.category
    ensures p.quantity.Some? ==> u.quantity == p.quantity.value
    ensures p.quantity.None? ==> u.quantity == d.quantity
    ensures p.condition.Some? ==> u.condition == p.condition.value
    ensures p.condition.None? ==> u.condition == d.condition
    ensures p.fields.donor.Some? ==> u.donor == p.fields.donor.value
    ensures p.fields.donor.None? ==> u.donor == d.donor
    ensures p.fields.subcategory.Some? ==> u.subcategory == p.fields.subcategory.value
    ensures p.fields.subcategory.None? ==> u.subcategory == d.subcategory
    ensures p.fields.unit.Some? ==> u.unit == p.fields.unit.value
    ensures p.fields.unit.None? ==> u.unit == d.unit
    ensures p.fields.images.Some? ==> u.images == p.fields.images.value
    ensures p.fields.images.None? ==> u.images == d.images
    ensures p.fields.location.Some? ==> u.location == p.fields.location.value
    ensures p.fields.location.None? ==> u.location == d.location
    ensures p.fields.status.Some? ==> u.status == p.fields.status.value
    ensures p.fields.status.None? ==> u.status == d.status
    ensures p.fields.drive.Some? ==> u.drive == p.fields.drive
    ensures p.fields.drive.None? ==> u.drive == d.drive
    ensures p.fields.recipient.Some? ==> u.recipient == p.fields.recipient
    ensures p.fields.recipient.None? ==> u.recipient == d.recipient
    ensures p.fields.logistics.Some? ==> u.logistics == p.fields.logistics
    ensures p.fields.logistics.None? ==> u.logistics == d.logistics
    ensures p.fields.deliveryDate.Some? ==> u.deliveryDate == p.fields.deliveryDate
    ensures p.fields.deliveryDate.None? ==> u.deliveryDate == d.deliveryDate
    ensures p.fields.deliveryStatus.Some? ==> u.deliveryStatus == p.fields.deliveryStatus.value
    ensures p.fields.deliveryStatus.None? ==> u.deliveryStatus == d.deliveryStatus
    ensures p.fields.feedback.Some? ==> u.feedback == p.fields.feedback.value
    ensures p.fields.feedback.None? ==> u.feedback == d.feedback
    ensures p.fields.isEmergency.Some? ==> u.isEmergency == p.fields.isEmergency.value
    ensures p.fields.isEmergency.None? ==> u.isEmergency == d.isEmergency
    ensures p.fields.expiryDate.Some? ==> u.expiryDate == p.fields.expiryDate
    ensures p.fields.expiryDate.None? ==> u.expiryDate == d.expiryDate
    ensures p.fields.tags.Some? ==> u.tags == p.fields.tags.value
    ensures p.fields.tags.None? ==> u.tags == d.tags
  {
  }

  /** The update validators, which look only at the paths the patch sets. */
  predicate PatchValid(p: DonationPatch) {
    && (p.title.Some? ==> Text.Trim(p.title.value) != "")
    && (p.description.Some? ==> p.description.value != "")
    && (p.quantity.Some? ==> p.quantity.value >= 1)
    && (p.fields.subcategory.Some? ==> p.fields.subcategory.value != "")
    && (p.fields.unit.Some? ==> p.fields.unit.value != "")
    && (p.fields.images.Some? ==> forall i :: 0 <= i < |p.fields.images.value| ==> p.fields.images.value[i] != "")
    && (p.fields.feedback.Some? ==> FeedbackValid(p.fields.feedback.value))
  }

  /** On a valid stored donation, validating the whole updated document gives the same
      verdict as validating only the paths the patch sets. */
  lemma PatchValidity(d: Donation, p: DonationPatch, now: Time)
    requires SchemaValid(d)
    ensures SchemaValid(ApplyPatch(d, p, now)) <==> PatchValid(p)
  {
  }

  /** An empty patch only refreshes `updatedAt`. */
  lemma EmptyPatch(d: Donation, now: Time)
    ensures ApplyPatch(d, DonationPatch(None, None, None, None, None, NoFields), now) == d.(updatedAt := now)
  {
  }
}
