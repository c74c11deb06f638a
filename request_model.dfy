/** The Request schema: a recipient's request for items, with its enums, defaults and
    value bounds, and how a body or an update patch overlays a stored request. */
module RequestModel {
  import opened Common
  import opened Items
  import Text

  datatype Priority = Low | Medium | High | Urgent

  function PriorityName(p: Priority): string {
    match p
    case Low => "low"
    case Medium => "medium"
    case High => "high"
    case Urgent => "urgent"
  }

  function ParsePriority(s: string): (r: Option<Priority>)
    ensures r.Some? ==> PriorityName(r.value) == s
    ensures r.None? ==> forall p :: PriorityName(p) != s
  {
    if s == "low" then Some(Low)
    else if s == "medium" then Some(Medium)
    else if s == "high" then Some(High)
    else if s == "urgent" then Some(Urgent)
    else None
  }

  datatype Urgency = Normal | Emergency | Critical

  function UrgencyName(u: Urgency): string {
    match u
    case Normal => "normal"
    case Emergency => "emergency"
    case Critical => "critical"
  }

  function ParseUrgency(s: string): (r: Option<Urgency>)
    ensures r.Some? ==> UrgencyName(r.value) == s
    ensures r.None? ==> forall u :: UrgencyName(u) != s
  {
    if s == "normal" then Some(Normal)
    else if s == "emergency" then Some(Emergency)
    else if s == "critical" then Some(Critical)
    else None
  }

  datatype RequestStatus = Pending | Matched | Fulfilled | Cancelled

  function StatusName(s: RequestStatus): string {
    match s
    case Pending => "pending"
    case Matched => "matched"
    case Fulfilled => "fulfilled"
    case Cancelled => "cancelled"
  }

  /** A stored request. A required string that was never supplied is the empty string. */
  datatype Request = Request(
    id: Id,
    recipient: Id,
    title: string,
    description: string,
    category: Category,
    subcategory: string,
    quantity: int,
    unit: string,
    priority: Priority,
    urgency: Urgency,
    location: Location,
    status: RequestStatus,
    matchedDonation: Option<Id>,
    drive: Option<Id>,
    logistics: Option<Id>,
    deliveryDate: Option<Time>,
    deliveryStatus: DeliveryStatus,
    feedback: Feedback,
    isEmergency: bool,
    emergencyType: Option<EmergencyType>,
    requiredBy: Option<Time>,
    tags: seq<string>,
    images: seq<string>,
    createdAt: Time,
    updatedAt: Time)

  /** The schema's validators: required strings are non-empty, at least one item is
      requested, and a rating lies in 1..5. Enum membership holds by construction. */
  predicate SchemaValid(r: Request) {
    && r.title != "" && r.description != "" && r.subcategory != "" && r.unit != ""
    && r.quantity >= 1
    && FeedbackValid(r.feedback)
  }

  /** A request built from the fields the create route validates, every other field at
      its schema default (and the required `subcategory` and `unit` still missing). */
  function NewRequest(id: Id, recipient: Id, title: string, description: string,
                      category: Category, quantity: int, now: Time): (r: Request)
    ensures r.id == id && r.recipient == recipient && r.createdAt == now && r.updatedAt == now
    ensures r.priority == Medium && r.urgency == Normal && r.status == Pending
    ensures r.matchedDonation == None && r.drive == None && r.logistics == None
    ensures r.deliveryStatus == DeliveryPending && !r.isEmergency && r.emergencyType == None
  {
    Request(id, recipient, title, description, category, "", quantity, "", Medium, Normal,
            NoLocation, Pending, None, None, None, None, DeliveryPending, NoFeedback,
            false, None, None, [], [], now, now)
  }

  /** The body fields that no route validator looks at; each one present overrides the
      stored value. */
  datatype RequestFields = RequestFields(
    recipient: Option<Id>,
    subcategory: Option<string>,
    unit: Option<string>,
    location: Option<Location>,
    status: Option<RequestStatus>,
    matchedDonation: Option<Id>,
    drive: Option<Id>,
    logistics: Option<Id>,
    deliveryDate: Option<Time>,
    deliveryStatus: Option<DeliveryStatus>,
    feedback: Option<Feedback>,
    isEmergency: Option<bool>,
    emergencyType: Option<EmergencyType>,
    requiredBy: Option<Time>,
    tags: Option<seq<string>>,
    images: Option<seq<string>>)

  const NoFields: RequestFields :=
    RequestFields(None, None, None, None, None, None, None, None, None, None, None, None, None, None, None, None)

  /** The body fields outside the validated ones, overlaid on a stored request. */
  function ApplyFields(r: Request, f: RequestFields): Request
  {
    Request(
      r.id,
      OrDefault(f.recipient, r.recipient),
      r.title,
      r.description,
      r.category,
      OrDefault(f.subcategory, r.subcategory),
      r.quantity,
      OrDefault(f.unit, r.unit),
      r.priority,
      r.urgency,
      OrDefault(f.location, r.location),
      OrDefault(f.status, r.status),
      if f.matchedDonation.Some? then f.matchedDonation else r.matchedDonation,
      if f.drive.Some? then f.drive else r.drive,
      if f.logistics.Some? then f.logistics else r.logistics,
      if f.deliveryDate.Some? then f.deliveryDate else r.deliveryDate,
      OrDefault(f.deliveryStatus, r.deliveryStatus),
      OrDefault(f.feedback, r.feedback),
      OrDefault(f.isEmergency, r.isEmergency),
      if f.emergencyType.Some? then f.emergencyType else r.emergencyType,
      if f.requiredBy.Some? then f.requiredBy else r.requiredBy,
      OrDefault(f.tags, r.tags),
      OrDefault(f.images, r.images),
      r.createdAt,
      r.updatedAt)
  }

  /** An update body, already cast to the schema's types. */
  datatype RequestPatch = RequestPatch(
    title: Option<string>,
    description: Option<string>,
    category: Option<Category>,
    quantity: Option<int>,
    priority: Option<Priority>,
    urgency: Option<Urgency>,
    fields: RequestFields)

  /** `findByIdAndUpdate(id, body)`: every path present is set (the schema trims a title),
      and the timestamps plugin stamps `updatedAt`. */
  function ApplyPatch(r: Request, p: RequestPatch, now: Time): (u: Request)
    ensures u.id == r.id && u.createdAt == r.createdAt && u.updatedAt == now
    ensures p.fields.recipient.None? ==> u.recipient == r.recipient
    ensures p.fields.status.None? ==> u.status == r.status
  {
    ApplyFields(r, p.fields).(
      title := if p.title.Some? then Text.Trim(p.title.value) else r.title,
      description := OrDefault(p.description, r.description),
      category := OrDefault(p.category, r.category),
      quantity := OrDefault(p.quantity, r.quantity),
      priority := OrDefault(p.priority, r.priority),
      urgency := OrDefault(p.urgency, r.urgency),
      updatedAt := now)
  }

  /** `$set` path by path: each path the body sets takes the body's value (a title
      trimmed), each path it leaves out keeps the stored value. */
  lemma PatchPaths(r: Request, p: RequestPatch, now: Time, u: Request)
    requires u == ApplyPatch(r, p, now)
    ensures p.title.Some? ==> u.title == Text.Trim(p.title.value)
    ensures p.title.None? ==> u.title == r.title
    ensures p.description.Some? ==> u.description == p.description.value
    ensures p.description.None? ==> u.description == r.description
    ensures p.category.Some? ==> u.category == p.category.value
    ensures p.category.None? ==> u.category == r.category
    ensures p.quantity.Some? ==> u.quantity == p.quantity.value
    ensures p.quantity.None? ==> u.quantity == r.quantity
    ensures p.priority.Some? ==> u.priority == p.priority.value
    ensures p.priority.None? ==> u.priority == r.priority
    ensures p.urgency.Some? ==> u.urgency == p.urgency.value
    ensures p.urgency.None? ==> u.urgency == r.urgency
    ensures p.fields.recipient.Some? ==> u.recipient == p.fields.recipient.value
    ensures p.fields.recipient.None? ==> u.recipient == r.recipient
    ensures p.fields.subcategory.Some? ==> u.subcategory == p.fields.subcategory.value
    ensures p.fields.subcategory.None? ==> u.subcategory == r.subcategory
    ensures p.fields.unit.Some? ==> u.unit == p.fields.unit.value
    ensures p.fields.unit.None? ==> u.unit == r.unit
    ensures p.fields.location.Some? ==> u.location == p.fields.location.value
    ensures p.fields.location.None? ==> u.location == r.location
    ensures p.fields.status.Some? ==> u.status == p.fields.status.value
    ensures p.fields.status.None? ==> u.status == r.status
    ensures p.fields.matchedDonation.Some? ==> u.matchedDonation == p.fields.matchedDonation
    ensures p.fields.matchedDonation.None? ==> u.matchedDonation == r.matchedDonation
    ensures p.fields.drive.Some? ==> u.drive == p.fields.drive
    ensures p.fields.drive.None? ==> u.drive == r.drive
    ensures p.fields.logistics.Some? ==> u.logistics == p.fields.logistics
    ensures p.fields.logistics.None? ==> u.logistics == r.logistics
    ensures p.fields.deliveryDate.Some? ==> u.deliveryDate == p.fields.deliveryDate
    ensures p.fields.deliveryDate.None? ==> u.deliveryDate == r.deliveryDate
    ensures p.fields.deliveryStatus.Some? ==> u.deliveryStatus == p.fields.deliveryStatus.value
    ensures p.fields.deliveryStatus.None? ==> u.deliveryStatus == r.deliveryStatus
    ensures p.fields.feedback.Some? ==> u.feedback == p.fields.feedback.value
    ensures p.fields.feedback.None? ==> u.feedback == r.feedback
    ensures p.fields.isEmergency.Some? ==> u.isEmergency == p.fields.isEmergency.value
    ensures p.fields.isEmergency.None? ==> u.isEmergency == r.isEmergency
    ensures p.fields.emergencyType.Some? ==> u.emergencyType == p.fields.emergencyType
    ensures p.fields.emergencyType.None? ==> u.emergencyType == r.emergencyType
    ensures p.fields.requiredBy.Some? ==> u.requiredBy == p.fields.requiredBy
    ensures p.fields.requiredBy.None? ==> u.requiredBy == r.requiredBy
    ensures p.fields.tags.Some? ==> u.tags == p.fields.tags.value
    ensures p.fields.tags.None? ==> u.tags == r.tags
    ensures p.fields.images.Some? ==> u.images == p.fields.images.value
    ensures p.fields.images.None? ==> u.images == r.images
  {
  }

  /** The update validators, which look only at the paths the patch sets. */
  predicate PatchValid(p: RequestPatch) {
    && (p.title.Some? ==> Text.Trim(p.title.value) != "")
    && (p.description.Some? ==> p.description.value != "")
    && (p.quantity.Some? ==> p.quantity.value >= 1)
    && (p.fields.subcategory.Some? ==> p.fields.subcategory.value != "")
    && (p.fields.unit.Some? ==> p.fields.unit.value != "")
    && (p.fields.feedback.Some? ==> FeedbackValid(p.fields.feedback.value))
  }

  /** On a valid stored request, validating the whole updated document gives the same
      verdict as validating only the paths the patch sets. */
  lemma PatchValidity(r: Request, p: RequestPatch, now: Time)
    requires SchemaValid(r)
    ensures SchemaValid(ApplyPatch(r, p, now)) <==> PatchValid(p)
  {
  }

  /** A status set through the generic update moves independently of `matchedDonation`:
      a request can be made `matched` while it still has no matched donation. */
  lemma PatchDecouplesStatus(r: Request, now: Time)
    requires r.matchedDonation.None?
    ensures ApplyPatch(r, RequestPatch(None, None, None, None, None, None, NoFields.(status := Some(Matched))), now).status == Matched
    ensures ApplyPatch(r, RequestPatch(None, None, None, None, None, None, NoFields.(status := Some(Matched))), now).matchedDonation.None?
  {
  }

  /** The three assignments of a match, plus the `updatedAt` stamp of its `save()`. The
      prior status plays no part. */
  function MatchTo(r: Request, donation: Id, agent: Id, now: Time): (m: Request)
    ensures m.matchedDonation == Some(donation) && m.status == Matched && m.logistics == Some(agent)
    ensures m.updatedAt == now
    ensures m.(matchedDonation := r.matchedDonation, status := r.status, logistics := r.logistics, updatedAt := r.updatedAt) == r
  {
    r.(matchedDonation := Some(donation), status := Matched, logistics := Some(agent), updatedAt := now)
  }

  /** A match touches no validated field, so the `save()` after it cannot fail on a stored request. */
  lemma MatchValidity(r: Request, donation: Id, agent: Id, now: Time)
    ensures SchemaValid(MatchTo(r, donation, agent, now)) <==> SchemaValid(r)
  {
  }

  /** An empty patch only refreshes `updatedAt`. */
  lemma EmptyPatch(r: Request, now: Time)
    ensures ApplyPatch(r, RequestPatch(None, None, None, None, None, None, NoFields), now) == r.(updatedAt := now)
  {
  }
}
