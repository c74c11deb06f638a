/** The request routes: the public list and detail, the recipient's create, the owner's
    update and delete, the recipient's own list, and the match performed by an admin or
    a logistics handler. */
module RequestRoutes {
  import opened Common
  import opened Items
  import opened RequestModel
  import Text
  import Listing
  import Db

  // ---------------------------------------------------------------- listing

  /** The query parameters the list handler reads; any other key is ignored. */
  datatype RequestQuery = RequestQuery(filter: RequestFilter, page: Option<Pos>, limit: Option<Pos>)

  datatype RequestFilter = RequestFilter(
    category: Option<string>,
    status: Option<string>,
    priority: Option<string>,
    urgency: Option<string>)

  /** Exact equality on each parameter that is given. */
  predicate Matches(r: Request, q: RequestFilter) {
    && (Given(q.category) ==> CategoryName(r.category) == q.category.value)
    && (Given(q.status) ==> StatusName(r.status) == q.status.value)
    && (Given(q.priority) ==> PriorityName(r.priority) == q.priority.value)
    && (Given(q.urgency) ==> UrgencyName(r.urgency) == q.urgency.value)
  }

  function Selects(q: RequestFilter): Request -> bool {
    r => Matches(r, q)
  }

  /** The position of a priority in the string order of its name. */
  function PriorityRank(p: Priority): nat {
    match p
    case High => 0
    case Low => 1
    case Medium => 2
    case Urgent => 3
  }

  /** The position of an urgency in the string order of its name. */
  function UrgencyRank(u: Urgency): nat {
    match u
    case Critical => 0
    case Emergency => 1
    case Normal => 2
  }

  /** Ranks follow the strings that MongoDB compares: high < low < medium < urgent. */
  lemma PriorityRankIsStringOrder(a: Priority, b: Priority)
    ensures PriorityRank(a) < PriorityRank(b) <==> Text.LexLess(PriorityName(a), PriorityName(b))
  {
    if a == b {
      Text.LexLessIrreflexive(PriorityName(a));
    }
  }

  /** Ranks follow the strings that MongoDB compares: critical < emergency < normal. */
  lemma UrgencyRankIsStringOrder(a: Urgency, b: Urgency)
    ensures UrgencyRank(a) < UrgencyRank(b) <==> Text.LexLess(UrgencyName(a), UrgencyName(b))
  {
    if a == b {
      Text.LexLessIrreflexive(UrgencyName(a));
    }
  }

  /** `{ priority: 1, urgency: 1, createdAt: -1 }`. */
  function ListKey(r: Request): Listing.SortKey {
    Listing.SortKey(PriorityRank(r.priority), UrgencyRank(r.urgency), -r.createdAt)
  }

  function NewestKey(r: Request): Listing.SortKey {
    Listing.NewestFirst(r.createdAt)
  }

  /** `GET /`: page `page` (default 1) of `limit` (default 10) matching requests. */
  function List(rows: seq<Request>, q: RequestQuery): (r: Listing.ListPage<Request>)
    ensures forall x :: x in r.items ==> x in rows && Matches(x, q.filter)
    ensures Listing.Sorted(r.items, ListKey)
    ensures |r.items| <= OrDefault(q.limit, 10) && r.currentPage == OrDefault(q.page, 1)
    ensures r.total == |Listing.Filter(rows, Selects(q.filter))|
    ensures r.totalPages == Listing.TotalPages(r.total, OrDefault(q.limit, 10))
    ensures r.items == Listing.Paginate(Listing.SortBy(Listing.Filter(rows, Selects(q.filter)), ListKey), OrDefault(q.page, 1), OrDefault(q.limit, 10))
  {
    Listing.Listed(rows, Selects(q.filter), ListKey, OrDefault(q.page, 1), OrDefault(q.limit, 10))
  }

  /** Every matching request is on some page within the reported page count. */
  lemma ListComplete(rows: seq<Request>, q: RequestQuery, x: Request)
    requires x in rows && Matches(x, q.filter)
    ensures exists page: Pos :: page <= List(rows, q).totalPages && x in List(rows, q.(page := Some(page))).items
  {
    Listing.ListedComplete(rows, Selects(q.filter), ListKey, OrDefault(q.limit, 10), x);
    var page: Pos :| page <= Listing.TotalPages(|Listing.Filter(rows, Selects(q.filter))|, OrDefault(q.limit, 10)) &&
                     x in Listing.Listed(rows, Selects(q.filter), ListKey, page, OrDefault(q.limit, 10)).items;
    assert x in List(rows, q.(page := Some(page))).items;
  }

  /** In a listing, a request whose priority string is smaller comes first. */
  lemma ListedByPriority(s: seq<Request>, i: int, j: int)
    requires Listing.Sorted(s, ListKey) && 0 <= i < |s| && 0 <= j < |s|
    requires Text.LexLess(PriorityName(s[i].priority), PriorityName(s[j].priority))
    ensures i < j
  {
    PriorityRankIsStringOrder(s[i].priority, s[j].priority);
  }

  /** Among equal priorities, a request whose urgency string is smaller comes first. */
  lemma ListedByUrgency(s: seq<Request>, i: int, j: int)
    requires Listing.Sorted(s, ListKey) && 0 <= i < |s| && 0 <= j < |s|
    requires s[i].priority == s[j].priority
    requires Text.LexLess(UrgencyName(s[i].urgency), UrgencyName(s[j].urgency))
    ensures i < j
  {
    UrgencyRankIsStringOrder(s[i].urgency, s[j].urgency);
  }

  /** Among equal priorities and urgencies, the newer request comes first. */
  lemma ListedNewestFirst(s: seq<Request>, i: int, j: int)
    requires Listing.Sorted(s, ListKey) && 0 <= i < |s| && 0 <= j < |s|
    requires s[i].priority == s[j].priority && s[i].urgency == s[j].urgency
    requires s[i].createdAt > s[j].createdAt
    ensures i < j
  {
  }

  /** `GET /:id`. */
  function Get(requests: map<Id, Request>, id: Id): (r: Response<Request>)
    ensures r.Ok? <==> id in requests
    ensures r.Ok? ==> r.value == requests[id]
    ensures !r.Ok? ==> r == NotFound
  {
    if id in requests then Ok(requests[id]) else NotFound
  }

  /** `GET /user/my-requests`: the actor's own requests, newest first, unpaginated. */
  function MyRequests(rows: seq<Request>, actor: Actor): (r: seq<Request>)
    ensures forall x :: x in r <==> x in rows && x.recipient == actor.id
    ensures multiset(r) == multiset(Listing.Filter(rows, (x: Request) => x.recipient == actor.id))
    ensures Listing.Sorted(r, NewestKey)
  {
    var mine := Listing.Filter(rows, (x: Request) => x.recipient == actor.id);
    var r := Listing.SortBy(mine, NewestKey);
    forall x ensures x in r <==> x in mine {
      Listing.SortedMembers(mine, NewestKey, x);
    }
    r
  }

  // ---------------------------------------------------------------- create

  /** A create body: the validated fields as sent, every other field already cast, and
      a `createdAt` if the body sends one. A body `_id` or `updatedAt` is not part of
      the model (the timestamps plugin overwrites `updatedAt` on the first save). */
  datatype RequestBody = RequestBody(
    title: string,
    description: string,
    category: string,
    quantity: Option<int>,
    priority: Option<string>,
    urgency: Option<string>,
    fields: RequestFields,
    createdAt: Option<Time>)

  /** The chain's `trim()` sanitizers rewrite the title and the description in the body
      before the checks and the handler read them. */
  function Sanitize(b: RequestBody): (s: RequestBody)
    ensures s.title == Text.Trim(b.title) && s.description == Text.Trim(b.description)
    ensures Text.IsTrimmed(s.title) && Text.IsTrimmed(s.description)
    ensures s.(title := b.title, description := b.description) == b
  {
    b.(title := Text.Trim(b.title), description := Text.Trim(b.description))
  }

  /** What the checks accept of a sanitized body. `quantity` is `None` when the body's
      value is not an integer. */
  predicate BodyValid(b: RequestBody) {
    && |b.title| >= 3
    && |b.description| >= 10
    && ParseCategory(b.category).Some?
    && b.quantity.Some? && b.quantity.value >= 1
    && (b.priority.Some? ==> ParsePriority(b.priority.value).Some?)
    && (b.urgency.Some? ==> ParseUrgency(b.urgency.value).Some?)
  }

  /** `validationResult(req)`: one error per failing check, in the chain's order. */
  function CreateErrors(b: RequestBody): (errs: seq<FieldError>)
    ensures errs == [] <==> BodyValid(b)
    ensures |errs| <= 6
    ensures InChainOrder(errs)
    ensures forall i, j :: 0 <= i < j < |errs| ==> errs[i] != errs[j]
  {
    Report(|b.title| < 3, |b.description| < 10, ParseCategory(b.category).None?,
           b.quantity.None? || b.quantity.value < 1,
           b.priority.Some? && ParsePriority(b.priority.value).None?,
           b.urgency.Some? && ParseUrgency(b.urgency.value).None?)
  }

  /** The errors of the failing checks, in the chain's order. */
  function Report(title: bool, description: bool, category: bool, quantity: bool, priority: bool, urgency: bool): (r: seq<FieldError>)
    ensures r == [] <==> !title && !description && !category && !quantity && !priority && !urgency
    ensures |r| <= 6
    ensures InChainOrder(r)
  {
    Check(title, TitleTooShort, Check(description, DescriptionTooShort, Check(category, BadCategory,
      Check(quantity, BadQuantity, Check(priority, BadPriority, Check(urgency, BadUrgency, []))))))
  }

  /** The report names exactly the failing checks. */
  lemma ReportNames(title: bool, description: bool, category: bool, quantity: bool, priority: bool, urgency: bool)
    ensures TitleTooShort in Report(title, description, category, quantity, priority, urgency) <==> title
    ensures DescriptionTooShort in Report(title, description, category, quantity, priority, urgency) <==> description
    ensures BadCategory in Report(title, description, category, quantity, priority, urgency) <==> category
  {
  }

  lemma ReportNamesRest(title: bool, description: bool, category: bool, quantity: bool, priority: bool, urgency: bool)
    ensures BadQuantity in Report(title, description, category, quantity, priority, urgency) <==> quantity
    ensures BadPriority in Report(title, description, category, quantity, priority, urgency) <==> priority
    ensures BadUrgency in Report(title, description, category, quantity, priority, urgency) <==> urgency
  {
  }

  /** Each error is reported exactly when its check fails. */
  lemma CreateErrorsNameFailures(b: RequestBody)
    ensures TitleTooShort in CreateErrors(b) <==> |b.title| < 3
    ensures DescriptionTooShort in CreateErrors(b) <==> |b.description| < 10
    ensures BadCategory in CreateErrors(b) <==> ParseCategory(b.category).None?
    ensures BadQuantity in CreateErrors(b) <==> (b.quantity.None? || b.quantity.value < 1)
    ensures BadPriority in CreateErrors(b) <==> (b.priority.Some? && ParsePriority(b.priority.value).None?)
    ensures BadUrgency in CreateErrors(b) <==> (b.urgency.Some? && ParseUrgency(b.urgency.value).None?)
  {
    var title, description, category := |b.title| < 3, |b.description| < 10, ParseCategory(b.category).None?;
    var quantity := b.quantity.None? || b.quantity.value < 1;
    var priority := b.priority.Some? && ParsePriority(b.priority.value).None?;
    var urgency := b.urgency.Some? && ParseUrgency(b.urgency.value).None?;
    assert CreateErrors(b) == Report(title, description, category, quantity, priority, urgency);
    ReportNames(title, description, category, quantity, priority, urgency);
    ReportNamesRest(title, description, category, quantity, priority, urgency);
  }

  /** `new Request({ ...req.body, recipient: req.user._id })` on the sanitized body:
      the parsed enums, the schema defaults for what the body omits, and the actor as
      recipient. The schema's own `trim` finds the title already trimmed. */
  function Build(id: Id, owner: Id, b: RequestBody, now: Time): (r: Request)
    requires BodyValid(b)
    ensures r.id == id && r.recipient == owner
    ensures b.createdAt.Some? ==> r.createdAt == b.createdAt.value
    ensures b.createdAt.None? ==> r.createdAt == now
    ensures r.updatedAt == r.createdAt
    ensures r.title == b.title && |r.title| >= 3 && r.description == b.description && |r.description| >= 10
    ensures CategoryName(r.category) == b.category && r.quantity == b.quantity.value >= 1
    ensures if b.priority.Some? then PriorityName(r.priority) == b.priority.value else r.priority == Medium
    ensures if b.urgency.Some? then UrgencyName(r.urgency) == b.urgency.value else r.urgency == Normal
    ensures r.status == OrDefault(b.fields.status, Pending)
    ensures r.matchedDonation == b.fields.matchedDonation && r.logistics == b.fields.logistics
  {
    var base := NewRequest(id, owner, b.title, b.description, ParseCategory(b.category).value, b.quantity.value,
                           OrDefault(b.createdAt, now));
    ApplyFields(base, b.fields.(recipient := None)).(
      priority := if b.priority.Some? then ParsePriority(b.priority.value).value else Medium,
      urgency := if b.urgency.Some? then ParseUrgency(b.urgency.value).value else Normal)
  }

  /** A recipient named in the body has no effect. */
  lemma BuildIgnoresBodyRecipient(id: Id, owner: Id, b: RequestBody, other: Id, now: Time)
    requires BodyValid(b)
    ensures Build(id, owner, b.(fields := b.fields.(recipient := Some(other))), now) == Build(id, owner, b, now)
  {
  }

  /** The body also carries the fields the schema requires but the route does not check. */
  predicate FieldsComplete(f: RequestFields) {
    && f.subcategory.Some? && f.subcategory.value != ""
    && f.unit.Some? && f.unit.value != ""
    && (f.feedback.Some? ==> FeedbackValid(f.feedback.value))
  }

  /** A body the route accepts is stored exactly when it also supplies a subcategory
      and a unit (and a rating, if any, in range); otherwise `save()` fails. */
  lemma SaveSucceeds(id: Id, owner: Id, b: RequestBody, now: Time)
    requires BodyValid(b)
    ensures SchemaValid(Build(id, owner, b, now)) <==> FieldsComplete(b.fields)
  {
  }

  /** `POST /` (recipients only). */
  method Create(db: Db.Store, actor: Actor, body: RequestBody, now: Time) returns (r: Response<Request>)
    requires db.Valid()
    modifies db
    ensures db.Valid()
    ensures actor.role != Recipient ==> r == Forbidden
    ensures actor.role == Recipient && !BodyValid(Sanitize(body)) ==> r == BadRequest(Messages(CreateErrors(Sanitize(body))))
    ensures actor.role == Recipient && BodyValid(Sanitize(body)) ==>
              var made := Build(old(db.nextId), actor.id, Sanitize(body), now);
              if SchemaValid(made)
              then r == Created(made) &&
                   db.Snapshot() == old(db.Snapshot()).(requests := old(db.requests)[made.id := made], nextId := made.id + 1)
              else r == ServerError
    ensures !r.Created? ==> db.Snapshot() == old(db.Snapshot())
  {
    if actor.role != Recipient {
      return Forbidden;
    }
    var b := Sanitize(body);
    var errors := CreateErrors(b);
    if errors != [] {
      return BadRequest(Messages(errors));
    }
    var made := Build(db.nextId, actor.id, b, now);
    if !SchemaValid(made) {
      return ServerError;
    }
    db.AddRequest(made);
    r := Created(made);
  }

  // ---------------------------------------------------------------- update, delete

  /** `PUT /:id`: 404, then 403 unless owner or admin, then the update validators. */
  method Update(db: Db.Store, actor: Actor, id: Id, p: RequestPatch, now: Time) returns (r: Response<Request>)
    requires db.Valid()
    modifies db
    ensures db.Valid()
    ensures id !in old(db.requests) ==> r == NotFound
    ensures id in old(db.requests) && !OwnerOrAdmin(actor, old(db.requests)[id].recipient) ==> r == Forbidden
    ensures id in old(db.requests) && OwnerOrAdmin(actor, old(db.requests)[id].recipient) ==>
              r == if PatchValid(p) then Ok(ApplyPatch(old(db.requests)[id], p, now)) else ServerError
    ensures db.Snapshot() == if r.Ok? then old(db.Snapshot()).(requests := old(db.requests)[id := r.value]) else old(db.Snapshot())
  {
    if id !in db.requests {
      return NotFound;
    }
    var stored := db.requests[id];
    if !OwnerOrAdmin(actor, stored.recipient) {
      return Forbidden;
    }
    if !PatchValid(p) {
      return ServerError;
    }
    var updated := ApplyPatch(stored, p, now);
    PatchValidity(stored, p, now);
    db.PutRequest(updated);
    r := Ok(updated);
  }

  /** `DELETE /:id`: 404, then 403 unless owner or admin, then only that request goes. */
  method Delete(db: Db.Store, actor: Actor, id: Id) returns (r: Response<()>)
    requires db.Valid()
    modifies db
    ensures db.Valid()
    ensures id !in old(db.requests) ==> r == NotFound
    ensures id in old(db.requests) ==>
              r == if OwnerOrAdmin(actor, old(db.requests)[id].recipient) then Ok(()) else Forbidden
    ensures db.Snapshot() == if r.Ok? then old(db.Snapshot()).(requests := old(db.requests) - {id}) else old(db.Snapshot())
  {
    if id !in db.requests {
      return NotFound;
    }
    if !OwnerOrAdmin(actor, db.requests[id].recipient) {
      return Forbidden;
    }
    db.RemoveRequest(id);
    r := Ok(());
  }

  // ---------------------------------------------------------------- match

  /** `POST /:id/match`: 400 without a donation id, then 404, then 403 unless admin or
      logistics. The three fields change whatever the request's status; the donation
      is neither looked up nor changed. */
  method Match(db: Db.Store, actor: Actor, id: Id, donationId: Option<Id>, now: Time) returns (r: Response<Request>)
    requires db.Valid()
    modifies db
    ensures db.Valid()
    ensures donationId.None? ==> r == BadRequest(["Donation ID required"])
    ensures donationId.Some? && id !in old(db.requests) ==> r == NotFound
    ensures donationId.Some? && id in old(db.requests) ==>
              r == if actor.role in {Admin, Logistics}
                   then Ok(MatchTo(old(db.requests)[id], donationId.value, actor.id, now))
                   else Forbidden
    ensures db.Snapshot() == if r.Ok? then old(db.Snapshot()).(requests := old(db.requests)[id := r.value]) else old(db.Snapshot())
  {
    if donationId.None? {
      return BadRequest(["Donation ID required"]);
    }
    if id !in db.requests {
      return NotFound;
    }
    if actor.role != Admin && actor.role != Logistics {
      return Forbidden;
    }
    var request := db.requests[id];
    MatchValidity(request, donationId.value, actor.id, now);
    request := MatchTo(request, donationId.value, actor.id, now);
    db.PutRequest(request);
    r := Ok(request);
  }
}
