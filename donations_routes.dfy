/** The donation routes: the public list and detail, the donor's create, the owner's
    update and delete, and the donor's own list. */
module DonationRoutes {
  import opened Common
  import opened Items
  import opened DonationModel
  import Text
  import Listing
  import Db

  // ---------------------------------------------------------------- listing

  /** The query parameters the list handler reads; any other key is ignored. */
  datatype DonationQuery = DonationQuery(filter: DonationFilter, page: Option<Pos>, limit: Option<Pos>)

  datatype DonationFilter = DonationFilter(
    category: Option<string>,
    status: Option<string>,
    location: Option<string>)

  /** Exact equality on the category and the status, and a case-insensitive substring
      match of `location` against the city, which a donation without a city fails. */
  predicate Matches(d: Donation, q: DonationFilter) {
    && (Given(q.category) ==> CategoryName(d.category) == q.category.value)
    && (Given(q.status) ==> StatusName(d.status) == q.status.value)
    && (Given(q.location) ==> d.location.city.Some? && Text.ContainsIgnoringCase(d.location.city.value, q.location.value))
  }

  function Selects(q: DonationFilter): Donation -> bool {
    d => Matches(d, q)
  }

  /** The case of ASCII letters in the location parameter does not change the selection. */
  lemma LocationIgnoresCase(d: Donation, q: DonationFilter)
    requires Given(q.location)
    ensures Matches(d, q.(location := Some(Text.Lower(q.location.value)))) == Matches(d, q)
  {
    var loc := q.location.value;
    assert Text.Lower(Text.Lower(loc)) == Text.Lower(loc);
    assert Text.Lower(loc) != [] by {
      assert |Text.Lower(loc)| == |loc|;
    }
  }

  /** A donation whose city contains the location parameter is selected by it alone. */
  lemma CityContainingLocationMatches(d: Donation, loc: string)
    requires loc != "" && d.location.city.Some? && Text.Contains(d.location.city.value, loc)
    ensures Matches(d, DonationFilter(None, None, Some(loc)))
  {
    var city := d.location.city.value;
    var i :| 0 <= i <= |city| - |loc| && Text.OccursAt(city, loc, i);
    assert Text.Lower(city)[i..i + |loc|] == Text.Lower(loc) by {
      forall k | 0 <= k < |loc|
        ensures Text.Lower(city)[i..i + |loc|][k] == Text.Lower(loc)[k]
      {
        assert city[i..i + |loc|][k] == loc[k];
      }
    }
    assert Text.OccursAt(Text.Lower(city), Text.Lower(loc), i);
  }

  function NewestKey(d: Donation): Listing.SortKey {
    Listing.NewestFirst(d.createdAt)
  }

  /** `GET /`: page `page` (default 1) of `limit` (default 10) matching donations,
      newest first. */
  function List(rows: seq<Donation>, q: DonationQuery): (r: Listing.ListPage<Donation>)
    ensures forall x :: x in r.items ==> x in rows && Matches(x, q.filter)
    ensures Listing.Sorted(r.items, NewestKey)
    ensures |r.items| <= OrDefault(q.limit, 10) && r.currentPage == OrDefault(q.page, 1)
    ensures r.total == |Listing.Filter(rows, Selects(q.filter))|
    ensures r.totalPages == Listing.TotalPages(r.total, OrDefault(q.limit, 10))
    ensures r.items == Listing.Paginate(Listing.SortBy(Listing.Filter(rows, Selects(q.filter)), NewestKey), OrDefault(q.page, 1), OrDefault(q.limit, 10))
  {
    Listing.Listed(rows, Selects(q.filter), NewestKey, OrDefault(q.page, 1), OrDefault(q.limit, 10))
  }

  /** Every matching donation is on some page within the reported page count. */
  lemma ListComplete(rows: seq<Donation>, q: DonationQuery, x: Donation)
    requires x in rows && Matches(x, q.filter)
    ensures exists page: Pos :: page <= List(rows, q).totalPages && x in List(rows, q.(page := Some(page))).items
  {
    Listing.ListedComplete(rows, Selects(q.filter), NewestKey, OrDefault(q.limit, 10), x);
    var page: Pos :| page <= Listing.TotalPages(|Listing.Filter(rows, Selects(q.filter))|, OrDefault(q.limit, 10)) &&
                     x in Listing.Listed(rows, Selects(q.filter), NewestKey, page, OrDefault(q.limit, 10)).items;
    assert x in List(rows, q.(page := Some(page))).items;
  }

  /** `GET /:id`. */
  function Get(donations: map<Id, Donation>, id: Id): (r: Response<Donation>)
    ensures r.Ok? <==> id in donations
    ensures r.Ok? ==> r.value == donations[id]
    ensures !r.Ok? ==> r == NotFound
  {
    if id in donations then Ok(donations[id]) else NotFound
  }

  /** `GET /user/my-donations`: the actor's own donations, newest first, unpaginated. */
  function MyDonations(rows: seq<Donation>, actor: Actor): (r: seq<Donation>)
    ensures forall x :: x in r <==> x in rows && x.donor == actor.id
    ensures multiset(r) == multiset(Listing.Filter(rows, (x: Donation) => x.donor == actor.id))
    ensures Listing.Sorted(r, NewestKey)
  {
    var mine := Listing.Filter(rows, (x: Donation) => x.donor == actor.id);
    var r := Listing.SortBy(mine, NewestKey);
    forall x ensures x in r <==> x in mine {
      Listing.SortedMembers(mine, NewestKey, x);
    }
    r
  }

  // ---------------------------------------------------------------- create

  /** A create body: the validated fields as sent, every other field already cast, and
      a `createdAt` if the body sends one. A body `_id` or `updatedAt` is not part of
      the model (the timestamps plugin overwrites `updatedAt` on the first save). */
  datatype DonationBody = DonationBody(
    title: string,
    description: string,
    category: string,
    quantity: Option<int>,
    condition: string,
    fields: DonationFields,
    createdAt: Option<Time>)

  /** The chain's `trim()` sanitizers rewrite the title and the description in the body. */
  function Sanitize(b: DonationBody): (s: DonationBody)
    ensures s.title == Text.Trim(b.title) && s.description == Text.Trim(b.description)
    ensures Text.IsTrimmed(s.title) && Text.IsTrimmed(s.description)
    ensures s.(title := b.title, description := b.description) == b
  {
    b.(title := Text.Trim(b.title), description := Text.Trim(b.description))
  }

  /** What the checks accept of a sanitized body. `quantity` is `None` when the body's
      value is not an integer. */
  predicate BodyValid(b: DonationBody) {
    && |b.title| >= 3
    && |b.description| >= 10
    && ParseCategory(b.category).Some?
    && b.quantity.Some? && b.quantity.value >= 1
    && ParseCondition(b.condition).Some?
  }

  /** `validationResult(req)`: one error per failing check, in the chain's order. */
  function CreateErrors(b: DonationBody): (errs: seq<FieldError>)
    ensures errs == [] <==> BodyValid(b)
    ensures |errs| <= 5
    ensures InChainOrder(errs)
    ensures forall i, j :: 0 <= i < j < |errs| ==> errs[i] != errs[j]
  {
    Report(|b.title| < 3, |b.description| < 10, ParseCategory(b.category).None?,
           b.quantity.None? || b.quantity.value < 1, ParseCondition(b.condition).None?)
  }

  /** The errors of the failing checks, in the chain's order. */
  function Report(title: bool, description: bool, category: bool, quantity: bool, condition: bool): (r: seq<FieldError>)
    ensures r == [] <==> !title && !description && !category && !quantity && !condition
    ensures |r| <= 5
    ensures InChainOrder(r)
  {
    Check(title, TitleTooShort, Check(description, DescriptionTooShort, Check(category, BadCategory,
      Check(quantity, BadQuantity, Check(condition, BadCondition, [])))))
  }

  /** The report names exactly the failing checks. */
  lemma ReportNames(title: bool, description: bool, category: bool, quantity: bool, condition: bool)
    ensures TitleTooShort in Report(title, description, category, quantity, condition) <==> title
    ensures DescriptionTooShort in Report(title, description, category, quantity, condition) <==> description
    ensures BadCategory in Report(title, description, category, quantity, condition) <==> category
    ensures BadQuantity in Report(title, description, category, quantity, condition) <==> quantity
    ensures BadCondition in Report(title, description, category, quantity, condition) <==> condition
  {
  }

  /** Each error is reported exactly when its check fails. */
  lemma CreateErrorsNameFailures(b: DonationBody)
    ensures TitleTooShort in CreateErrors(b) <==> |b.title| < 3
    ensures DescriptionTooShort in CreateErrors(b) <==> |b.description| < 10
    ensures BadCategory in CreateErrors(b) <==> ParseCategory(b.category).None?
    ensures BadQuantity in CreateErrors(b) <==> (b.quantity.None? || b.quantity.value < 1)
    ensures BadCondition in CreateErrors(b) <==> ParseCondition(b.condition).None?
  {
    ReportNames(|b.title| < 3, |b.description| < 10, ParseCategory(b.category).None?,
                b.quantity.None? || b.quantity.value < 1, ParseCondition(b.condition).None?);
  }

  /** `new Donation({ ...req.body, donor: req.user._id })` on the sanitized body: the
      parsed enums, the schema defaults for what the body omits, and the actor as donor. */
  function Build(id: Id, owner: Id, b: DonationBody, now: Time): (d: Donation)
    requires BodyValid(b)
    ensures d.id == id && d.donor == owner
    ensures b.createdAt.Some? ==> d.createdAt == b.createdAt.value
    ensures b.createdAt.None? ==> d.createdAt == now
    ensures d.updatedAt == d.createdAt
    ensures d.title == b.title && |d.title| >= 3 && d.description == b.description && |d.description| >= 10
    ensures CategoryName(d.category) == b.category && d.quantity == b.quantity.value >= 1
    ensures ConditionName(d.condition) == b.condition
    ensures d.status == OrDefault(b.fields.status, Available)
    ensures d.recipient == b.fields.recipient && d.logistics == b.fields.logistics
  {
    var base := NewDonation(id, owner, b.title, b.description, ParseCategory(b.category).value,
                            b.quantity.value, ParseCondition(b.condition).value,
                            OrDefault(b.createdAt, now));
    ApplyFields(base, b.fields.(donor := None))
  }

  /** A donor named in the body has no effect. */
  lemma BuildIgnoresBodyDonor(id: Id, owner: Id, b: DonationBody, other: Id, now: Time)
    requires BodyValid(b)
    ensures Build(id, owner, b.(fields := b.fields.(donor := Some(other))), now) == Build(id, owner, b, now)
  {
  }

  /** The body also carries the fields the schema requires but the route does not check. */
  predicate FieldsComplete(f: DonationFields) {
    && f.subcategory.Some? && f.subcategory.value != ""
    && f.unit.Some? && f.unit.value != ""
    && (f.images.Some? ==> forall i :: 0 <= i < |f.images.value| ==> f.images.value[i] != "")
    && (f.feedback.Some? ==> FeedbackValid(f.feedback.value))
  }

  /** A body the route accepts is stored exactly when it also supplies a subcategory and
      a unit (and non-empty image URIs and a rating in range, if any); otherwise `save()`
      fails. */
  lemma SaveSucceeds(id: Id, owner: Id, b: DonationBody, now: Time)
    requires BodyValid(b)
    ensures SchemaValid(Build(id, owner, b, now)) <==> FieldsComplete(b.fields)
  {
  }

  /** `POST /` (donors only). */
  method Create(db: Db.Store, actor: Actor, body: DonationBody, now: Time) returns (r: Response<Donation>)
    requires db.Valid()
    modifies db
    ensures db.Valid()
    ensures actor.role != Donor ==> r == Forbidden
    ensures actor.role == Donor && !BodyValid(Sanitize(body)) ==> r == BadRequest(Messages(CreateErrors(Sanitize(body))))
    ensures actor.role == Donor && BodyValid(Sanitize(body)) ==>
              var made := Build(old(db.nextId), actor.id, Sanitize(body), now);
              if SchemaValid(made)
              then r == Created(made) &&
                   db.Snapshot() == old(db.Snapshot()).(donations := old(db.donations)[made.id := made], nextId := made.id + 1)
              else r == ServerError
    ensures !r.Created? ==> db.Snapshot() == old(db.Snapshot())
  {
    if actor.role != Donor {
      return Forbidden;
    }
    var b := Sanitize(body);
    var errors := CreateErrors(b);
    if errors != [] {
      return BadRequest(Messages(errors));
    }
    var made := Build(db.nextId, actor.id, b, now);
    if !SchemaValid(made) {
      return ServerError;
    }
    db.AddDonation(made);
    r := Created(made);
  }

  // ---------------------------------------------------------------- update, delete

  /** `PUT /:id`: 404, then 403 unless owner or admin, then the update validators. */
  method Update(db: Db.Store, actor: Actor, id: Id, p: DonationPatch, now: Time) returns (r: Response<Donation>)
    requires db.Valid()
    modifies db
    ensures db.Valid()
    ensures id !in old(db.donations) ==> r == NotFound
    ensures id in old(db.donations) && !OwnerOrAdmin(actor, old(db.donations)[id].donor) ==> r == Forbidden
    ensures id in old(db.donations) && OwnerOrAdmin(actor, old(db.donations)[id].donor) ==>
              r == if PatchValid(p) then Ok(ApplyPatch(old(db.donations)[id], p, now)) else ServerError
    ensures db.Snapshot() == if r.Ok? then old(db.Snapshot()).(donations := old(db.donations)[id := r.value]) else old(db.Snapshot())
  {
    if id !in db.donations {
      return NotFound;
    }
    var stored := db.donations[id];
    if !OwnerOrAdmin(actor, stored.donor) {
      return Forbidden;
    }
    if !PatchValid(p) {
      return ServerError;
    }
    var updated := ApplyPatch(stored, p, now);
    PatchValidity(stored, p, now);
    db.PutDonation(updated);
    r := Ok(updated);
  }

  /** `DELETE /:id`: 404, then 403 unless owner or admin, then only that donation goes. */
  method Delete(db: Db.Store, actor: Actor, id: Id) returns (r: Response<()>)
    requires db.Valid()
    modifies db
    ensures db.Valid()
    ensures id !in old(db.donations) ==> r == NotFound
    ensures id in old(db.donations) ==>
              r == if OwnerOrAdmin(actor, old(db.donations)[id].donor) then Ok(()) else Forbidden
    ensures db.Snapshot() == if r.Ok? then old(db.Snapshot()).(donations := old(db.donations) - {id}) else old(db.Snapshot())
  {
    if id !in db.donations {
      return NotFound;
    }
    if !OwnerOrAdmin(actor, db.donations[id].donor) {
      return Forbidden;
    }
    db.RemoveDonation(id);
    r := Ok(());
  }
}
