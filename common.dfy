/** Vocabulary shared by every resource: identifiers, instants, roles, the acting
    identity and the outcome of a route handler. */
module Common {

  datatype Option<T> = None | Some(value: T)

  /** Document identifiers (MongoDB ObjectIds), abstracted to naturals. */
  type Id = nat

  /** Instants (JavaScript Date values), as milliseconds since the epoch. */
  type Time = int

  /** A positive integer: page numbers and page sizes once the query string is coerced. */
  type Pos = n: int | n >= 1 witness 1

  /** The four account roles. */
  datatype Role = Admin | Donor | Recipient | Logistics

  function RoleName(r: Role): string {
    match r
    case Admin => "admin"
    case Donor => "donor"
    case Recipient => "recipient"
    case Logistics => "logistics"
  }

  /** Membership test against the list ["admin", "donor", "recipient", "logistics"]. */
  function ParseRole(s: string): (r: Option<Role>)
    ensures r.Some? ==> RoleName(r.value) == s
    ensures r.None? ==> forall role :: RoleName(role) != s
  {
    if s == "admin" then Some(Admin)
    else if s == "donor" then Some(Donor)
    else if s == "recipient" then Some(Recipient)
    else if s == "logistics" then Some(Logistics)
    else None
  }

  lemma RoleNameRoundTrip(r: Role)
    ensures ParseRole(RoleName(r)) == Some(r)
  {
  }

  /** Distinct roles have distinct names. */
  lemma RoleNameInjective(a: Role, b: Role)
    ensures RoleName(a) == RoleName(b) <==> a == b
  {
    RoleNameRoundTrip(a);
    RoleNameRoundTrip(b);
  }

  /** The authenticated identity that the token middleware attaches to a request. */
  datatype Actor = Actor(id: Id, role: Role)

  /** What a handler answers: 200 with a value, 201 with a created value, 400 with
      the error messages, 403, 404, or 500 (the record failed the schema's validators). */
  datatype Response<T> =
    | Ok(value: T)
    | Created(value: T)
    | BadRequest(errors: seq<string>)
    | Forbidden
    | NotFound
    | ServerError

  /** The ownership guard shared by the donation and request routes: the owner or any admin. */
  predicate OwnerOrAdmin(actor: Actor, owner: Id) {
    actor.id == owner || actor.role == Admin
  }

  /** A query-string parameter takes part in a filter only when it is present and
      non-empty, the truthiness test `if (param)`. */
  predicate Given(p: Option<string>) {
    p.Some? && p.value != ""
  }

  /** The value of an optional query parameter, or its default. */
  function OrDefault<T>(o: Option<T>, d: T): T {
    if o.Some? then o.value else d
  }

  /** The emergency kinds shared by requests and drives. */
  datatype EmergencyType = NaturalDisaster | Pandemic | Conflict | EconomicCrisis | OtherEmergency

  /** A postal location; the latitude/longitude pair is not modelled. */
  datatype Location = Location(
    address: Option<string>,
    city: Option<string>,
    state: Option<string>,
    zipCode: Option<string>)

  const NoLocation: Location := Location(None, None, None, None)

  /** A failing check of an express-validator chain on a create body. */
  datatype FieldError =
    | TitleTooShort
    | DescriptionTooShort
    | BadCategory
    | BadQuantity
    | BadCondition
    | BadStartDate
    | BadEndDate
    | BadPriority
    | BadUrgency

  /** The `msg` of each error; a check without `withMessage` reports "Invalid value". */
  function Message(e: FieldError): string {
    match e
    case TitleTooShort => "Title must be at least 3 characters"
    case DescriptionTooShort => "Description must be at least 10 characters"
    case BadCategory => "Valid category required"
    case BadQuantity => "Quantity must be at least 1"
    case BadCondition => "Valid condition required"
    case BadStartDate => "Valid start date required"
    case BadEndDate => "Valid end date required"
    case BadPriority => "Invalid value"
    case BadUrgency => "Invalid value"
  }

  function Messages(es: seq<FieldError>): (r: seq<string>)
    ensures |r| == |es|
    ensures forall i :: 0 <= i < |es| ==> r[i] == Message(es[i])
  {
    seq(|es|, i requires 0 <= i < |es| => Message(es[i]))
  }

  /** Where a check stands in a validator chain. Every chain checks its fields in the
      order the errors are declared above. */
  function Position(e: FieldError): nat {
    match e
    case TitleTooShort => 0
    case DescriptionTooShort => 1
    case BadCategory => 2
    case BadQuantity => 3
    case BadCondition => 4
    case BadStartDate => 5
    case BadEndDate => 6
    case BadPriority => 7
    case BadUrgency => 8
  }

  /** The errors appear in the order of their checks, so none appears twice. */
  predicate InChainOrder(es: seq<FieldError>) {
    forall i, j :: 0 <= i < j < |es| ==> Position(es[i]) < Position(es[j])
  }

  /** The errors of a chain from one check on: `e` when that check fails, followed by
      the errors `later` of the checks after it. */
  function Check(fails: bool, e: FieldError, later: seq<FieldError>): (r: seq<FieldError>)
    requires InChainOrder(later)
    requires forall x :: x in later ==> Position(e) < Position(x)
    ensures InChainOrder(r)
    ensures forall x :: x in r <==> (fails && x == e) || x in later
    ensures forall x :: x in r ==> Position(e) <= Position(x)
    ensures |r| == if fails then |later| + 1 else |later|
  {
    if fails then
      assert forall j :: 0 <= j < |later| ==> later[j] in later;
      [e] + later
    else later
  }
}
