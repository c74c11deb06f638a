/** The account record the routes read and write, the password-free view they return,
    and the profile patch of the self-service update. */
module UserModel {
  import opened Common
  import Listing

  /** A stored account. `password` is the opaque hash; it never leaves the store
      through the routes that select `-password`. */
  datatype User = User(
    id: Id,
    name: string,
    email: string,
    password: string,
    role: Role,
    isVerified: bool,
    phone: Option<string>,
    organization: Option<string>,
    address: Option<string>,
    createdAt: Time)

  /** The account holds the role named `name`: `role === name` on the stored string. */
  function HasRole(name: string): User -> bool {
    (u: User) => RoleName(u.role) == name
  }

  /** The key of `sort({ createdAt: -1 })` on accounts. */
  function NewestKey(u: User): Listing.SortKey {
    Listing.NewestFirst(u.createdAt)
  }

  /** An account as `select('-password')` returns it. */
  datatype UserView = UserView(
    id: Id,
    name: string,
    email: string,
    role: Role,
    isVerified: bool,
    phone: Option<string>,
    organization: Option<string>,
    address: Option<string>,
    createdAt: Time)

  function View(u: User): (v: UserView)
    ensures v.id == u.id && v.name == u.name && v.email == u.email && v.role == u.role
    ensures v.isVerified == u.isVerified && v.createdAt == u.createdAt
    ensures v.phone == u.phone && v.organization == u.organization && v.address == u.address
  {
    UserView(u.id, u.name, u.email, u.role, u.isVerified, u.phone, u.organization, u.address, u.createdAt)
  }

  /** Two accounts that differ only in their password look the same through the view. */
  lemma ViewHidesPassword(u: User, pw: string)
    ensures View(u.(password := pw)) == View(u)
  {
  }

  /** The view of every account, in order. */
  function Views(s: seq<User>): (r: seq<UserView>)
    ensures |r| == |s|
    ensures forall i :: 0 <= i < |s| ==> r[i] == View(s[i])
  {
    seq(|s|, i requires 0 <= i < |s| => View(s[i]))
  }

  /** The body of a profile update; a field present overrides the stored one. */
  datatype UserPatch = UserPatch(
    name: Option<string>,
    email: Option<string>,
    password: Option<string>,
    role: Option<Role>,
    isVerified: Option<bool>,
    phone: Option<string>,
    organization: Option<string>,
    address: Option<string>)

  /** `delete updates.password; delete updates.role; delete updates.isVerified`. */
  function Strip(p: UserPatch): (q: UserPatch)
    ensures q.password.None? && q.role.None? && q.isVerified.None?
    ensures q.(password := p.password, role := p.role, isVerified := p.isVerified) == p
  {
    p.(password := None, role := None, isVerified := None)
  }

  /** Stripping twice is stripping once. */
  lemma StripIdempotent(p: UserPatch)
    ensures Strip(Strip(p)) == Strip(p)
  {
  }

  function Apply(u: User, p: UserPatch): User {
    u.(name := OrDefault(p.name, u.name),
       email := OrDefault(p.email, u.email),
       password := OrDefault(p.password, u.password),
       role := OrDefault(p.role, u.role),
       isVerified := OrDefault(p.isVerified, u.isVerified),
       phone := if p.phone.Some? then p.phone else u.phone,
       organization := if p.organization.Some? then p.organization else u.organization,
       address := if p.address.Some? then p.address else u.address)
  }

  /** A stripped patch keeps the password, the role and the verification flag, and sets
      every other field exactly as the unstripped patch would. */
  lemma StrippedPatchKeepsSensitive(u: User, p: UserPatch)
    ensures Apply(u, Strip(p)).password == u.password
    ensures Apply(u, Strip(p)).role == u.role
    ensures Apply(u, Strip(p)).isVerified == u.isVerified
    ensures Apply(u, Strip(p)) == Apply(u, p).(password := u.password, role := u.role, isVerified := u.isVerified)
    ensures Apply(u, Strip(p)).id == u.id && Apply(u, Strip(p)).createdAt == u.createdAt
  {
  }
}
