/** The user routes: the admin's list, the profile read, the self-or-admin profile
    update, the admin's delete, and the list by role. Accounts are always returned
    without their password. */
module UserRoutes {
  import opened Common
  import opened UserModel
  import Listing
  import Db

  // ---------------------------------------------------------------- listing

  /** The query parameters the admin list reads; any other key is ignored. */
  datatype UserQuery = UserQuery(filter: UserFilter, page: Option<Pos>, limit: Option<Pos>)

  datatype UserFilter = UserFilter(role: Option<string>)

  /** Exact equality on the role when given. */
  predicate Matches(u: User, q: UserFilter) {
    Given(q.role) ==> HasRole(q.role.value)(u)
  }

  function Selects(q: UserFilter): User -> bool {
    u => Matches(u, q)
  }

  function ViewKey(v: UserView): Listing.SortKey {
    Listing.NewestFirst(v.createdAt)
  }

  /** Taking views keeps the newest-first order. */
  lemma ViewsSorted(s: seq<User>)
    requires Listing.Sorted(s, NewestKey)
    ensures Listing.Sorted(Views(s), ViewKey)
  {
    var r := Views(s);
    forall i, j | 0 <= i < j < |r|
      ensures Listing.KeyLe(ViewKey(r[i]), ViewKey(r[j]))
    {
      assert Listing.KeyLe(NewestKey(s[i]), NewestKey(s[j]));
    }
  }

  /** `GET /` (admins only): page `page` (default 1) of `limit` (default 10) accounts of
      the given role, newest first, without passwords. */
  function List(rows: seq<User>, actor: Actor, q: UserQuery): (r: Response<Listing.ListPage<UserView>>)
    ensures actor.role != Admin <==> r == Forbidden
    ensures r.Ok? || r.Forbidden?
    ensures r.Ok? ==>
              var page := Listing.Listed(rows, Selects(q.filter), NewestKey, OrDefault(q.page, 1), OrDefault(q.limit, 10));
              && r.value.items == Views(page.items)
              && |r.value.items| <= OrDefault(q.limit, 10)
              && Listing.Sorted(r.value.items, ViewKey)
              && (forall u :: u in page.items ==> u in rows && Matches(u, q.filter))
              && r.value.total == |Listing.Filter(rows, Selects(q.filter))|
              && r.value.totalPages == Listing.TotalPages(r.value.total, OrDefault(q.limit, 10))
              && r.value.currentPage == OrDefault(q.page, 1)
  {
    if actor.role != Admin then Forbidden
    else
      var page := Listing.Listed(rows, Selects(q.filter), NewestKey, OrDefault(q.page, 1), OrDefault(q.limit, 10));
      ViewsSorted(page.items);
      Ok(Listing.ListPage(Views(page.items), page.totalPages, page.currentPage, page.total))
  }

  /** `GET /role/:role` (any signed-in user): the accounts whose role is the path's,
      newest first, paginated, without passwords. */
  function ListByRole(rows: seq<User>, role: string, page: Option<Pos>, limit: Option<Pos>): (r: Listing.ListPage<UserView>)
    ensures var listed := Listing.Listed(rows, HasRole(role), NewestKey, OrDefault(page, 1), OrDefault(limit, 10));
            r.items == Views(listed.items)
    ensures |r.items| <= OrDefault(limit, 10) && r.currentPage == OrDefault(page, 1)
    ensures Listing.Sorted(r.items, ViewKey)
    ensures forall v :: v in r.items ==> exists u :: u in rows && RoleName(u.role) == role && View(u) == v
    ensures r.total == |Listing.Filter(rows, HasRole(role))|
    ensures r.totalPages == Listing.TotalPages(r.total, OrDefault(limit, 10))
  {
    var listed := Listing.Listed(rows, HasRole(role), NewestKey, OrDefault(page, 1), OrDefault(limit, 10));
    ViewsSorted(listed.items);
    var r := Listing.ListPage(Views(listed.items), listed.totalPages, listed.currentPage, listed.total);
    forall v | v in r.items
      ensures exists u :: u in rows && RoleName(u.role) == role && View(u) == v
    {
      var i :| 0 <= i < |r.items| && r.items[i] == v;
      assert listed.items[i] in listed.items;
    }
    r
  }

  /** Every account of the role is listed, by its view, on some page within the
      reported page count. */
  lemma ListByRoleComplete(rows: seq<User>, role: string, limit: Option<Pos>, u: User)
    requires u in rows && RoleName(u.role) == role
    ensures exists page: Pos :: page <= ListByRole(rows, role, Some(page), limit).totalPages
                                && View(u) in ListByRole(rows, role, Some(page), limit).items
  {
    var size := OrDefault(limit, 10);
    Listing.ListedComplete(rows, HasRole(role), NewestKey, size, u);
    var page: Pos :| page <= Listing.TotalPages(|Listing.Filter(rows, HasRole(role))|, size)
                     && u in Listing.Listed(rows, HasRole(role), NewestKey, page, size).items;
    var items := Listing.Listed(rows, HasRole(role), NewestKey, page, size).items;
    var listed := ListByRole(rows, role, Some(page), limit);
    assert listed.items == Views(items);
    var i :| 0 <= i < |items| && items[i] == u;
    assert listed.items[i] == View(u);
    assert page <= listed.totalPages && View(u) in listed.items;
  }

  /** A path role that names no role lists nobody. */
  lemma ListByRoleOfUnknownRole(rows: seq<User>, role: string, page: Option<Pos>, limit: Option<Pos>)
    requires ParseRole(role).None?
    ensures ListByRole(rows, role, page, limit).items == []
    ensures ListByRole(rows, role, page, limit).total == 0
  {
    Listing.FilterNone(rows, HasRole(role));
  }

  // ---------------------------------------------------------------- profile

  /** `GET /:id`: 404 first, then 403 unless the actor is that user or an admin. */
  function Get(users: map<Id, User>, actor: Actor, id: Id): (r: Response<UserView>)
    ensures id !in users ==> r == NotFound
    ensures id in users ==> r == if OwnerOrAdmin(actor, id) then Ok(View(users[id])) else Forbidden
  {
    if id !in users then NotFound
    else if !OwnerOrAdmin(actor, id) then Forbidden
    else Ok(View(users[id]))
  }

  /** The request body of a profile update, which the handler edits in place. */
  class Updates {
    var patch: UserPatch

    constructor (p: UserPatch)
      ensures patch == p
    {
      patch := p;
    }

    /** `delete updates.password; delete updates.role; delete updates.isVerified`. */
    method DeleteSensitive()
      modifies this
      ensures patch == Strip(old(patch))
    {
      patch := patch.(password := None);
      patch := patch.(role := None);
      patch := patch.(isVerified := None);
    }
  }

  /** `PUT /:id`: 403 unless the actor is that user or an admin; then the body, stripped
      of the password, the role and the verification flag, is applied. A missing account
      answers with no user and changes nothing. */
  method Update(db: Db.Store, actor: Actor, id: Id, body: UserPatch) returns (r: Response<Option<UserView>>)
    requires db.Valid()
    modifies db
    ensures db.Valid()
    ensures !OwnerOrAdmin(actor, id) ==> r == Forbidden
    ensures OwnerOrAdmin(actor, id) && id !in old(db.users) ==> r == Ok(None)
    ensures OwnerOrAdmin(actor, id) && id in old(db.users) ==> r == Ok(Some(View(Apply(old(db.users)[id], Strip(body)))))
    ensures db.Snapshot() == if r.Ok? && r.value.Some?
                             then old(db.Snapshot()).(users := old(db.users)[id := Apply(old(db.users)[id], Strip(body))])
                             else old(db.Snapshot())
  {
    if !OwnerOrAdmin(actor, id) {
      return Forbidden;
    }
    var updates := new Updates(body);
    updates.DeleteSensitive();
    if id !in db.users {
      return Ok(None);
    }
    var user := Apply(db.users[id], updates.patch);
    db.PutUser(user);
    r := Ok(Some(View(user)));
  }

  /** Whatever the body says, an update leaves the password, the role and the
      verification flag as stored. */
  lemma UpdateKeepsSensitive(u: User, body: UserPatch)
    ensures Apply(u, Strip(body)).password == u.password
    ensures Apply(u, Strip(body)).role == u.role && Apply(u, Strip(body)).isVerified == u.isVerified
    ensures Apply(u, Strip(body)).id == u.id
  {
    StrippedPatchKeepsSensitive(u, body);
  }

  /** `DELETE /:id` (admins only): 404, then 400 when the admin targets their own
      account, then only that account goes. */
  method Delete(db: Db.Store, actor: Actor, id: Id) returns (r: Response<()>)
    requires db.Valid()
    modifies db
    ensures db.Valid()
    ensures actor.role != Admin ==> r == Forbidden
    ensures actor.role == Admin && id !in old(db.users) ==> r == NotFound
    ensures actor.role == Admin && id in old(db.users) ==>
              r == if actor.id == id then BadRequest(["Cannot delete your own account"]) else Ok(())
    ensures db.Snapshot() == if r.Ok? then old(db.Snapshot()).(users := old(db.users) - {id}) else old(db.Snapshot())
  {
    if actor.role != Admin {
      return Forbidden;
    }
    if id !in db.users {
      return NotFound;
    }
    if actor.id == id {
      return BadRequest(["Cannot delete your own account"]);
    }
    db.RemoveUser(id);
    r := Ok(());
  }
}
