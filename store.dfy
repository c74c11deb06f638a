/** The database the handlers share: one table per collection, keyed by document id,
    and the id the next inserted document receives. */
module Db {
  import opened Common
  import opened UserModel
  import RequestModel
  import DonationModel
  import DriveModel

  /** The contents of the store at one instant. */
  datatype Tables = Tables(
    users: map<Id, User>,
    donations: map<Id, DonationModel.Donation>,
    requests: map<Id, RequestModel.Request>,
    drives: map<Id, DriveModel.Drive>,
    nextId: Id)

  /** Every key is below `nextId` and is the id of the document stored under it, and
      every stored document passes the validators that guard its writes. */
  predicate TablesValid(t: Tables) {
    && (forall k :: k in t.users ==> k < t.nextId && t.users[k].id == k)
    && (forall k :: k in t.donations ==> k < t.nextId && t.donations[k].id == k && DonationModel.SchemaValid(t.donations[k]))
    && (forall k :: k in t.requests ==> k < t.nextId && t.requests[k].id == k && RequestModel.SchemaValid(t.requests[k]))
    && (forall k :: k in t.drives ==> k < t.nextId && t.drives[k].id == k && DriveModel.RequiredPresent(t.drives[k]))
  }

  class Store {
    var users: map<Id, User>
    var donations: map<Id, DonationModel.Donation>
    var requests: map<Id, RequestModel.Request>
    var drives: map<Id, DriveModel.Drive>
    var nextId: Id

    function Snapshot(): Tables
      reads this
    {
      Tables(users, donations, requests, drives, nextId)
    }

    predicate Valid()
      reads this
    {
      TablesValid(Snapshot())
    }

    /** A store opened on existing contents (accounts are created by the registration
        route, which is not part of this model). */
    constructor (t: Tables)
      requires TablesValid(t)
      ensures Snapshot() == t && Valid()
    {
      users, donations, requests, drives, nextId := t.users, t.donations, t.requests, t.drives, t.nextId;
    }

    /** Stores a new request under the next id. */
    method AddRequest(x: RequestModel.Request)
      requires Valid() && x.id == nextId && RequestModel.SchemaValid(x)
      modifies this
      ensures Valid()
      ensures Snapshot() == old(Snapshot()).(requests := old(requests)[x.id := x], nextId := x.id + 1)
    {
      requests := requests[x.id := x];
      nextId := nextId + 1;
    }

    /** Replaces the stored request with the same id. */
    method PutRequest(x: RequestModel.Request)
      requires Valid() && x.id in requests && RequestModel.SchemaValid(x)
      modifies this
      ensures Valid()
      ensures Snapshot() == old(Snapshot()).(requests := old(requests)[x.id := x])
    {
      requests := requests[x.id := x];
    }

    /** Removes the request stored under `id`. */
    method RemoveRequest(id: Id)
      requires Valid()
      modifies this
      ensures Valid()
      ensures Snapshot() == old(Snapshot()).(requests := old(requests) - {id})
    {
      requests := requests - {id};
    }

    /** Stores a new donation under the next id. */
    method AddDonation(x: DonationModel.Donation)
      requires Valid() && x.id == nextId && DonationModel.SchemaValid(x)
      modifies this
      ensures Valid()
      ensures Snapshot() == old(Snapshot()).(donations := old(donations)[x.id := x], nextId := x.id + 1)
    {
      donations := donations[x.id := x];
      nextId := nextId + 1;
    }

    /** Replaces the stored donation with the same id. */
    method PutDonation(x: DonationModel.Donation)
      requires Valid() && x.id in donations && DonationModel.SchemaValid(x)
      modifies this
      ensures Valid()
      ensures Snapshot() == old(Snapshot()).(donations := old(donations)[x.id := x])
    {
      donations := donations[x.id := x];
    }

    /** Removes the donation stored under `id`. */
    method RemoveDonation(id: Id)
      requires Valid()
      modifies this
      ensures Valid()
      ensures Snapshot() == old(Snapshot()).(donations := old(donations) - {id})
    {
      donations := donations - {id};
    }

    /** Stores a new drive under the next id. */
    method AddDrive(x: DriveModel.Drive)
      requires Valid() && x.id == nextId && DriveModel.RequiredPresent(x)
      modifies this
      ensures Valid()
      ensures Snapshot() == old(Snapshot()).(drives := old(drives)[x.id := x], nextId := x.id + 1)
    {
      drives := drives[x.id := x];
      nextId := nextId + 1;
    }

    /** Replaces the stored drive with the same id. */
    method PutDrive(x: DriveModel.Drive)
      requires Valid() && x.id in drives && DriveModel.RequiredPresent(x)
      modifies this
      ensures Valid()
      ensures Snapshot() == old(Snapshot()).(drives := old(drives)[x.id := x])
    {
      drives := drives[x.id := x];
    }

    /** Removes the drive stored under `id`. */
    method RemoveDrive(id: Id)
      requires Valid()
      modifies this
      ensures Valid()
      ensures Snapshot() == old(Snapshot()).(drives := old(drives) - {id})
    {
      drives := drives - {id};
    }

    /** Replaces the stored account with the same id. */
    method PutUser(x: User)
      requires Valid() && x.id in users
      modifies this
      ensures Valid()
      ensures Snapshot() == old(Snapshot()).(users := old(users)[x.id := x])
    {
      users := users[x.id := x];
    }

    /** Removes the account stored under `id`. */
    method RemoveUser(id: Id)
      requires Valid()
      modifies this
      ensures Valid()
      ensures Snapshot() == old(Snapshot()).(users := old(users) - {id})
    {
      users := users - {id};
    }
  }

  /** The documents of a table in natural order, which is ascending id order. */
  function Rows<V>(m: map<Id, V>, n: nat): seq<V>
    decreases n
  {
    if n == 0 then []
    else Rows(m - {n - 1}, n - 1) + (if n - 1 in m then [m[n - 1]] else [])
  }

  /** A document is listed exactly when it is stored under some key below `n`. */
  lemma {:induction false} RowsMembers<V>(m: map<Id, V>, n: nat, x: V)
    ensures x in Rows(m, n) <==> exists k :: k in m && k < n && m[k] == x
    decreases n
  {
    if n > 0 {
      var m' := m - {n - 1};
      RowsMembers(m', n - 1, x);
      if x in Rows(m, n) && x !in Rows(m', n - 1) {
        assert n - 1 in m && m[n - 1] == x;
      }
      if exists k :: k in m && k < n && m[k] == x {
        var k :| k in m && k < n && m[k] == x;
        if k < n - 1 {
          assert k in m' && m'[k] == x;
        }
      }
    }
  }
}
