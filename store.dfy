/**
 * The two database tables the controllers read and write, `users` and
 * `memberships`, held in memory and keyed by id.
 */
module Store {
  import opened Wrappers
  import opened MembershipModel
  import opened UserModel

  /** The membership a user row points at, if the row points at one that exists. */
  function MembershipOf(u: User, memberships: map<int, Membership>): (m: Option<Membership>)
    ensures m.Some? <==> u.membershipId.Some? && u.membershipId.value in memberships
    ensures m.Some? ==> m.value == memberships[u.membershipId.value]
  {
    if u.membershipId.Some? && u.membershipId.value in memberships then Some(memberships[u.membershipId.value]) else None
  }

  /** Some user row points at membership `id` (`membership.users.exists?`). */
  predicate InUse(users: map<int, User>, id: int) {
    exists uid :: uid in users && users[uid].membershipId == Some(id)
  }

  /** `order` lists each id of `ids` exactly once and nothing else: the rows a table scan yields. */
  predicate ListsOnce(order: seq<int>, ids: set<int>) {
    (forall id :: id in ids ==> id in order)
    && (forall k :: 0 <= k < |order| ==> order[k] in ids)
    && (forall i, j :: 0 <= i < j < |order| ==> order[i] != order[j])
  }

  /** A scan that lists every id once has as many entries as there are ids. */
  lemma {:induction false} ListsOnceLength(order: seq<int>, ids: set<int>)
    requires ListsOnce(order, ids)
    ensures |order| == |ids|
    decreases |order|
  {
    if order == [] {
      assert forall id :: id !in ids;
      assert ids == {};
    } else {
      var rest := ids - {order[0]};
      forall id | id in rest
        ensures id in order[1..]
      {
        var k :| 0 <= k < |order| && order[k] == id;
      }
      forall k | 0 <= k < |order[1..]|
        ensures order[1..][k] in rest
      {
        assert order[k + 1] != order[0];
      }
      ListsOnceLength(order[1..], rest);
      assert ids == rest + {order[0]};
    }
  }

  /** A user other than `except` already holds `email` (the uniqueness validation). */
  predicate EmailTaken(users: map<int, User>, email: string, except: Option<int>) {
    exists uid :: uid in users && Some(uid) != except && users[uid].email == email
  }

  /**
   * The errors `save` reports for an existing user row: the user validations
   * on update (no password check), with uniqueness against the other rows.
   */
  function SaveErrors(users: map<int, User>, u: User): seq<string> {
    UserErrors(u.email, None, EmailTaken(users, u.email, Some(u.id)), false)
  }

  /** In consistent tables a stored row's email is not taken by another row. */
  lemma StoredEmailNotTaken(users: map<int, User>, memberships: map<int, Membership>, u: User)
    requires Consistent(users, memberships) && u.id in users && users[u.id].email == u.email
    ensures !EmailTaken(users, u.email, Some(u.id))
  {
  }

  /**
   * The table invariants: rows are stored under their own id, every
   * `membership_id` names an existing membership, and emails are unique.
   */
  ghost predicate Consistent(users: map<int, User>, memberships: map<int, Membership>) {
    (forall uid :: uid in users ==> users[uid].id == uid)
    && (forall mid :: mid in memberships ==> memberships[mid].id == mid)
    && (forall uid :: uid in users && users[uid].membershipId.Some? ==> users[uid].membershipId.value in memberships)
    && (forall u1, u2 :: u1 in users && u2 in users && users[u1].email == users[u2].email ==> u1 == u2)
  }

  class Db {
    var users: map<int, User>
    var memberships: map<int, Membership>

    ghost predicate Valid()
      reads this
    {
      Consistent(users, memberships)
    }

    constructor(users0: map<int, User>, memberships0: map<int, Membership>)
      requires Consistent(users0, memberships0)
      ensures users == users0 && memberships == memberships0 && Valid()
    {
      users := users0;
      memberships := memberships0;
    }
  }

  /** Replacing a user row by one with the same id and email, pointing at an existing membership or none, keeps the invariants. */
  lemma UpdateKeepsConsistent(users: map<int, User>, memberships: map<int, Membership>, u: User)
    requires Consistent(users, memberships)
    requires u.id in users && users[u.id].email == u.email
    requires u.membershipId.Some? ==> u.membershipId.value in memberships
    ensures Consistent(users[u.id := u], memberships)
  {
  }
}
