/** The database behind the controllers: five tables, each a map from primary
    key to record, with the next key each auto-increment column hands out.
    A query reads a table as its rows in ascending key order (Rows). */
module Store {
  import opened UserEntity
  import opened CustomerEntity
  import opened OpportunityEntity
  import opened ActivityEntity
  import opened InteractionEntity

  /** Some element of a non-empty set. */
  ghost function Pick<K>(s: set<K>): (k: K)
    requires s != {}
    ensures k in s
  {
    var k :| k in s;
    k
  }

  /** Every finite non-empty set of keys has a least element. */
  lemma {:induction false} HasLeastKey<R>(t: map<int, R>)
    requires t != map[]
    ensures exists m :: m in t && forall k :: k in t ==> m <= k
    decreases |t|
  {
    assert t.Keys != {};
    var j := Pick(t.Keys);
    var rest := t - {j};
    if rest != map[] {
      assert |rest| < |t| by {
        assert rest.Keys == t.Keys - {j};
      }
      HasLeastKey(rest);
      assert exists m :: m in rest && forall k :: k in rest ==> m <= k;
      var m :| m in rest && forall k :: k in rest ==> m <= k;
      var least := if j < m then j else m;
      forall k | k in t ensures least <= k {
        if k != j {
          assert k in rest;
        }
      }
      assert least in t;
    } else {
      forall k | k in t ensures j <= k {
        assert k == j || k in rest;
      }
    }
  }

  /** The least key of a non-empty table. */
  function LeastKey<R>(t: map<int, R>): (m: int)
    requires t != map[]
    ensures m in t && forall k :: k in t ==> m <= k
  {
    HasLeastKey(t);
    var m :| m in t && forall k :: k in t ==> m <= k;
    m
  }

  /** The rows of a table in ascending key order. */
  function Rows<R(==, !new)>(t: map<int, R>): (rows: seq<R>)
    ensures |rows| == |t|
    ensures forall x :: x in rows <==> x in t.Values
    decreases |t|
  {
    if t == map[] then []
    else
      var m := LeastKey(t);
      var rest := t - {m};
      assert rest.Keys == t.Keys - {m};
      var r := [t[m]] + Rows(rest);
      assert forall x :: x in t.Values <==> x == t[m] || x in rest.Values by {
        forall x ensures x in t.Values <==> x == t[m] || x in rest.Values {
          if x in t.Values {
            var k :| k in t && t[k] == x;
            if k != m {
              assert k in rest;
            }
          }
          if x in rest.Values {
            var k :| k in rest && rest[k] == x;
            assert k in t;
          }
        }
      }
      r
  }

  /** Every record of t is stored under its own id (as id reads it), a
      positive number below next, the next key the table hands out. */
  predicate Keyed<R>(t: map<int, R>, next: int, id: R -> int) {
    next > 0 && forall k :: k in t ==> 0 < k < next && id(t[k]) == k
  }

  /** An insert under the next key keeps the table keyed and takes a fresh key. */
  lemma KeyedInsert<R>(t: map<int, R>, next: int, id: R -> int, r: R)
    requires Keyed(t, next, id) && id(r) == next
    ensures next !in t
    ensures Keyed(t[next := r], next + 1, id)
  {
  }

  /** Replacing a record by one with the same id keeps the table keyed. */
  lemma KeyedReplace<R>(t: map<int, R>, next: int, id: R -> int, k: int, r: R)
    requires Keyed(t, next, id) && k in t && id(r) == k
    ensures Keyed(t[k := r], next, id)
  {
  }

  /** Removing a record keeps the table keyed. */
  lemma KeyedRemove<R>(t: map<int, R>, next: int, id: R -> int, k: int)
    requires Keyed(t, next, id)
    ensures Keyed(t - {k}, next, id)
  {
  }

  function UserKey(u: User): int { u.id }
  function CustomerKey(c: Customer): int { c.id }
  function OpportunityKey(o: Opportunity): int { o.id }
  function ActivityKey(a: Activity): int { a.id }
  function InteractionKey(i: Interaction): int { i.id }

  /** No two users share an email: the unique constraint of the email column. */
  predicate UniqueEmails(users: map<int, User>) {
    forall j, k :: j in users && k in users && users[j].email == users[k].email ==> j == k
  }

  /** Adding a user whose email no user has keeps the emails unique. */
  lemma UniqueEmailsInsert(users: map<int, User>, id: int, u: User)
    requires UniqueEmails(users) && id !in users
    requires forall k :: k in users ==> users[k].email != u.email
    ensures UniqueEmails(users[id := u])
  {
  }

  /** The five tables of the CRM. */
  class Db {
    var users: map<int, User>
    var customers: map<int, Customer>
    var opportunities: map<int, Opportunity>
    var activities: map<int, Activity>
    var interactions: map<int, Interaction>
    var nextUserId: int
    var nextCustomerId: int
    var nextOpportunityId: int
    var nextActivityId: int
    var nextInteractionId: int

    /** Each record is stored under its own id, below its table's next key,
        and user emails are unique. */
    ghost predicate Valid()
      reads this
    {
      && Keyed(users, nextUserId, UserKey)
      && Keyed(customers, nextCustomerId, CustomerKey)
      && Keyed(opportunities, nextOpportunityId, OpportunityKey)
      && Keyed(activities, nextActivityId, ActivityKey)
      && Keyed(interactions, nextInteractionId, InteractionKey)
      && UniqueEmails(users)
    }

    /** An empty database; every auto-increment column starts at 1. */
    constructor ()
      ensures Valid()
      ensures users == map[] && customers == map[] && opportunities == map[]
      ensures activities == map[] && interactions == map[]
      ensures nextUserId == 1 && nextCustomerId == 1 && nextOpportunityId == 1
      ensures nextActivityId == 1 && nextInteractionId == 1
    {
      users := map[];
      customers := map[];
      opportunities := map[];
      activities := map[];
      interactions := map[];
      nextUserId := 1;
      nextCustomerId := 1;
      nextOpportunityId := 1;
      nextActivityId := 1;
      nextInteractionId := 1;
    }
  }
}
