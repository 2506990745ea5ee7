/**
  Majority and joint quorums. A voter set that passes a joint vote is a "quorum" of a
  configuration; what the membership code is for is that quorums of one configuration,
  and of any configuration one change away, always share a voter.
*/
module Quorums {
  import opened Finite

  const U64_MAX: nat := 0xFFFF_FFFF_FFFF_FFFF

  type Id = nat
  type Index = nat

  datatype VoteResult = Won | Lost | Pending

  /** `s` holds a majority of `ids`; an empty config constrains nothing. */
  ghost predicate Majority(ids: set<Id>, s: set<Id>) {
    ids == {} || |ids * s| >= |ids| / 2 + 1
  }

  ghost predicate JointQuorum(incoming: set<Id>, outgoing: set<Id>, s: set<Id>) {
    Majority(incoming, s) && Majority(outgoing, s)
  }

  ghost function AckedAtLeast(ids: set<Id>, acked: map<Id, Index>, i: Index): set<Id>
    requires ids <= acked.Keys
  {
    set id | id in ids && acked[id] >= i
  }

  // ---- The acked index held by a majority --------------------------------------------------

  ghost predicate AckOrdered(s: seq<Id>, acked: map<Id, Index>)
    requires forall x :: x in s ==> x in acked
  {
    forall i, j :: 0 <= i < j < |s| ==> acked[s[i]] <= acked[s[j]]
  }

  method InsertByAck(order: seq<Id>, id: Id, acked: map<Id, Index>) returns (r: seq<Id>)
    requires id in acked && id !in order && forall x :: x in order ==> x in acked
    requires NoDup(order) && AckOrdered(order, acked)
    ensures Elems(r) == Elems(order) + {id} && NoDup(r)
    ensures AckOrdered(r, acked)
  {
    var k := 0;
    while k < |order| && acked[order[k]] < acked[id]
      invariant k <= |order|
      invariant forall j :: 0 <= j < k ==> acked[order[j]] < acked[id]
    {
      k := k + 1;
    }
    r := order[..k] + [id] + order[k..];
    InsertedAt(order, k, id, r);
  }

  lemma InsertedAt(order: seq<Id>, k: nat, id: Id, r: seq<Id>)
    requires k <= |order| && id !in order && NoDup(order)
    requires r == order[..k] + [id] + order[k..]
    ensures forall j :: 0 <= j < |r| ==> r[j] == if j < k then order[j] else if j == k then id else order[j - 1]
    ensures Elems(r) == Elems(order) + {id} && NoDup(r)
  {
    assert order == order[..k] + order[k..];
  }

  /** The members in ascending order of acked index, one insertion per member. */
  method OrderByAck(ids: set<Id>, acked: map<Id, Index>) returns (order: seq<Id>)
    requires ids <= acked.Keys
    ensures NoDup(order) && Elems(order) == ids && |order| == |ids|
    ensures AckOrdered(order, acked)
  {
    order := [];
    var rest := ids;
    while rest != {}
      invariant rest <= ids
      invariant NoDup(order) && Elems(order) == ids - rest
      invariant AckOrdered(order, acked)
      decreases rest
    {
      var id :| id in rest;
      order := InsertByAck(order, id, acked);
      rest := rest - {id};
    }
    NoDupSize(order);
  }

  /**
    The acked index at position n - (n/2 + 1) of the ascending order is the largest
    index a majority has acked. An empty config answers the no-constraint sentinel.
  */
  method CommittedIndex(ids: set<Id>, acked: map<Id, Index>) returns (r: Index)
    requires ids <= acked.Keys && forall id :: id in ids ==> acked[id] <= U64_MAX
    ensures forall i: Index :: i <= U64_MAX ==> (i <= r <==> Majority(ids, AckedAtLeast(ids, acked, i)))
    ensures r <= U64_MAX
  {
    if ids == {} {
      return U64_MAX;
    }
    var order := OrderByAck(ids, acked);
    var n := |order|;
    var pos := n - (n / 2 + 1);
    assert order[pos] in order;
    r := acked[order[pos]];
    MedianIsMajority(ids, acked, order, pos);
  }

  lemma MedianIsMajority(ids: set<Id>, acked: map<Id, Index>, order: seq<Id>, pos: nat)
    requires ids != {} && ids <= acked.Keys
    requires NoDup(order) && Elems(order) == ids && |order| == |ids|
    requires AckOrdered(order, acked)
    requires pos == |order| - (|order| / 2 + 1)
    ensures forall i: Index :: i <= acked[order[pos]] <==> Majority(ids, AckedAtLeast(ids, acked, i))
  {
    forall i: Index
      ensures i <= acked[order[pos]] <==> Majority(ids, AckedAtLeast(ids, acked, i))
    {
      var good := AckedAtLeast(ids, acked, i);
      assert ids * good == good;
      if i <= acked[order[pos]] {
        var top := Elems(order[pos..]);
        NoDupSize(order[pos..]);
        assert top <= good;
        SubsetSize(top, good);
      } else {
        var top := Elems(order[pos + 1..]);
        NoDupSize(order[pos + 1..]);
        assert good <= top by {
          forall x | x in good ensures x in top {
            var k :| 0 <= k < |order| && order[k] == x;
            assert k > pos;
            assert order[pos + 1..][k - pos - 1] == x;
          }
        }
        SubsetSize(good, top);
      }
    }
  }

  /** An index is jointly committed exactly when each half has a majority at it. */
  method JointCommittedIndex(incoming: set<Id>, outgoing: set<Id>, acked: map<Id, Index>) returns (r: Index)
    requires incoming + outgoing <= acked.Keys
    requires forall id :: id in incoming + outgoing ==> acked[id] <= U64_MAX
    ensures forall i: Index :: i <= U64_MAX ==>
              (i <= r <==> JointQuorum(incoming, outgoing, AckedAtLeast(incoming + outgoing, acked, i)))
  {
    var a := CommittedIndex(incoming, acked);
    var b := CommittedIndex(outgoing, acked);
    r := if a <= b then a else b;
    forall i: Index | i <= U64_MAX
      ensures i <= r <==> JointQuorum(incoming, outgoing, AckedAtLeast(incoming + outgoing, acked, i))
    {
      var all := AckedAtLeast(incoming + outgoing, acked, i);
      assert incoming * all == incoming * AckedAtLeast(incoming, acked, i);
      assert outgoing * all == outgoing * AckedAtLeast(outgoing, acked, i);
    }
  }

  // ---- Votes ---------------------------------------------------------------------------------

  ghost function Granted(votes: map<Id, bool>): set<Id> {
    set id | id in votes && votes[id]
  }

  /** The voters that have granted or may still grant. */
  ghost function MayGrant(ids: set<Id>, votes: map<Id, bool>): set<Id> {
    set id | id in ids && (id !in votes || votes[id])
  }

  ghost function Unvoted(ids: set<Id>, votes: map<Id, bool>): set<Id> {
    ids - votes.Keys
  }

  method CountVotes(ids: set<Id>, votes: map<Id, bool>) returns (grants: nat, missing: nat)
    ensures grants == |ids * Granted(votes)|
    ensures missing == |Unvoted(ids, votes)|
  {
    grants, missing := 0, 0;
    var rest := ids;
    ghost var yes: set<Id>, none: set<Id> := {}, {};
    while rest != {}
      invariant rest <= ids
      invariant forall x :: x in yes <==> x in ids && x !in rest && x in votes && votes[x]
      invariant forall x :: x in none <==> x in ids && x !in rest && x !in votes
      invariant grants == |yes| && missing == |none|
      decreases rest
    {
      var id :| id in rest;
      rest := rest - {id};
      if id !in votes {
        missing, none := missing + 1, none + {id};
      } else if votes[id] {
        grants, yes := grants + 1, yes + {id};
      }
    }
    assert yes == ids * Granted(votes);
    assert none == Unvoted(ids, votes);
  }

  /** Won: a majority granted. Lost: not even the missing votes could make one. */
  method MajorityVote(ids: set<Id>, votes: map<Id, bool>) returns (r: VoteResult)
    ensures r == Won <==> Majority(ids, Granted(votes))
    ensures r == Lost <==> !Majority(ids, MayGrant(ids, votes))
  {
    if ids == {} {
      return Won;
    }
    var grants, missing := CountVotes(ids, votes);
    WinnableSize(ids, votes);
    var q := |ids| / 2 + 1;
    r := if grants >= q then Won else if grants + missing >= q then Pending else Lost;
  }

  lemma WinnableSize(ids: set<Id>, votes: map<Id, bool>)
    ensures |ids * MayGrant(ids, votes)| == |ids * Granted(votes)| + |Unvoted(ids, votes)|
  {
    assert ids * MayGrant(ids, votes) == ids * Granted(votes) + Unvoted(ids, votes);
    assert (ids * Granted(votes)) !! Unvoted(ids, votes);
  }

  method JointVote(incoming: set<Id>, outgoing: set<Id>, votes: map<Id, bool>) returns (r: VoteResult)
    ensures r == Won <==> JointQuorum(incoming, outgoing, Granted(votes))
    ensures r == Lost <==> !JointQuorum(incoming, outgoing, MayGrant(incoming + outgoing, votes))
  {
    var r1 := MajorityVote(incoming, votes);
    var r2 := MajorityVote(outgoing, votes);
    var may := MayGrant(incoming + outgoing, votes);
    assert incoming * may == incoming * MayGrant(incoming, votes);
    assert outgoing * may == outgoing * MayGrant(outgoing, votes);
    if r1 == r2 {
      return r1;
    }
    if r1 == Lost || r2 == Lost {
      return Lost;
    }
    r := Pending;
  }

  // ---- Intersection --------------------------------------------------------------------------

  /**
    Majorities of two voter sets that differ by at most one voter always meet.
  */
  lemma MajoritiesMeet(ids: set<Id>, ids': set<Id>, a: set<Id>, b: set<Id>)
    requires ids != {} && ids' != {}
    requires |ids - ids'| + |ids' - ids| <= 1
    requires Majority(ids, a) && Majority(ids', b)
    ensures ids * a * b != {}
  {
    var u := ids + ids';
    var x, y := ids * a, ids' * b;
    assert |u| == |ids| + |ids' - ids| by { assert u == ids + (ids' - ids); }
    assert |u| == |ids'| + |ids - ids'| by { assert u == ids' + (ids - ids'); }
    if x * y == {} {
      assert |x + y| == |x| + |y|;
      SubsetSize(x + y, u);
      assert false;
    }
    assert ids * a * b >= x * y;
  }
}
