/**
  What a list of membership changes makes of each node: its role is the one the last
  change naming it asks for, and its replication progress survives exactly as long as
  it stays a member.
*/
module Roles {
  import opened Wrappers
  import opened Quorums
  import opened Membership

  /** The last change in the list that names the node. */
  function LastChange(cs: seq<Change>, id: Id): Option<ChangeType>
    decreases |cs|
  {
    if cs == [] then None else
      var later := LastChange(cs[1..], id);
      if later.Some? then later else if cs[0].node == id then Some(cs[0].ty) else None
  }

  predicate Votes(tr: Tracker, cs: seq<Change>, id: Id) {
    match LastChange(cs, id)
    case Some(ty) => ty == AddNode
    case None => id in tr.incoming
  }

  predicate Learns(tr: Tracker, cs: seq<Change>, id: Id) {
    match LastChange(cs, id)
    case Some(ty) => ty == AddLearner
    case None => id in tr.learners + tr.learnersNext
  }

  /** A member all along: it was one, and no change removed it, or it still votes in the outgoing half. */
  predicate Stays(tr: Tracker, cs: seq<Change>, id: Id) {
    id in tr.progress && (id in tr.outgoing || Change(RemoveNode, id) !in cs)
  }

  function Fresh(lastIndex: Index): Progress {
    Progress(0, if lastIndex == 0 then 1 else lastIndex)
  }

  /** The node's place in `t` is the one the changes give it. */
  ghost predicate Placed(tr: Tracker, cs: seq<Change>, lastIndex: Index, t: Tracker, id: Id) {
    && (id in t.incoming <==> Votes(tr, cs, id))
    && (id in t.learners + t.learnersNext <==> Learns(tr, cs, id))
    && (id in t.learnersNext <==> Learns(tr, cs, id) && id in tr.outgoing)
    && (id in t.progress <==> Votes(tr, cs, id) || Learns(tr, cs, id) || id in tr.outgoing)
    && (id in t.progress ==> t.progress[id] == if Stays(tr, cs, id) then tr.progress[id] else Fresh(lastIndex))
  }

  lemma ApplyOnePlaces(tr: Tracker, c: Change, lastIndex: Index, id: Id)
    requires WfSets(tr)
    ensures Placed(tr, [c], lastIndex, ApplyOne(tr, c, lastIndex), id)
  {
    OneChange(c, id);
    ApplyOneKeeps(tr, c, lastIndex);
    hide LastChange;
    match c.ty {
      case AddNode =>
      case AddLearner =>
      case RemoveNode =>
    }
  }

  lemma OneChange(c: Change, id: Id)
    ensures LastChange([c], id) == if c.node == id then Some(c.ty) else None
  {
    assert [c][1..] == [];
  }

  /** A node's place after the first change and after the rest is its place after them all. */
  lemma PlacedThen(tr: Tracker, cs: seq<Change>, lastIndex: Index, mid: Tracker, t: Tracker, id: Id)
    requires WfSets(tr) && WfSets(mid) && WfSets(t) && cs != [] && mid.outgoing == tr.outgoing == t.outgoing
    requires Placed(tr, [cs[0]], lastIndex, mid, id) && Placed(mid, cs[1..], lastIndex, t, id)
    ensures Placed(tr, cs, lastIndex, t, id)
  {
    var c := cs[0];
    OneChange(c, id);
    assert Votes(mid, cs[1..], id) == Votes(tr, cs, id);
    assert Learns(mid, cs[1..], id) == Learns(tr, cs, id);
    assert Change(RemoveNode, id) in cs <==> c == Change(RemoveNode, id) || Change(RemoveNode, id) in cs[1..];
  }

  /** Whatever the list, every node ends where the last change naming it puts it. */
  lemma {:induction false} ApplyAllPlaces(tr: Tracker, cs: seq<Change>, lastIndex: Index, id: Id)
    requires WfSets(tr)
    ensures Placed(tr, cs, lastIndex, ApplyAll(tr, cs, lastIndex), id)
    decreases |cs|
  {
    if cs != [] {
      var mid := ApplyOne(tr, cs[0], lastIndex);
      ApplyOneKeeps(tr, cs[0], lastIndex);
      ApplyOnePlaces(tr, cs[0], lastIndex, id);
      ApplyAllPlaces(mid, cs[1..], lastIndex, id);
      ApplyAllKeeps(mid, cs[1..], lastIndex);
      hide Placed, WfSets, ApplyOne;
      PlacedThen(tr, cs, lastIndex, mid, ApplyAll(tr, cs, lastIndex), id);
    }
  }

  // ---- The three entry points ------------------------------------------------------------------------

  function Named(cs: seq<Change>): set<Id> { set k: nat | k < |cs| :: cs[k].node }

  /** The voters the changes ask for. */
  function VotersAfter(tr: Tracker, cs: seq<Change>): set<Id> {
    set id | id in tr.incoming + Named(cs) && Votes(tr, cs, id)
  }

  lemma {:induction false} LastChangeIsNamed(cs: seq<Change>, id: Id)
    ensures LastChange(cs, id).Some? <==> id in Named(cs)
    decreases |cs|
  {
    if cs != [] {
      LastChangeIsNamed(cs[1..], id);
      assert cs[0].node in Named(cs);
      if id in Named(cs) && id != cs[0].node {
        var k: nat :| k < |cs| && cs[k].node == id;
        assert cs[1..][k - 1].node == id;
      }
      if id in Named(cs[1..]) {
        var k: nat :| k < |cs| - 1 && cs[1..][k].node == id;
        assert cs[k + 1].node == id;
      }
    }
  }

  lemma VotersAreAsAsked(tr: Tracker, cs: seq<Change>, lastIndex: Index)
    requires WfSets(tr)
    ensures ApplyAll(tr, cs, lastIndex).incoming == VotersAfter(tr, cs)
  {
    forall id
      ensures id in ApplyAll(tr, cs, lastIndex).incoming <==> id in VotersAfter(tr, cs)
    {
      ApplyAllPlaces(tr, cs, lastIndex, id);
      LastChangeIsNamed(cs, id);
    }
  }

  /** The voters that differ. */
  function Moved(a: set<Id>, b: set<Id>): set<Id> { (a - b) + (b - a) }

  lemma MovedCount(a: set<Id>, b: set<Id>)
    ensures |Moved(a, b)| == |a - b| + |b - a|
  {
    assert (a - b) !! (b - a);
  }

  /** On a well-formed tracker the two refusals for a plain tracker are the only ones. */
  lemma SimpleIs(tr: Tracker, cs: seq<Change>, lastIndex: Index)
    requires Wf(tr) && !tr.IsJoint()
    ensures var next := ApplyAll(tr, cs, lastIndex);
            Simple(tr, cs, lastIndex) == if next.incoming == {} then Refused(EmptyVoterSet)
                                         else if |Moved(tr.incoming, next.incoming)| > 1 then Refused(MultipleVoterChanges)
                                         else Changed(next)
  {
    var next := ApplyAll(tr, cs, lastIndex);
    assert CheckInvariants(next) && next.learnersNext == {} by { ApplyAllKeeps(tr, cs, lastIndex); }
    MovedCount(tr.incoming, next.incoming);
    hide Wf, CheckInvariants, ApplyAll, Moved;
  }

  /** When a simple change succeeds and when each refusal is given, from the change list alone. */
  lemma SimpleSucceedsIff(tr: Tracker, cs: seq<Change>, lastIndex: Index)
    requires Wf(tr)
    ensures var r, after := Simple(tr, cs, lastIndex), VotersAfter(tr, cs);
            && (r.Changed? <==> !tr.IsJoint() && after != {} && |Moved(tr.incoming, after)| <= 1)
            && (r == Refused(SimpleInJoint) <==> tr.IsJoint())
            && (r == Refused(EmptyVoterSet) <==> !tr.IsJoint() && after == {})
            && (r == Refused(MultipleVoterChanges)
                <==> !tr.IsJoint() && after != {} && |Moved(tr.incoming, after)| > 1)
  {
    if !tr.IsJoint() {
      SimpleIs(tr, cs, lastIndex);
      VotersAreAsAsked(tr, cs, lastIndex);
      hide Simple, ApplyAll, Moved, VotersAfter;
    }
  }

  /** What a simple change that succeeds makes of every node. */
  lemma SimpleOutcome(tr: Tracker, cs: seq<Change>, lastIndex: Index, id: Id)
    requires Wf(tr) && Simple(tr, cs, lastIndex).Changed?
    ensures var t := Simple(tr, cs, lastIndex).tracker;
            t.outgoing == {} && t.learnersNext == {} && !t.autoLeave && Placed(tr, cs, lastIndex, t, id)
  {
    SimpleKeeps(tr, cs, lastIndex);
    ApplyAllPlaces(tr, cs, lastIndex, id);
    SimpleIs(tr, cs, lastIndex);
    hide Simple, ApplyAll, Placed;
  }

  /** The configuration a joint change starts from: the voters of now are also its outgoing half. */
  function Doubled(tr: Tracker): Tracker { tr.(outgoing := tr.incoming) }

  lemma DoubledIsWf(tr: Tracker)
    requires Wf(tr) && !tr.IsJoint()
    ensures WfSets(Doubled(tr))
  {
    assert Doubled(tr).Ids() == tr.Ids();
  }

  lemma EnterOutcome(tr: Tracker, autoLeave: bool, cs: seq<Change>, lastIndex: Index)
    requires Wf(tr)
    ensures var r := EnterJoint(tr, autoLeave, cs, lastIndex);
            && (r.Changed? <==> !tr.IsJoint() && tr.incoming != {} && VotersAfter(tr, cs) != {})
            && (r == Refused(AlreadyJoint) <==> tr.IsJoint())
            && (r == Refused(EmptyIncomingForJoint) <==> !tr.IsJoint() && tr.incoming == {})
            && (r.Changed? ==> r.tracker.outgoing == tr.incoming && r.tracker.autoLeave == autoLeave
                               && forall id :: Placed(Doubled(tr), cs, lastIndex, r.tracker, id))
  {
    EnterKeeps(tr, autoLeave, cs, lastIndex);
    if !tr.IsJoint() {
      DoubledIsWf(tr);
      VotersAreAsAsked(Doubled(tr), cs, lastIndex);
      assert VotersAfter(Doubled(tr), cs) == VotersAfter(tr, cs);
      ApplyAllKeeps(Doubled(tr), cs, lastIndex);
      var next := ApplyAll(Doubled(tr), cs, lastIndex);
      forall id
        ensures Placed(Doubled(tr), cs, lastIndex, next, id)
        ensures Placed(Doubled(tr), cs, lastIndex, next.(autoLeave := autoLeave), id)
      {
        ApplyAllPlaces(Doubled(tr), cs, lastIndex, id);
      }
    }
  }

  /** The node's place once a joint change has been left. */
  ghost predicate Settled(tr: Tracker, cs: seq<Change>, lastIndex: Index, t: Tracker, id: Id) {
    && (id in t.incoming <==> Votes(tr, cs, id))
    && (id in t.learners <==> Learns(tr, cs, id))
    && (id in t.progress <==> Votes(tr, cs, id) || Learns(tr, cs, id))
    && (id in t.progress ==>
          t.progress[id] == if Stays(Doubled(tr), cs, id) then tr.progress[id] else Fresh(lastIndex))
  }

  /** Entering and leaving a joint configuration puts every node where the last change naming it asks. */
  lemma JointOutcome(tr: Tracker, autoLeave: bool, cs: seq<Change>, lastIndex: Index, id: Id)
    requires Wf(tr) && EnterJoint(tr, autoLeave, cs, lastIndex).Changed?
    ensures var left := LeaveJoint(EnterJoint(tr, autoLeave, cs, lastIndex).tracker);
            && left.Changed? && left.tracker.outgoing == {} && left.tracker.learnersNext == {}
            && !left.tracker.autoLeave && Settled(tr, cs, lastIndex, left.tracker, id)
  {
    EnterOutcome(tr, autoLeave, cs, lastIndex);
    EnterKeeps(tr, autoLeave, cs, lastIndex);
    var joint := EnterJoint(tr, autoLeave, cs, lastIndex).tracker;
    LeaveKeeps(joint);
    assert Placed(Doubled(tr), cs, lastIndex, joint, id);
    hide EnterJoint;
    LeaveSettles(tr, cs, lastIndex, joint, id);
  }

  lemma LeaveSettles(tr: Tracker, cs: seq<Change>, lastIndex: Index, joint: Tracker, id: Id)
    requires Wf(joint) && joint.IsJoint() && LeaveJoint(joint).Changed? && Wf(LeaveJoint(joint).tracker)
    requires Placed(Doubled(tr), cs, lastIndex, joint, id)
    ensures Settled(tr, cs, lastIndex, LeaveJoint(joint).tracker, id)
  {
    hide LastChange;
    var t := LeaveJoint(joint).tracker;
    assert t.incoming == joint.incoming && t.learners == joint.learners + joint.learnersNext;
    assert id in t.progress <==> id in t.Ids();
    assert Votes(Doubled(tr), cs, id) == Votes(tr, cs, id) && Learns(Doubled(tr), cs, id) == Learns(tr, cs, id);
  }
}
