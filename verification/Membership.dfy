/** The tracker's configuration part and the changer that rewrites it. */
module Membership {
  import opened Quorums

  datatype Progress = Progress(matchIndex: Index, nextIndex: Index)

  datatype Tracker = Tracker(
    incoming: set<Id>, outgoing: set<Id>, learners: set<Id>, learnersNext: set<Id>,
    autoLeave: bool, progress: map<Id, Progress>)
  {
    predicate IsJoint() { outgoing != {} }

    function Ids(): set<Id> { incoming + outgoing + learners + learnersNext }

    ghost predicate Quorum(s: set<Id>) { JointQuorum(incoming, outgoing, s) }
  }

  datatype ChangeType = AddNode | AddLearner | RemoveNode
  datatype Change = Change(ty: ChangeType, node: Id)

  datatype ChangeError =
    | AlreadyJoint | NotJoint | SimpleInJoint | MultipleVoterChanges
    | EmptyVoterSet | LearnersNextInSimple | EmptyIncomingForJoint | InvariantViolation

  datatype Result = Changed(tracker: Tracker) | Refused(error: ChangeError)

  // ---- One change ------------------------------------------------------------------------------

  function InitProgress(tr: Tracker, id: Id, isLearner: bool, lastIndex: Index): Tracker {
    var next := if lastIndex == 0 then 1 else lastIndex;
    var t := tr.(progress := tr.progress[id := Progress(0, next)]);
    if isLearner then t.(learners := t.learners + {id}) else t.(incoming := t.incoming + {id})
  }

  function MakeVoter(tr: Tracker, id: Id, lastIndex: Index): Tracker {
    if id !in tr.progress then InitProgress(tr, id, false, lastIndex)
    else tr.(learners := tr.learners - {id}, learnersNext := tr.learnersNext - {id},
             incoming := tr.incoming + {id})
  }

  function Remove(tr: Tracker, id: Id): Tracker {
    if id !in tr.progress then tr
    else
      tr.(incoming := tr.incoming - {id}, learners := tr.learners - {id},
          learnersNext := tr.learnersNext - {id},
          progress := if id in tr.outgoing then tr.progress else tr.progress - {id})
  }

  function MakeLearner(tr: Tracker, id: Id, lastIndex: Index): Tracker {
    if id !in tr.progress then InitProgress(tr, id, true, lastIndex)
    else if id in tr.learners && id !in tr.incoming then tr
    else
      var saved := tr.progress[id];
      var t := Remove(tr, id);
      var u := if id in t.progress then t else t.(progress := t.progress[id := saved]);
      if id in u.outgoing then u.(learnersNext := u.learnersNext + {id})
      else u.(learners := u.learners + {id})
  }

  function ApplyOne(tr: Tracker, c: Change, lastIndex: Index): Tracker {
    match c.ty
    case AddNode => MakeVoter(tr, c.node, lastIndex)
    case AddLearner => MakeLearner(tr, c.node, lastIndex)
    case RemoveNode => Remove(tr, c.node)
  }

  function ApplyAll(tr: Tracker, cs: seq<Change>, lastIndex: Index): Tracker
    decreases |cs|
  {
    if cs == [] then tr else ApplyAll(ApplyOne(tr, cs[0], lastIndex), cs[1..], lastIndex)
  }

  /** The loop over the change list, then the empty-voter check. */
  method Apply(tr: Tracker, cs: seq<Change>, lastIndex: Index) returns (r: Result)
    ensures var t := ApplyAll(tr, cs, lastIndex);
            r == if t.incoming == {} then Refused(EmptyVoterSet) else Changed(t)
  {
    var t := tr;
    for i := 0 to |cs|
      invariant ApplyAll(t, cs[i..], lastIndex) == ApplyAll(tr, cs, lastIndex)
    {
      assert cs[i..][1..] == cs[i + 1..];
      t := ApplyOne(t, cs[i], lastIndex);
    }
    r := if t.incoming == {} then Refused(EmptyVoterSet) else Changed(t);
  }

  // ---- The three entry points --------------------------------------------------------------------

  /** What the changer itself verifies before it hands a configuration back. */
  predicate CheckInvariants(tr: Tracker) {
    && tr.Ids() <= tr.progress.Keys
    && tr.learnersNext <= tr.outgoing
    && tr.learners !! (tr.incoming + tr.outgoing)
    && (!tr.IsJoint() ==> tr.learnersNext == {} && !tr.autoLeave)
  }

  function Checked(tr: Tracker): Result {
    if CheckInvariants(tr) then Changed(tr) else Refused(InvariantViolation)
  }

  function Simple(tr: Tracker, cs: seq<Change>, lastIndex: Index): Result {
    if tr.IsJoint() then Refused(SimpleInJoint)
    else
      var next := ApplyAll(tr, cs, lastIndex);
      if next.incoming == {} then Refused(EmptyVoterSet)
      else if |tr.incoming - next.incoming| + |next.incoming - tr.incoming| > 1 then Refused(MultipleVoterChanges)
      else if next.learnersNext != {} then Refused(LearnersNextInSimple)
      else Checked(next)
  }

  function EnterJoint(tr: Tracker, autoLeave: bool, cs: seq<Change>, lastIndex: Index): Result {
    if tr.IsJoint() then Refused(AlreadyJoint)
    else if tr.incoming == {} then Refused(EmptyIncomingForJoint)
    else
      var next := ApplyAll(tr.(outgoing := tr.incoming), cs, lastIndex);
      if next.incoming == {} then Refused(EmptyVoterSet)
      else Checked(next.(autoLeave := autoLeave))
  }

  function LeaveJoint(tr: Tracker): Result {
    if !tr.IsJoint() then Refused(NotJoint)
    else
      var next := tr.(learners := tr.learners + tr.learnersNext, learnersNext := {},
                      outgoing := {}, autoLeave := false);
      Checked(next.(progress := next.progress - (tr.outgoing - next.Ids())))
  }

  // ---- What every change keeps --------------------------------------------------------------------

  /**
    The tracker's invariant. Beyond what the changer checks it says that a staged
    learner is not an incoming voter and that no progress entry is an orphan.
  */
  predicate Wf(tr: Tracker) {
    && CheckInvariants(tr)
    && tr.learnersNext !! tr.incoming
    && tr.progress.Keys == tr.Ids()
  }

  /** `Wf` without the clause that only holds once `auto_leave` has been set. */
  predicate WfSets(tr: Tracker) {
    && tr.progress.Keys == tr.Ids()
    && tr.learnersNext <= tr.outgoing
    && tr.learners !! (tr.incoming + tr.outgoing)
    && tr.learnersNext !! tr.incoming
  }

  lemma ApplyOneKeeps(tr: Tracker, c: Change, lastIndex: Index)
    requires WfSets(tr)
    ensures WfSets(ApplyOne(tr, c, lastIndex))
    ensures ApplyOne(tr, c, lastIndex).outgoing == tr.outgoing
    ensures ApplyOne(tr, c, lastIndex).autoLeave == tr.autoLeave
  {
    var t := ApplyOne(tr, c, lastIndex);
    assert t.progress.Keys == t.Ids();
  }

  lemma {:induction false} ApplyAllKeeps(tr: Tracker, cs: seq<Change>, lastIndex: Index)
    requires WfSets(tr)
    ensures WfSets(ApplyAll(tr, cs, lastIndex))
    ensures ApplyAll(tr, cs, lastIndex).outgoing == tr.outgoing
    ensures ApplyAll(tr, cs, lastIndex).autoLeave == tr.autoLeave
    decreases |cs|
  {
    if cs != [] {
      ApplyOneKeeps(tr, cs[0], lastIndex);
      ApplyAllKeeps(ApplyOne(tr, cs[0], lastIndex), cs[1..], lastIndex);
    }
  }

  /**
    On a well-formed tracker the changer's defensive refusals never fire: each entry
    point refuses exactly for the reasons its documentation names, and what it
    returns is well formed again.
  */
  lemma SimpleKeeps(tr: Tracker, cs: seq<Change>, lastIndex: Index)
    requires Wf(tr)
    ensures var r := Simple(tr, cs, lastIndex);
            if r.Changed? then Wf(r.tracker) && r.tracker.incoming != {} && !r.tracker.IsJoint()
            else r.error in {SimpleInJoint, EmptyVoterSet, MultipleVoterChanges}
  {
    if !tr.IsJoint() {
      ApplyAllKeeps(tr, cs, lastIndex);
      var next := ApplyAll(tr, cs, lastIndex);
      assert next.learnersNext == {} && !next.autoLeave;
      assert CheckInvariants(next);
    }
  }

  lemma EnterKeeps(tr: Tracker, autoLeave: bool, cs: seq<Change>, lastIndex: Index)
    requires Wf(tr)
    ensures var r := EnterJoint(tr, autoLeave, cs, lastIndex);
            if r.Changed? then Wf(r.tracker) && r.tracker.incoming != {} && r.tracker.outgoing == tr.incoming
            else r.error in {AlreadyJoint, EmptyIncomingForJoint, EmptyVoterSet}
  {
    if !tr.IsJoint() {
      var j := tr.(outgoing := tr.incoming);
      assert j.Ids() == tr.Ids();
      ApplyAllKeeps(j, cs, lastIndex);
    }
  }

  lemma LeaveKeeps(tr: Tracker)
    requires Wf(tr)
    ensures LeaveJoint(tr).Changed? <==> tr.IsJoint()
    ensures LeaveJoint(tr).Changed? ==>
              Wf(LeaveJoint(tr).tracker) && LeaveJoint(tr).tracker.incoming == tr.incoming
  {
    var next := tr.(learners := tr.learners + tr.learnersNext, learnersNext := {},
                    outgoing := {}, autoLeave := false);
    var gone := tr.outgoing - next.Ids();
    assert (next.progress - gone).Keys == next.Ids();
  }

  /**
    The changer's own check does not look for a staged learner among the incoming
    voters, and on such a tracker leaving the joint configuration is refused.
    Passing the check, a joint tracker can be left exactly when there is none.
  */
  lemma LeaveJointSucceedsIff(tr: Tracker)
    requires CheckInvariants(tr) && tr.IsJoint()
    ensures LeaveJoint(tr).Changed? <==> tr.learnersNext !! tr.incoming
  {
    var next := tr.(learners := tr.learners + tr.learnersNext, learnersNext := {},
                    outgoing := {}, autoLeave := false);
    var gone := tr.outgoing - next.Ids();
    assert (next.progress - gone).Keys == next.progress.Keys - gone;
    if tr.learnersNext !! tr.incoming {
      assert next.Ids() <= (next.progress - gone).Keys;
    } else {
      assert tr.learnersNext * tr.incoming != {};
      var x :| x in tr.learnersNext * tr.incoming;
      assert x in next.learners && x in next.incoming;
    }
  }

  /**
    Such a tracker passes the changer's own check and cannot be left. It does not arise:
    `IsValid` keeps it from being installed, and no run of changes builds it.
  */
  lemma StagedIncomingLearnerIsStuck()
    ensures exists tr :: CheckInvariants(tr) && tr.IsJoint() && LeaveJoint(tr) == Refused(InvariantViolation)
                         && !ConfStateOf(tr).IsValid()
  {
    var tr := Tracker({1}, {1}, {}, {1}, false, map[1 := Progress(0, 1)]);
    assert CheckInvariants(tr);
    LeaveJointSucceedsIff(tr);
    assert 1 in tr.learnersNext * tr.incoming;
  }

  // ---- Installing a configuration ----------------------------------------------------------------------

  /** The membership a snapshot carries. */
  datatype ConfState = ConfState(voters: set<Id>, learners: set<Id>, votersOutgoing: set<Id>, learnersNext: set<Id>,
                                 autoLeave: bool)
  {
    /** What a snapshot-delivered or recovered membership must satisfy before it is installed. */
    predicate IsValid() {
      && voters != {}
      && (forall id :: id in learners ==> id !in voters && id !in votersOutgoing)
      && (forall id :: id in learnersNext ==> id in votersOutgoing && id !in voters)
      && (votersOutgoing == {} ==> learnersNext == {} && !autoLeave)
    }
  }

  function ConfStateOf(tr: Tracker): ConfState {
    ConfState(tr.incoming, tr.learners, tr.outgoing, tr.learnersNext, tr.autoLeave)
  }

  /** A tracker from a membership, copied verbatim, with fresh progress for every member. */
  function FromConfState(cs: ConfState, lastIndex: Index): Tracker {
    Tracker(cs.voters, cs.votersOutgoing, cs.learners, cs.learnersNext, cs.autoLeave,
            map id | id in cs.voters + cs.votersOutgoing + cs.learners + cs.learnersNext :: Progress(0, lastIndex + 1))
  }

  /**
    The install check accepts exactly the memberships whose tracker satisfies the
    changer's invariant and has a voter, which is where every run of changes starts.
  */
  lemma ValidIffInstallable(cs: ConfState, lastIndex: Index)
    ensures cs.IsValid() <==> Wf(FromConfState(cs, lastIndex)) && FromConfState(cs, lastIndex).incoming != {}
    ensures ConfStateOf(FromConfState(cs, lastIndex)) == cs
    ensures var tr := FromConfState(cs, lastIndex);
            tr.progress.Keys == tr.Ids() && forall id :: id in tr.Ids() ==> tr.progress[id] == Progress(0, lastIndex + 1)
  {
    var tr := FromConfState(cs, lastIndex);
    assert tr.progress.Keys == tr.Ids();
    if Wf(tr) {
      assert forall id :: id in tr.learners ==> id !in tr.incoming + tr.outgoing;
      assert forall id :: id in tr.learnersNext ==> id !in tr.incoming;
    }
  }

  /** On a tracker that passes the changer's check, the install check decides whether it can be left. */
  lemma LeavableIffValid(tr: Tracker)
    requires CheckInvariants(tr) && tr.IsJoint() && tr.incoming != {}
    ensures LeaveJoint(tr).Changed? <==> ConfStateOf(tr).IsValid()
  {
    LeaveJointSucceedsIff(tr);
    assert tr.learnersNext !! tr.incoming <==> forall id :: id in tr.learnersNext ==> id !in tr.incoming;
    assert forall id :: id in tr.learners ==> id !in tr.incoming + tr.outgoing;
  }

  // ---- Joint consensus reaches the directly applied configuration -----------------------------------

  /** The joint tracker `j` stages what the plain tracker `s` has already demoted. */
  predicate Shadows(j: Tracker, s: Tracker) {
    && WfSets(j) && WfSets(s)
    && s.outgoing == {} && s.learnersNext == {}
    && j.incoming == s.incoming
    && j.learners + j.learnersNext == s.learners
  }

  lemma ShadowRemove(j: Tracker, s: Tracker, id: Id)
    requires Shadows(j, s)
    ensures Remove(j, id).incoming == Remove(s, id).incoming
    ensures Remove(j, id).learners + Remove(j, id).learnersNext == Remove(s, id).learners
  {
  }

  lemma ShadowStep(j: Tracker, s: Tracker, c: Change, lastIndex: Index)
    requires Shadows(j, s)
    ensures Shadows(ApplyOne(j, c, lastIndex), ApplyOne(s, c, lastIndex))
  {
    ApplyOneKeeps(j, c, lastIndex);
    ApplyOneKeeps(s, c, lastIndex);
    ShadowSets(j, s, c, lastIndex);
    ShadowPlain(s, c, lastIndex);
  }

  lemma ShadowPlain(s: Tracker, c: Change, lastIndex: Index)
    requires WfSets(s) && s.outgoing == {} && s.learnersNext == {}
    ensures ApplyOne(s, c, lastIndex).outgoing == {} && ApplyOne(s, c, lastIndex).learnersNext == {}
  {
  }

  lemma ShadowSets(j: Tracker, s: Tracker, c: Change, lastIndex: Index)
    requires Shadows(j, s)
    ensures ApplyOne(j, c, lastIndex).incoming == ApplyOne(s, c, lastIndex).incoming
    ensures ApplyOne(j, c, lastIndex).learners + ApplyOne(j, c, lastIndex).learnersNext
         == ApplyOne(s, c, lastIndex).learners
  {
    ShadowRemove(j, s, c.node);
  }

  lemma {:induction false} ShadowRun(j: Tracker, s: Tracker, cs: seq<Change>, lastIndex: Index)
    requires Shadows(j, s)
    ensures Shadows(ApplyAll(j, cs, lastIndex), ApplyAll(s, cs, lastIndex))
    decreases |cs|
  {
    if cs != [] {
      ShadowStep(j, s, cs[0], lastIndex);
      ShadowRun(ApplyOne(j, cs[0], lastIndex), ApplyOne(s, cs[0], lastIndex), cs[1..], lastIndex);
    }
  }

  /**
    Entering a joint configuration with any change list and leaving it again ends
    with the voters and learners that applying the list directly would give.
  */
  lemma JointReachesDirectResult(tr: Tracker, cs: seq<Change>, autoLeave: bool, lastIndex: Index)
    requires Wf(tr) && EnterJoint(tr, autoLeave, cs, lastIndex).Changed?
    ensures var joint := EnterJoint(tr, autoLeave, cs, lastIndex).tracker;
            var direct := ApplyAll(tr, cs, lastIndex);
            && LeaveJoint(joint).Changed?
            && LeaveJoint(joint).tracker.incoming == direct.incoming
            && LeaveJoint(joint).tracker.learners == direct.learners
            && LeaveJoint(joint).tracker.Ids() == direct.Ids()
  {
    var j := tr.(outgoing := tr.incoming);
    assert j.Ids() == tr.Ids();
    ShadowRun(j, tr, cs, lastIndex);
    EnterKeeps(tr, autoLeave, cs, lastIndex);
    LeaveKeeps(EnterJoint(tr, autoLeave, cs, lastIndex).tracker);
  }

  // ---- Safety across a change -------------------------------------------------------------------------

  /** The changer's entry points, and staying as one is. */
  datatype Op =
    | Stay
    | DoSimple(cs: seq<Change>, lastIndex: Index)
    | DoEnter(autoLeave: bool, cs: seq<Change>, lastIndex: Index)
    | DoLeave

  function Perform(tr: Tracker, op: Op): Result {
    match op
    case Stay => Changed(tr)
    case DoSimple(cs, last) => Simple(tr, cs, last)
    case DoEnter(al, cs, last) => EnterJoint(tr, al, cs, last)
    case DoLeave => LeaveJoint(tr)
  }

  lemma StepKeeps(a: Tracker, op: Op, b: Tracker)
    requires Wf(a) && a.incoming != {} && Perform(a, op) == Changed(b)
    ensures Wf(b) && b.incoming != {}
  {
    match op {
      case Stay =>
      case DoSimple(cs, last) => SimpleKeeps(a, cs, last);
      case DoEnter(al, cs, last) => EnterKeeps(a, al, cs, last);
      case DoLeave => LeaveKeeps(a);
    }
  }

  /** A quorum of a configuration and a quorum of its successor share a voter. */
  lemma AdjacentQuorumsMeet(a: Tracker, op: Op, b: Tracker, qa: set<Id>, qb: set<Id>)
    requires Wf(a) && a.incoming != {} && Perform(a, op) == Changed(b)
    requires a.Quorum(qa) && b.Quorum(qb)
    ensures a.incoming * qa * qb != {}
  {
    StepKeeps(a, op, b);
    match op {
      case Stay => MajoritiesMeet(a.incoming, a.incoming, qa, qb);
      case DoSimple(cs, last) => MajoritiesMeet(a.incoming, b.incoming, qa, qb);
      case DoEnter(al, cs, last) =>
        EnterKeeps(a, al, cs, last);
        MajoritiesMeet(a.incoming, b.outgoing, qa, qb);
      case DoLeave =>
        LeaveKeeps(a);
        MajoritiesMeet(a.incoming, b.incoming, qa, qb);
    }
  }

  /** The configurations a list of accepted changes goes through. */
  ghost predicate Run(run: seq<Tracker>, ops: seq<Op>) {
    && |run| == |ops| + 1 && Wf(run[0]) && run[0].incoming != {}
    && forall i :: 0 <= i < |ops| ==> Perform(run[i], ops[i]) == Changed(run[i + 1])
  }

  lemma {:induction false} RunKeeps(run: seq<Tracker>, ops: seq<Op>, k: nat)
    requires Run(run, ops) && k < |run|
    ensures Wf(run[k]) && run[k].incoming != {}
  {
    if k > 0 {
      RunKeeps(run, ops, k - 1);
      assert Perform(run[k - 1], ops[k - 1]) == Changed(run[k - 1 + 1]);
      StepKeeps(run[k - 1], ops[k - 1], run[k]);
    }
  }

  /** Whatever a run of changes reaches from an installed membership can be snapshotted and installed again. */
  lemma RunStaysInstallable(cs: ConfState, lastIndex: Index, run: seq<Tracker>, ops: seq<Op>, k: nat, last: Index)
    requires cs.IsValid() && |run| == |ops| + 1 && run[0] == FromConfState(cs, lastIndex) && k < |run|
    requires forall i :: 0 <= i < |ops| ==> Perform(run[i], ops[i]) == Changed(run[i + 1])
    ensures Run(run, ops) && ConfStateOf(run[k]).IsValid()
    ensures ConfStateOf(FromConfState(ConfStateOf(run[k]), last)) == ConfStateOf(run[k])
  {
    ValidIffInstallable(cs, lastIndex);
    RunKeeps(run, ops, k);
    var tr := run[k];
    assert forall id :: id in tr.learners ==> id !in tr.incoming + tr.outgoing;
    assert forall id :: id in tr.learnersNext ==> id !in tr.incoming;
  }

  /** Along every run of changes, a vote won now always meets the vote won one change later. */
  lemma RunQuorumsMeet(run: seq<Tracker>, ops: seq<Op>, k: nat, qa: set<Id>, qb: set<Id>)
    requires Run(run, ops) && k < |ops|
    requires run[k].Quorum(qa) && run[k + 1].Quorum(qb)
    ensures qa * qb != {}
  {
    RunKeeps(run, ops, k);
    AdjacentQuorumsMeet(run[k], ops[k], run[k + 1], qa, qb);
  }

  /**
    Two candidates cannot both win one term, under one configuration or two
    adjacent ones, when no voter grants both.
  */
  lemma AtMostOneWinner(a: Tracker, op: Op, b: Tracker, va: map<Id, bool>, vb: map<Id, bool>)
    requires Wf(a) && a.incoming != {} && Perform(a, op) == Changed(b)
    requires Granted(va) !! Granted(vb)
    ensures !(a.Quorum(Granted(va)) && b.Quorum(Granted(vb)))
  {
    if a.Quorum(Granted(va)) && b.Quorum(Granted(vb)) {
      AdjacentQuorumsMeet(a, op, b, Granted(va), Granted(vb));
    }
  }

  /**
    Every election quorum of this configuration or the next one holds a voter that
    has acked each index committed under this one.
  */
  lemma CommittedIsElected(a: Tracker, op: Op, b: Tracker, acked: map<Id, Index>, i: Index, winner: set<Id>)
    requires Wf(a) && a.incoming != {} && Perform(a, op) == Changed(b)
    requires a.incoming + a.outgoing <= acked.Keys
    requires a.Quorum(AckedAtLeast(a.incoming + a.outgoing, acked, i))
    requires b.Quorum(winner)
    ensures exists id :: id in winner && id in acked && acked[id] >= i
  {
    var qa := AckedAtLeast(a.incoming + a.outgoing, acked, i);
    AdjacentQuorumsMeet(a, op, b, qa, winner);
    var id :| id in a.incoming * qa * winner;
  }
}
