/**
  A driver around the routing state: commands, a small abstract endpoint, the pump and
  the teardown. The endpoint is a log that may be rewritten above its applied prefix
  while the node is not leader, and a FIFO of events in which every loss of leadership
  queues a `LeaderChanged`. Endpoint steps, commands and pumps interleave freely.
*/
module Driver {
  import opened Wrappers
  import opened Routing
  import Limbo

  datatype Endpoint = Endpoint(log: seq<Entry>, leader: bool, applied: Index, events: seq<Event>, poisoned: bool)

  datatype Op = Submit | ChangeConf | SetReadMode | ReadQuery | FailoverRead | Immediate
  datatype Command = Request(t: Token, op: Op) | Shutdown

  datatype Phase = Running | Leaving | Stopped

  /**
    `issued` are the operations a reservation was granted for, `asked` which operation
    each read context was minted for, `confirmed` the read indices the endpoint gave out.
  */
  datatype Node = Node(ep: Endpoint, r: State, wasLeader: bool, queue: seq<Command>, phase: Phase,
                       issued: set<Token>, asked: map<nat, Token>, confirmed: set<(nat, Index)>)

  const FRESH := Node(Endpoint([], false, 0, [], false), NEW, false, [], Running, {}, map[], {})

  // ---- Endpoint -----------------------------------------------------------------------------------

  datatype EndpointStep =
    | Lose                                 // any way a leader stops being one
    | Elect(announced: bool)
    | Announce                             // any other change of the leader belief
    | Append(entry: Entry)                 // a leader's own no-op
    | Rewrite(log: seq<Entry>)             // a follower taking another leader's log
    | ApplyNext
    | Install(log: seq<Entry>, upTo: Index)
    | Confirm(ctx: Option<nat>, at: Index)
    | Poison

  /** The event that applying this entry emits; an empty entry emits none. */
  function Emitted(index: Index, e: Entry): seq<Event> {
    match e.kind
    case Normal => [Applied(index, e)]
    case Conf => [ConfChanged(index, e)]
    case ReadMode => [ReadModeChanged(index)]
    case Empty => []
  }

  function Emit(ep: Endpoint, evs: seq<Event>): Endpoint { ep.(events := ep.events + evs) }

  predicate Allowed(ep: Endpoint, s: EndpointStep) {
    && !ep.poisoned
    && match s
       case Lose => ep.leader
       case Elect(_) => !ep.leader
       case Announce => true
       case Append(e) => ep.leader && e.origin.Foreign?
       case Rewrite(log) => !ep.leader && ep.applied <= |log| && ep.applied <= |ep.log|
                            && log[..ep.applied] == ep.log[..ep.applied]
       case ApplyNext => ep.applied < |ep.log|
       case Install(log, upTo) => !ep.leader && ep.applied < upTo <= |log| && ep.applied <= |ep.log|
                                  && log[..ep.applied] == ep.log[..ep.applied]
       case Confirm(_, _) => true
       case Poison => true
  }

  function Evolve(ep: Endpoint, s: EndpointStep): Endpoint
    requires Allowed(ep, s)
  {
    match s
    case Lose => Emit(ep, [LeaderChanged]).(leader := false)
    case Elect(announced) => Emit(ep, if announced then [LeaderChanged] else []).(leader := true)
    case Announce => Emit(ep, [LeaderChanged])
    case Append(e) => ep.(log := ep.log + [e])
    case Rewrite(log) => ep.(log := log)
    case ApplyNext => Emit(ep, Emitted(ep.applied + 1, ep.log[ep.applied])).(applied := ep.applied + 1)
    case Install(log, upTo) => Emit(ep, [SnapshotInstalled(upTo)]).(log := log, applied := upTo)
    case Confirm(ctx, at) => Emit(ep, [ReadState(ctx, at)])
    case Poison => ep.(poisoned := true)
  }

  // ---- Commands -------------------------------------------------------------------------------------

  /** An accepted proposal: appended to the log and parked at its index. */
  function Park(d: Node, t: Token, conf: bool): Node {
    var i := |d.ep.log| + 1;
    var r := if i in d.r.pending then Note(d.r, Discard(d.r.pending[i].t, Overwritten)) else d.r;
    d.(ep := d.ep.(log := d.ep.log + [Entry(Own(t), if conf then Conf else Normal)]),
       r := r.(pending := r.pending[i := Waiter(t, conf)]))
  }

  function Answered(d: Node, t: Token, answer: Answer): Node { d.(r := Note(d.r, Reply(t, answer))) }

  /** One command; `accept` is the endpoint's verdict on a proposal or read. */
  function Execute(panics: Token -> bool, d: Node, cmd: Command, accept: bool): Node {
    if cmd.Shutdown? then d.(phase := Leaving) else
      var t := cmd.t;
      match cmd.op
      case Submit =>
        if accept && d.ep.leader && !d.ep.poisoned then Park(d, t, false) else Answered(d, t, Err(Refused))
      case ChangeConf =>
        if accept && d.ep.leader && !d.ep.poisoned then Park(d, t, true) else Answered(d, t, Err(Refused))
      case SetReadMode =>
        if accept && d.ep.leader && !d.ep.poisoned
        then Answered(d.(ep := d.ep.(log := d.ep.log + [Entry(Own(t), ReadMode)])), t, Done)
        else Answered(d, t, Err(Refused))
      case ReadQuery =>
        var c := d.r.nextCtx;
        var m := d.(r := d.r.(nextCtx := c + 1), asked := d.asked[c := t]);
        if accept && !d.ep.poisoned then m.(r := m.r.(queries := m.r.queries[c := Query(t, c, None)]))
        else m.(r := Note(m.r, Invoke(t, Fail(Refused), panics(t))),
                ep := d.ep.(poisoned := d.ep.poisoned || panics(t)))
      case FailoverRead => d.(r := d.r.(failovers := d.r.failovers + [t]))
      case Immediate => Answered(d, t, if accept then Done else Err(Refused))
  }

  // ---- The pump ---------------------------------------------------------------------------------------

  /**
    What the clock and the log store say during one pump: the serve window, the store's
    answer should the limbo be read, and the lease at each completion.
  */
  datatype Choice = Choice(window: Option<Limbo.Window>, maxBytes: nat, read: Limbo.Read, live: nat -> bool)

  ghost function Scan(ch: Choice): Limbo.Outcome
    requires ch.window.Some?
  {
    Limbo.Answer(ch.window.value, ch.maxBytes, ch.read)
  }

  ghost predicate HasOffer(ch: Choice) { ch.window.Some? && Scan(ch).Region? }

  /** What a pump that serves offers its failover reads. */
  ghost function Offered(ch: Choice): Offer
    requires HasOffer(ch)
  {
    Offer(ch.window.value, Scan(ch).limbo)
  }

  ghost function RouteAll(panics: Token -> bool, r: State, evs: seq<Event>): State
    decreases |evs|
  {
    if evs == [] then r else RouteAll(panics, RouteEvent(panics, r, evs[0]), evs[1..])
  }

  ghost predicate AnyAdvances(panics: Token -> bool, r: State, evs: seq<Event>)
    decreases |evs|
  {
    evs != [] && (Advances(r, evs[0]) || AnyAdvances(panics, RouteEvent(panics, r, evs[0]), evs[1..]))
  }

  /** Events routed, the watermark synced, the leadership backstop run. */
  ghost function Settled(panics: Token -> bool, d: Node): State {
    var synced := if d.ep.poisoned then d.r else Raise(RouteAll(panics, d.r, d.ep.events), d.ep.applied);
    if d.wasLeader && !d.ep.leader then FailAll(panics, synced, Superseded) else synced
  }

  /** The pass has something to run queries for. */
  ghost predicate RunsQueries(panics: Token -> bool, d: Node) {
    && !d.ep.poisoned
    && (AnyAdvances(panics, d.r, d.ep.events) || d.ep.applied > RouteAll(panics, d.r, d.ep.events).applied)
  }

  /** The failover pass over the parked inherited reads. */
  ghost function FailoverPass(panics: Token -> bool, r: State, applied: Index, ch: Choice): State {
    if r.failovers == [] then r
    else if ch.window.None? then EndFailovers(panics, r, Decline)
    else if ch.window.value.index > r.applied then r
    else match Scan(ch)
         case Region(limbo) =>
           r.(failovers := [],
              trace := ServeFailovers(panics, r.trace, r.failovers, Offer(ch.window.value, limbo), applied, ch.live, 0, false))
         case Fallback => EndFailovers(panics, r, Decline)
         case Fatal => r
  }

  /** Its return value: the driver has to stop. */
  ghost predicate FailoverStops(panics: Token -> bool, r: State, ch: Choice) {
    && r.failovers != [] && ch.window.Some? && ch.window.value.index <= r.applied
    && (Scan(ch).Fatal? || (Scan(ch).Region? && AnyPanics(panics, r.failovers)))
  }

  /** The query serve, taken out of routing first. */
  ghost function QueryPass(panics: Token -> bool, r: State, applied: Index): State {
    TakeRunnableIsExact(r, 0);
    r.(queries := r.queries - RunnableKeys(r),
       trace := ServeQueries(panics, r.trace, RunnableQueries(r), applied, false))
  }

  /** Routing after the failover pass, which a poisoned endpoint skips. */
  ghost function Passed(panics: Token -> bool, d: Node, ch: Choice): State {
    if d.ep.poisoned then Settled(panics, d) else FailoverPass(panics, Settled(panics, d), d.ep.applied, ch)
  }

  ghost predicate Stops(panics: Token -> bool, d: Node, ch: Choice) {
    !d.ep.poisoned && FailoverStops(panics, Settled(panics, d), ch)
  }

  /** The latch is read once, before the serve, and gates it. */
  ghost predicate ServesQueries(panics: Token -> bool, d: Node, ch: Choice) {
    !Passed(panics, d, ch).latch && !d.ep.poisoned && RunsQueries(panics, d)
  }

  ghost function Served(panics: Token -> bool, d: Node, ch: Choice): State {
    var read := Passed(panics, d, ch).(latch := false);
    if ServesQueries(panics, d, ch) then QueryPass(panics, read, d.ep.applied) else read
  }

  ghost predicate Fatal(panics: Token -> bool, d: Node, ch: Choice) {
    || d.ep.poisoned || Passed(panics, d, ch).latch
    || (ServesQueries(panics, d, ch)
        && AnyPanics(panics, Tokens(RunnableQueries(Passed(panics, d, ch).(latch := false)))))
  }

  /** The event queue drained, which a poisoned endpoint refuses. */
  function Drained(d: Node): Node {
    d.(ep := if d.ep.poisoned then d.ep else d.ep.(events := []), wasLeader := d.ep.leader)
  }

  /** Everything parked fails and the run loop is told to exit. */
  ghost function Quit(panics: Token -> bool, d: Node, r: State, poisoned: bool): Node {
    d.(r := FailAll(panics, r, Poisoned), ep := d.ep.(poisoned := poisoned), phase := Leaving)
  }

  ghost function Pump(panics: Token -> bool, d: Node, ch: Choice): Node {
    if Stops(panics, d, ch) then Quit(panics, Drained(d), Passed(panics, d, ch), Scan(ch).Region?)
    else if Fatal(panics, d, ch) then Quit(panics, Drained(d), Served(panics, d, ch), true)
    else Drained(d).(r := Served(panics, d, ch))
  }

  // ---- Teardown -----------------------------------------------------------------------------------------

  /** Commands still queued are dropped, and their reply channels with them. */
  function DropQueue(trace: seq<Effect>, queue: seq<Command>): seq<Effect>
    decreases |queue|
  {
    if queue == [] then trace
    else DropQueue(if queue[0].Request? then trace + [Discard(queue[0].t, Undelivered)] else trace, queue[1..])
  }

  ghost function Teardown(panics: Token -> bool, d: Node): Node {
    var r := if d.ep.poisoned then FailAll(panics, d.r, Poisoned) else d.r;
    var swept := FailAll(panics, r, ShuttingDown);
    d.(r := swept.(latch := false, trace := DropQueue(swept.trace, d.queue)), queue := [], phase := Stopped)
  }

  // ---- Runs -----------------------------------------------------------------------------------------------

  datatype Step =
    | World(s: EndpointStep)
    | Enqueue(cmd: Command)
    | Handle(accept: bool)
    | RunPump(ch: Choice)
    | Stop

  predicate Enabled(d: Node, step: Step) {
    match step
    case World(s) => d.phase.Running? && Allowed(d.ep, s)
    case Enqueue(cmd) => !d.phase.Stopped? && (cmd.Request? ==> cmd.t !in d.issued)
    case Handle(_) => d.phase.Running? && d.queue != []
    case RunPump(_) => d.phase.Running?
    case Stop => d.phase.Leaving?
  }

  ghost function Next(panics: Token -> bool, d: Node, step: Step): Node
    requires Enabled(d, step)
  {
    match step
    case World(s) =>
      d.(ep := Evolve(d.ep, s),
         confirmed := if s.Confirm? && s.ctx.Some? then d.confirmed + {(s.ctx.value, s.at)} else d.confirmed)
    case Enqueue(cmd) =>
      d.(queue := d.queue + [cmd], issued := if cmd.Request? then d.issued + {cmd.t} else d.issued)
    case Handle(accept) => Execute(panics, d.(queue := d.queue[1..]), d.queue[0], accept)
    case RunPump(ch) => Pump(panics, d, ch)
    case Stop => Teardown(panics, d)
  }

  /** The node after a run of steps, or nothing when some step is not enabled. */
  ghost function Run(panics: Token -> bool, steps: seq<Step>): Option<Node>
    decreases |steps|
  {
    if steps == [] then Some(FRESH) else
      var before := Run(panics, steps[..|steps| - 1]);
      var last := steps[|steps| - 1];
      if before.Some? && Enabled(before.value, last) then Some(Next(panics, before.value, last)) else None
  }
}
