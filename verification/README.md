# A verified model of Sailing's drivers and stores

Sailing is a Raft library: a sans-I/O protocol core, and drivers that feed it sockets, storage
and callers. This project models the state machines and protocols where its correctness
arguments live, and proves them for every run.

- **The driver** (`Routing.dfy`, `Driver.dfy`, `DriverObjects.dfy`, and the proofs in
  `AnswerSafety.dfy`, `ReadSafety.dfy`, `PanicSafety.dfy`, `Conservation.dfy`, `RunLoop.dfy`,
  `Outcomes.dfy` and `PassOutcomes.dfy`). Submits and conf changes are parked by log index, queries
  by a minted read context, failover reads in a list. Events drain from a FIFO, a leadership change
  sweeps everything, and a caught panic stops all serving. Five results:
  an `Ok` belongs to the entry its caller proposed even when a later leadership reuses the index,
  and comes exactly when that entry is applied; a query runs at its own confirmed index and no pass
  leaves one behind; nothing is served after a panic; every operation handled is answered exactly
  once and the budget held is what is outstanding; each kind of operation is told only what it can
  be told, and every error has its reason.
- **The in-flight budget and shutdown** (`Budget.dfy`, `Shutdown.dfy`): concurrent protocols over
  single atomic steps of any number of threads.
- **The `Data` codec** (`Codec.dfy`, `WireFormat.dfy`): round trip, canonicity and prefix-freedom by
  induction over a universe of nested types, and where each byte lies.
- **Snapshot staging and transfer** (`Staging.dfy`, `Transfer.dfy`, `StagingStore.dfy`): an interval set kept in
  canonical form, the chunked transfer it serves, and the keyed store around it.
- **The log store** (`LogStore.dfy`, `LogHistory.dfy`, `VecLog.dfy`): the normative log-store
  contract, its whole state told from the operations alone, and the in-memory log that refines it,
  with the durable frontier at its centre.
- **The limbo read** (`Limbo.dfy`), **the link reconcilers** (`Backoff.dfy`, `StreamLinks.dfy`,
  `QuicLinks.dfy`, `LinkOutcomes.dfy`), **the outbound backlog** (`Backlog.dfy`) and **the in-flight window**
  (`Inflights.dfy`).
- **Quorums and membership** (`Quorums.dfy`, `Membership.dfy`, `Roles.dfy`): majority and joint
  quorums, and the configuration changer with the quorum-intersection argument it exists for and
  the role it gives each node.

Code that updates fields is a class whose methods are proved against step functions on values;
the theorems over whole runs are lemmas about those step functions. `Finite.dfy` holds what is
needed about finite sets and weighted sums over maps, `Wrappers.dfy` the one `Option`.

Assumptions about the parts outside the model:

- The endpoint emits `LeaderChanged` on every loss of leadership, never rewrites its applied
  prefix, proposes only while leader, changes no leader belief while serving a command, and applying
  an entry emits the event of its kind.
- A completion is invoked at most once (it is an owned closure; that it is at most once here is
  proved), so whether it panics is a function of the operation.
- The lengths of simultaneous reservation attempts sum to less than 2^64. `WrapBreaksTheByteCap`
  shows that this is needed.
- An fsync landing at an index makes the visible log prefix through it durable.
- A log store read may omit anything but makes nothing up.
- The coordinator hands out connection ids that are not in use.

Commands, endpoint steps and pumps interleave freely in all of these results but one. That everything
handled is answered, and that a proposal is parked over nobody, rests on the order of the run loops,
which handle a command only straight after a pump; `RunLoop.dfy` states that order and what it buys.

Where the code and its words differ, the code is followed: `storage.rs` asks for completions in
submission order, and the in-memory log gives that up when an append goes through while others are
held. `OrderlyRunsAreFifo` and `AppendIsFifoIff` say exactly when.

`dafny verify dfyconfig.toml` checks the whole project.

## Model

| member | source | states |
|---|---|---|
| `AnswerSafety.OkAnswersOwnEntry` | sailing-driver/src/shared.rs:508-549 | In every run of commands, endpoint steps, pumps and teardown, in any interleaving, an `Ok` answer carries the very entry its own operation proposed, and no waiter is consumed by an event of the other kind |
| `AnswerSafety.AlwaysOwned` | sailing-driver/src/shared.rs:420-422 | Every reachable state keeps the index-reuse invariant: each parked waiter's entry is in the log at its index, or a `LeaderChanged` is queued ahead of anything that could complete it |
| `AnswerSafety.NextOwned` | sailing-driver/src/shared.rs:633-696 | Each step of driver or endpoint keeps that invariant |
| `AnswerSafety.RouteAllOwned` | sailing-driver/src/shared.rs:636-655 | Draining the queue answers each waiter truthfully and leaves only waiters whose entry is in the log |
| `AnswerSafety.RouteAllEmpties` | sailing-driver/src/shared.rs:656-658 | A `LeaderChanged` anywhere in the queue leaves nobody parked on an index |
| `AnswerSafety.EvolveOwned` | sailing-proto/src/event.rs:37-45 | Losing and winning leadership, rewriting the log above the applied prefix, applying and installing keep the invariant |
| `AnswerSafety.RewriteSafe` | sailing-driver/src/shared.rs:510-517 | A rewrite above the applied prefix strands no waiter: its index can only be completed after the queued sweep |
| `AnswerSafety.OverwritesOnlyAcrossAChange` | sailing-compio/src/driver/stream.rs:935-943 | In any order of steps, an accepted proposal finds its index already parked only while a leadership change is still queued |
| `AnswerSafety.CompletedMeansOk` | sailing-driver/src/shared.rs:636-655 | In every run, a caller whose index the queue completes before any change of leader is answered `Ok` with the log's entry there by the next pump of a healthy endpoint, whatever else that pump meets |
| `AnswerSafety.ApplyCompletes` | sailing-proto/src/event.rs:37-45 | Applying the entry a caller waits for completes its index, unless a change of leader is already queued |
| `Outcomes.OutcomesFit` | sailing-compio/src/driver/stream.rs:925-1083 | In every run, with each operation taken from its enqueue step: a reply to a submit or conf change is an error or `Ok` with the entry it proposed, of its own kind, at an applied index; what is decided at once is answered `Done` or refused; a read is completed and never replied to |
| `Outcomes.AlwaysInPlace` | sailing-compio/src/driver/stream.rs:925-1083 | Every reachable state keeps each operation where its kind belongs |
| `Outcomes.ProposalOutcome` | sailing-compio/src/driver/stream.rs:927-989 | After a pump, a proposal the endpoint accepts is the log's new last entry and its caller waits at that index over nobody; one it refuses is answered so with the log and every waiter unchanged |
| `Outcomes.ReadOutcome` | sailing-compio/src/driver/stream.rs:990-1034 | A read taken on is parked with nothing said; a refused one is completed at once and a panic then poisons the endpoint |
| `Outcomes.ImmediateOutcome` | sailing-compio/src/driver/stream.rs:1035-1083 | Any other command is answered at once and parks nothing; a read mode agreed on is appended |
| `PassOutcomes.ProposalsOutcome` | sailing-driver/src/shared.rs:633-658 | In every run a pass that goes on with no change of leader to route answers a waiting caller `Ok` exactly when the queue completes its index and leaves it waiting otherwise |
| `PassOutcomes.QueriesOutcome` | sailing-driver/src/shared.rs:492-506 | Likewise it runs a parked query at its confirmed index exactly when that is applied and leaves it parked otherwise |
| `PassOutcomes.FailoverReadsOutcome` | sailing-compio/src/driver/stream.rs:1092-1140 | Likewise it declines every parked failover read when there is no window or the limbo falls back, keeps them while the window's index is not applied, and otherwise hands each the state machine and limbo if the lease is live at its turn, until one panics |
| `PassOutcomes.PumpLeavesIff` | sailing-compio/src/driver/stream.rs:1167-1232 | In every run a pass ends the loop exactly when the endpoint is poisoned, a completion of this pass panicked, or the limbo read for a parked read was faulty, and leaves it poisoned in all of these cases but the last |
| `RunLoop.EveryHandledOperationIsAnswered` | sailing-compio/src/driver/stream.rs:518-560 | In every run in the loop's order that has stopped, each operation given to the driver has exactly one effect: a reply or an invocation of its completion if its command was handled, a dropped channel exactly if it never was |
| `RunLoop.LoopDropsNone` | sailing-compio/src/driver/stream.rs:588-663 | Until it stops, a driver running its loop has dropped nobody's channel |
| `RunLoop.NoChangeWaits` | sailing-compio/src/driver/quic.rs:471-509 | In the loop's order no leadership change is waiting to be routed when a command is handled |
| `RunLoop.HandledLeftTheQueue` | sailing-compio/src/driver/stream.rs:522-531 | An operation has been handled exactly when it has left the command queue |
| `RunLoop.PumpAnswers` | sailing-compio/src/driver/stream.rs:1144-1233 | A pass replies to or completes whatever it takes out of routing, and offers failover reads the window and limbo of that pass |
| `RunLoop.ErrorsHaveTheirReason` | sailing-driver/src/shared.rs:508-549 | In every run a pass says `Superseded` only when a change of leader was queued or leadership was lost since the last pass, `Poisoned` only when it ends the loop, and no other error |
| `RunLoop.FailoverReadsSeeTheLimbo` | sailing-compio/src/driver/stream.rs:1092-1128 | In every run a failover read handed the state machine was handed a limbo listing exactly the normal log entries between the committed index and the last that may have been acknowledged, with that committed index applied |
| `RunLoop.AnotherOrderCouldOverwrite` | sailing-compio/src/driver/stream.rs:518-560 | The loop's order is what this rests on: a run in another order that drops a parked caller's channel, shown not to be in the loop's order |
| `ReadSafety.QueriesRunAtTheirIndex` | sailing-driver/src/shared.rs:492-506 | In every run, a query closure is handed the state machine only when that has applied the index the endpoint confirmed for this query's own context |
| `ReadSafety.HealthyPumpLeavesNothingRunnable` | sailing-compio/src/driver/stream.rs:1167-1219 | After any pump that does not stop the driver the watermark equals the endpoint's applied index and every confirmed query still parked waits for a later one |
| `ReadSafety.RouteAllReads` | sailing-driver/src/shared.rs:483-490 | If routing every event and syncing the watermark both report nothing, no query became runnable and the watermark did not move |
| `ReadSafety.PumpReads` | sailing-compio/src/driver/quic.rs:942-994 | A whole pass keeps every parked query under its own context and confirmed index, and leaves none runnable |
| `ReadSafety.AlwaysReadsOk` | sailing-driver/src/shared.rs:469-473 | Every reachable state: minted contexts are fresh, the watermark never passes the endpoint's applied index |
| `PanicSafety.NothingServedAfterAPanic` | sailing-compio/src/driver/stream.rs:1167-1233 | In every run no completion is handed the state machine after any completion, served, swept, declined or refused, has reported a caught panic |
| `PanicSafety.LatchIsClearOnceStopped` | sailing-driver/src/shared.rs:614-626 | In every run that has stopped the latch is clear |
| `PanicSafety.PumpGated` | sailing-compio/src/driver/stream.rs:1167-1232 | One pass keeps that, through the order of sweep, failover serve, latch read and query serve |
| `PanicSafety.FailoverPassGuarded` | sailing-compio/src/driver/stream.rs:1092-1140 | The failover pass serves only untorn state and latches or reports what it catches |
| `PanicSafety.ExecuteGated` | sailing-compio/src/driver/stream.rs:1011-1020 | A refused read whose dropped closure panics poisons the endpoint before anything else is served |
| `PanicSafety.TeardownGated` | sailing-compio/src/driver/stream.rs:672-680 | The teardown sweeps serve nothing and leave the latch clear |
| `Conservation.BudgetIsWhatIsOutstanding` | sailing-driver/src/shared.rs:518-560 | At every step the reservations held equal queued commands plus pending, queries and failovers, and each operation is in exactly one place |
| `Conservation.StoppedHasOneEffectEach` | sailing-compio/src/driver/quic.rs:624-648 | When the driver has stopped every operation ever accepted has exactly one effect |
| `Conservation.BudgetCountsTheQueriesInHand` | sailing-driver/src/shared.rs:389-403 | While queries are being served, after each completion the reservations held also count the rest of the batch in hand |
| `Conservation.BudgetCountsTheFailoversInHand` | sailing-driver/src/shared.rs:351-376 | The failover batch in hand, likewise |
| `Conservation.TeardownVerdict` | sailing-compio/src/driver/stream.rs:666-690 | Everything parked at teardown is answered `Poisoned` if the endpoint is poisoned and `ShuttingDown` otherwise; only unhandled commands are dropped |
| `Conservation.QueryPassMoves` | sailing-driver/src/shared.rs:379-403 | The taken batch is answered completely: nothing taken out of routing is lost when a panic stops the serve |
| `Conservation.PumpConserves` | sailing-compio/src/driver/stream.rs:1144-1233 | A pass loses and duplicates no operation on any of its exits |
| `Conservation.ExecuteTakes` | sailing-compio/src/driver/stream.rs:925-1083 | Each command's operation ends up parked or answered, once |
| `Routing.FailAllSweeps` | sailing-driver/src/shared.rs:518-549 | A sweep leaves nothing parked, hands nobody the state machine and latches every panic it catches |
| `Routing.FailAllPlaces` | sailing-driver/src/shared.rs:518-549 | A sweep moves every parked operation into the answered ones exactly once |
| `Routing.FailAllWith` | sailing-driver/src/shared.rs:518-549 | Every effect of a sweep is exactly the error it was given, one per parked operation |
| `Routing.EndFailoversDecline` | sailing-driver/src/shared.rs:556-560 | Declining completes every parked failover read with `Decline`, in order |
| `Routing.RouteEventPlaces` | sailing-driver/src/shared.rs:633-696 | Routing an event neither loses nor duplicates an operation |
| `Routing.TakeRunnableIsExact` | sailing-driver/src/shared.rs:494-506 | The taken batch is exactly the parked queries whose index is covered, each once; what stays parked is exactly the rest |
| `Routing.ServeQueriesArgs` | sailing-driver/src/shared.rs:389-403 | The i-th query of a batch gets the state machine at its own index, or `Poisoned` exactly when one before it panicked |
| `Routing.ServeQueriesClean` | sailing-driver/src/shared.rs:389-403 | Serving a batch never hands out the state machine after a caught panic |
| `Routing.ServeFailoversArgs` | sailing-driver/src/shared.rs:351-376 | The i-th failover read is served exactly when no earlier one panicked and the lease is live when asked again for it; otherwise declined or `Poisoned` |
| `Routing.ServeFailoversClean` | sailing-driver/src/shared.rs:351-376 | The failover batch, likewise |
| `DriverObjects.Routing.constructor` | sailing-driver/src/shared.rs:456-466 | Empty routing, contexts from 1 |
| `DriverObjects.Routing.MintQueryCtx` | sailing-driver/src/shared.rs:469-473 | Returns the counter and advances it |
| `DriverObjects.Routing.SyncApplied` | sailing-driver/src/shared.rs:483-490 | The watermark is raised to the endpoint's index and reports whether it moved |
| `DriverObjects.Routing.TakeRunnableQueries` | sailing-driver/src/shared.rs:494-506 | Returns the runnable queries in context order and keeps the rest |
| `DriverObjects.Routing.FailAll` | sailing-driver/src/shared.rs:518-549 | The loops over pending, queries and failovers do what the specified sweep does |
| `DriverObjects.Routing.DeclineFailovers` | sailing-driver/src/shared.rs:556-560 | Every parked failover read is completed as declined, panics latched |
| `DriverObjects.Routing.TakeCompletionPanicked` | sailing-driver/src/shared.rs:567-569 | Reads and clears the latch |
| `DriverObjects.Routing.Complete` | sailing-driver/src/shared.rs:575-587 | One completion outside a serve, latching its panic |
| `DriverObjects.Routing.RouteEvent` | sailing-driver/src/shared.rs:633-696 | One event does exactly what the specified step does, which `CompletedMeansOk` and `ErrorsHaveTheirReason` pin, and the return value says whether a query may now run |
| `DriverObjects.Routing.ServeQueryBatch` | sailing-driver/src/shared.rs:389-403 | The serve loop and its early stop |
| `DriverObjects.Routing.ServeFailoverBatch` | sailing-driver/src/shared.rs:351-376 | The failover serve loop with its lease re-check |
| `DriverObjects.Driver.constructor` | sailing-compio/src/driver/stream.rs:446-475 | A fresh driver |
| `DriverObjects.Driver.HandleCommand` | sailing-compio/src/driver/stream.rs:925-1083 | One command, with the endpoint's verdict as an argument, as `ProposalOutcome`, `ReadOutcome` and `ImmediateOutcome` pin it; true exactly on a shutdown |
| `DriverObjects.Driver.Propose` | sailing-compio/src/driver/stream.rs:927-989 | An accepted proposal is parked at its index, a refused one answered; `OutcomesFit` says what it may be told later |
| `DriverObjects.Driver.ChangeReadMode` | sailing-compio/src/driver/stream.rs:1046-1059 | An accepted read-mode change is appended and answered at once, parking nothing |
| `DriverObjects.Driver.AskRead` | sailing-compio/src/driver/stream.rs:990-1023 | A minted context, and a parked query or a refused completion |
| `DriverObjects.Driver.RunFailoverServe` | sailing-compio/src/driver/stream.rs:1092-1140 | Reads the limbo, then serves, declines or keeps the parked failover reads; true exactly on a fault or a caught panic |
| `DriverObjects.Driver.DrainEvents` | sailing-compio/src/driver/stream.rs:1167-1170 | The event loop routes everything queued |
| `DriverObjects.Driver.Settle` | sailing-compio/src/driver/quic.rs:943-968 | Events, watermark and leadership backstop, in that order |
| `DriverObjects.Driver.ServeQueriesIf` | sailing-compio/src/driver/stream.rs:1213-1219 | The gated query serve |
| `DriverObjects.Driver.Pump` | sailing-compio/src/driver/stream.rs:1167-1232 | The pump does what the specified pass does, on every one of its exits |
| `DriverObjects.Driver.Teardown` | sailing-compio/src/driver/stream.rs:672-690 | Classify, sweep, clear the latch, drop what is queued |
| `Budget.GuardsWithinCaps` | sailing-driver/src/shared.rs:70-88 | In every interleaving of any threads' atomic steps the guards alive never exceed the count cap or the byte cap |
| `Budget.QuietCountersAreGuards` | sailing-driver/src/shared.rs:70-110 | Whenever no attempt is mid-flight both counters are exactly the live guards |
| `Budget.RefusedLeavesNothing` | sailing-driver/src/shared.rs:71-83 | A refused attempt is in neither counter once it has finished |
| `Budget.NextKeeps` | sailing-driver/src/shared.rs:70-110 | Every atomic step keeps both counters equal to what attempts and guards put there and what passed each gate within its cap |
| `Budget.UndisturbedAttempt` | sailing-driver/src/shared.rs:70-88 | Alone, an attempt is granted exactly when the guards leave room under both caps, and a refusal restores the state |
| `Budget.EachThreadHasOneStep` | sailing-driver/src/shared.rs:70-110 | Each attempt and guard has exactly one step it can take next, decided by what it read |
| `Budget.BusyCanBeSpurious` | sailing-driver/src/shared.rs:73-77 | With others mid-flight an attempt can be refused while no guard is held |
| `Budget.WrapBreaksTheByteCap` | sailing-driver/src/shared.rs:78-83 | A run from the empty budget in which, without the bound on simultaneous lengths, the byte counter wraps and the byte cap is exceeded |
| `Budget.InflightBudget.constructor` | sailing-driver/src/shared.rs:56-63 | Empty counters under the given caps |
| `Budget.InflightBudget.TryReserve` | sailing-driver/src/shared.rs:70-88 | Granted exactly under both caps; a refusal restores both counters, wrap included |
| `Budget.InflightBudget.Release` | sailing-driver/src/shared.rs:105-110 | A guard's drop gives back its slot and its bytes |
| `Shutdown.CoalescedAndHonest` | sailing-driver/src/handle/mod.rs:488-509 | However many callers race, at most one command is ever enqueued, and an `Ok` means the socket was released |
| `Shutdown.ReturnsTellTheEnd` | sailing-driver/src/handle/mod.rs:488-509 | A caller is told `Ok` only once the signal has fired and an error only after an abort, and one still waiting then gets exactly that |
| `Shutdown.NeverStranded` | sailing-driver/src/handle/mod.rs:475-509 | In every reachable state a waiting caller can return, or somebody else has a step that lowers a rank; the coalescing flag strands nobody |
| `Shutdown.RankNeverRises` | sailing-driver/src/handle/mod.rs:488-509 | No step of anybody raises that rank |
| `Codec.RoundTrip` | sailing-proto/src/data.rs:102-249 | For every type nested from the six formers, decoding an encoding followed by anything returns the value and stops at its end |
| `Codec.Canonical` | sailing-proto/src/data.rs:102-249 | Whatever decodes, re-encodes to exactly the bytes consumed, and has the type |
| `Codec.DecodeExactIff` | sailing-proto/src/data.rs:102-110 | Exact decoding yields a value precisely for that value's own encoding |
| `Codec.PrefixFree` | sailing-proto/src/data.rs:90-110 | No encoding is a proper prefix of another of the same type |
| `Codec.NeverZeroWidth` | sailing-proto/src/data.rs:193-249 | The decoders' zero-width refusal is unreachable at every type, because every encoding is at least one byte |
| `Codec.LeRoundTrip` | sailing-proto/src/data.rs:135-144 | Little-endian words decode to themselves |
| `Codec.LeCanonical` | sailing-proto/src/data.rs:135-144 | and every word encodes back to its bytes |
| `Codec.Trichotomy` | sailing-proto/src/data.rs:220-249 | Values of a type are totally ordered |
| `Codec.Transitive` | sailing-proto/src/data.rs:220-249 | and the order is transitive, sets of sets included |
| `Codec.SetFormUnique` | sailing-proto/src/data.rs:220-249 | A set has one strictly ascending listing, so one encoding |
| `Codec.Encode` | sailing-proto/src/data.rs:135-249 | The recursive encoder appends exactly the encoding, whose every byte `WordBytes`, `LengthPrefix`, `ElementAt` and `FlagBytes` place |
| `Codec.EncodeItems` | sailing-proto/src/data.rs:193-249 | Its element loop likewise |
| `Codec.ByteCursor.constructor` | sailing-proto/src/data.rs:19-29 | A cursor at the start of its bytes |
| `Codec.ByteCursor.TakeBytes` | sailing-proto/src/data.rs:45-77 | Takes exactly the bytes asked for, or fails without moving |
| `Codec.DecodeLen` | sailing-proto/src/data.rs:130-133 | A length, refused when it does not fit the platform word |
| `Codec.DecodeScalar` | sailing-proto/src/data.rs:135-191 | The word, bool, unit and byte decoders move the cursor by what they consume |
| `Codec.Decode` | sailing-proto/src/data.rs:135-249 | The cursor decoder refines the value-level decoder and moves by what it consumed |
| `Codec.DecodeOne` | sailing-proto/src/data.rs:206-246 | One element: zero-width refused, and for a set refused unless strictly above the previous one |
| `Codec.DecodeItems` | sailing-proto/src/data.rs:193-249 | The element loop of both collections |
| `Codec.DecodeExact` | sailing-proto/src/data.rs:102-110 | Whole-input decoding, trailing bytes refused |
| `WireFormat.WordBytes` | sailing-proto/src/data.rs:135-139 | Byte i of a word is its i-th digit in base 256, least significant first |
| `WireFormat.LengthPrefix` | sailing-proto/src/data.rs:180-249 | Bytes, vec and set begin with their length as such a word |
| `WireFormat.ElementAt` | sailing-proto/src/data.rs:193-249 | Element i starts right after the length and the encodings before it, and is its own encoding |
| `WireFormat.FlagBytes` | sailing-proto/src/data.rs:146-170 | True, false and unit are the single bytes 1, 0 and 0 |
| `WireFormat.BytesOrder` | sailing-proto/src/data.rs:220-249 | The order of byte strings is the dictionary order |
| `WireFormat.CollectionsOrder` | sailing-proto/src/data.rs:220-249 | Vecs and sets are ordered by their elements in the same way |
| `WireFormat.ScalarsOrder` | sailing-proto/src/data.rs:220-249 | Words by value, false before true |
| `WireFormat.TruncatedIsEof` | sailing-proto/src/data.rs:45-77 | An encoding of any nested type cut anywhere is refused as an unexpected end and nothing else |
| `WireFormat.ScalarErrorsIff` | sailing-proto/src/data.rs:140-178 | Which bytes earn each scalar error, exactly |
| `WireFormat.OversizeLength` | sailing-proto/src/data.rs:123-133 | A length above the platform word is refused by name, whatever follows |
| `WireFormat.UnsortedIsNotASet` | sailing-proto/src/data.rs:229-249 | Elements that do not strictly ascend decode as a vec and are refused as a set, for that reason |
| `Staging.RunsAreWrittenBytes` | sailing-proto/src/storage.rs:692-755 | After any accepted chunks the run list is sorted, gap-separated and stands for exactly the bytes written |
| `Staging.CanonicalUnique` | sailing-proto/src/storage.rs:734-755 | That form is unique for a set of bytes |
| `Staging.OrderDoesNotMatter` | sailing-proto/src/storage.rs:692-755 | The same chunks in any order, repeated or not, end with the same run list |
| `Staging.FirstRefusalIsFaithful` | sailing-proto/src/storage.rs:748-754 | The first chunk refused by the run cap leaves a list still canonical and still exactly the bytes written |
| `Staging.RefusalMergedNothing` | sailing-proto/src/storage.rs:734-755 | A refused interval touches no run that was there: the list was full and now holds those runs as they were and the interval on its own |
| `Staging.WatermarkIsLongestPrefix` | sailing-proto/src/storage.rs:706-711 | After any accepted chunks the watermark is the longest prefix every byte of which was written |
| `Staging.RefusedIff` | sailing-proto/src/storage.rs:748-754 | A chunk is refused exactly when the bytes written do not fit the cap in canonical form |
| `Staging.ContiguousIsPrefix` | sailing-proto/src/storage.rs:706-711 | The reported watermark is the longest fully written prefix |
| `Staging.LastWriterWins` | sailing-proto/src/storage.rs:692-702 | Each written byte of the buffer is that of the last chunk that covered it |
| `Staging.SortByStart` | sailing-proto/src/storage.rs:739-739 | A permutation sorted by start |
| `Staging.MergeRuns` | sailing-proto/src/storage.rs:740-746 | The merge loop yields the canonical form of the same bytes |
| `Staging.SnapshotStaging.constructor` | sailing-proto/src/storage.rs:667-671 | An empty staging of the given length |
| `Staging.SnapshotStaging.Create` | sailing-proto/src/storage.rs:659-672 | Refused exactly over the cap or when the buffer cannot be reserved |
| `Staging.SnapshotStaging.InsertRun` | sailing-proto/src/storage.rs:734-755 | Adds exactly the interval to the bytes covered, refusing over the cap |
| `Staging.SnapshotStaging.Accept` | sailing-proto/src/storage.rs:692-702 | Copies the clamped chunk in, records it, and answers the watermark |
| `Staging.SnapshotStaging.ContiguousEnd` | sailing-proto/src/storage.rs:706-711 | Reads the watermark |
| `Staging.SnapshotStaging.IsComplete` | sailing-proto/src/storage.rs:715-717 | True exactly when everything is written |
| `Transfer.SnapshotChunk` | sailing-proto/src/storage.rs:526-541 | A chunk read is the blob's own bytes from its offset, as many as asked for or as are left |
| `Transfer.TransferIsFaithful` | sailing-proto/src/endpoint/snapshot.rs:1294-1311 | Under loss, duplication, reordering and stale delivery: never refused, at most one run, the watermark never falls, and at the total the staged bytes are the blob |
| `Transfer.NextKeeps` | sailing-proto/src/endpoint/snapshot.rs:1294-1311 | Each step keeps the invariant, and a delivered chunk raises the watermark to its end when that is further |
| `Transfer.TransferCanAlwaysFinish` | sailing-proto/src/endpoint/snapshot.rs:128-142 | Every run, whatever it lost, duplicated or delayed, can be continued with chunks of any one size to one that has staged the blob byte for byte |
| `Transfer.CanAdvance` | sailing-proto/src/endpoint/snapshot.rs:2047-2067 | From every unfinished state a short run of resend, acknowledgement and send brings the bytes missing strictly down |
| `Transfer.CursorCanFallBack` | sailing-proto/src/progress/mod.rs:157-167 | A run from the start in which the leader's own cursor, unlike the watermark, moves back |
| `Transfer.CursorFallsIff` | sailing-proto/src/endpoint/snapshot.rs:2047-2067 | It moves back exactly when an acknowledgement below it arrives, and the past-the-blob guard never fires |
| `StagingStore.Store.constructor` | sailing-proto/src/testkit.rs:740-757 | No staging |
| `StagingStore.Store.Begin` | sailing-proto/src/storage.rs:659-672 | A fresh staging, refused exactly when the length is over the cap or cannot be reserved |
| `StagingStore.Store.AcceptSnapshotChunk` | sailing-proto/src/testkit.rs:976-1008 | An older boundary disturbs nothing; another identity or length starts over; the same key adds the chunk; the answer is the watermark of what is staged |
| `StagingStore.Store.TakeStagedSnapshot` | sailing-proto/src/testkit.rs:1010-1022 | Hands over exactly a complete blob of this identity, made only of bytes staged under it since the last reset |
| `StagingStore.Store.Discard` | sailing-proto/src/testkit.rs:1024-1026 | Forgets the staging |
| `StagingStore.CompleteIsMadeOf` | sailing-proto/src/testkit.rs:1010-1022 | Every byte of a complete blob is that of the last chunk of this identity and length to write it |
| `LogStore.DurableIndexIsHonest` | sailing-proto/src/storage.rs:154-180 | Under any run of appends, truncations, compactions, restores, holds and flushes the reported frontier covers only visible entries that are on disk as visible now |
| `LogStore.StepKeeps` | sailing-proto/src/testkit.rs:103-250 | Every operation keeps the log contiguous and the frontier honest |
| `LogStore.AppendTerms` | sailing-proto/src/storage.rs:246-255 | An append keeps every term below it, shows its own at once, and answers the absent term beyond |
| `LogStore.CompactKeepsTerms` | sailing-proto/src/storage.rs:187-205 | Compaction changes no term from the new boundary up and answers the absent term below |
| `LogStore.ReadIsAlignedIff` | sailing-proto/src/storage.rs:207-216 | A read is gapless and complete, and starts at the range's start exactly when that index is retained |
| `LogStore.EveryAppendIsReportedOnce` | sailing-proto/src/storage.rs:322-325 | In every run each append submitted is polled once, dropped by a restore, or still to come |
| `LogStore.OrderlyRunsAreFifo` | sailing-proto/src/storage.rs:322-325 | In every run in which no append goes straight through while others are held, completions come in the order of submission |
| `LogStore.AnAppendCanOvertake` | sailing-proto/src/testkit.rs:195-202 | A run from the empty log in which one does and comes out first |
| `LogStore.ExactlyOneCompletion` | sailing-proto/src/storage.rs:322-325 | Each accepted append puts exactly one completion in and each poll takes one out; only a restore drops any |
| `LogStore.AppendIsFifoIff` | sailing-proto/src/testkit.rs:195-202 | Completions keep submission order exactly as long as no append goes straight through while others are held |
| `LogStore.FlushKeepsOutstanding` | sailing-proto/src/testkit.rs:119-124 | A flush completes every held append, in order |
| `LogHistory.TermsOfEveryRun` | sailing-proto/src/storage.rs:246-255 | After any run the term at an index is that of the last append covering it since the last restore, the restored term at the restored boundary until compacted past, and 0 below the compaction boundary and everywhere else; last index and boundary likewise from the operations alone |
| `LogHistory.ReadsOfEveryRun` | sailing-proto/src/storage.rs:207-216 | After any run a read returns exactly the entries of its range written last and not compacted |
| `LogHistory.FrontierOfEveryRun` | sailing-proto/src/storage.rs:154-180 | In every run the durable frontier covers an index exactly when an fsync reached it and no append or restore has rewritten it or anything below since |
| `LogHistory.RestoreInstalls` | sailing-proto/src/testkit.rs:221-235 | After a restore the last index is the one given, its term the one given and 0 elsewhere, every read is empty, and the only non-empty append accepted starts right after it |
| `LogHistory.CompactReports` | sailing-proto/src/testkit.rs:205-219 | A compaction is reported, with the boundary reached, exactly when it moved the boundary |
| `LogHistory.AlwaysHolds` | sailing-proto/src/testkit.rs:175-235 | Every reachable store holds what its operations wrote |
| `VecLog.VecLog.constructor` | sailing-proto/src/testkit.rs:59-80 | An empty log |
| `VecLog.VecLog.TermOf` | sailing-proto/src/testkit.rs:138-151 | Total over every index |
| `VecLog.VecLog.Entries` | sailing-proto/src/testkit.rs:153-173 | The part of the range in view |
| `VecLog.VecLog.NoteDurable` | sailing-proto/src/testkit.rs:105-109 | An fsync the visible log no longer reaches is ignored |
| `VecLog.VecLog.Show` | sailing-proto/src/testkit.rs:176-193 | Truncate, clamp the frontier, extend |
| `VecLog.VecLog.SubmitAppend` | sailing-proto/src/testkit.rs:175-203 | Visible at once; durable now or when flushed |
| `VecLog.VecLog.HoldAppends` | sailing-proto/src/testkit.rs:114-116 | Turns deferral on or off |
| `VecLog.VecLog.FlushHeldAppends` | sailing-proto/src/testkit.rs:119-124 | The deferred fsyncs land, oldest first |
| `VecLog.VecLog.CompactTo` | sailing-proto/src/testkit.rs:205-219 | Drops the prefix and keeps the boundary term |
| `VecLog.VecLog.RestoreTo` | sailing-proto/src/testkit.rs:221-235 | Re-baselines as `RestoreInstalls` says and drops every pending completion |
| `VecLog.VecLog.Poll` | sailing-proto/src/testkit.rs:237-239 | Takes the oldest completion |
| `Limbo.RegionIsComplete` | sailing-driver/src/shared.rs:251-281 | A region handed out is the log's own normal entries in (index, upper], all of them, whatever the store truncated or skipped |
| `Limbo.CheckedReadAnswersIff` | sailing-driver/src/shared.rs:209-215 | A checked failover read is its closure's answer exactly when the log holds no normal entry in limbo, and nothing otherwise |
| `Limbo.FaultIsFatalIff` | sailing-driver/src/shared.rs:251-292 | A faulty read is fatal exactly when there was a countable, non-empty, narrow enough region to read |
| `Limbo.PreflightIsRedundantIff` | sailing-driver/src/shared.rs:262-271 | The width preflight refuses nothing the cost scan would accept exactly when the cap is below `u64::MAX` |
| `Limbo.WholeRegionFallsBackIff` | sailing-driver/src/shared.rs:251-281 | Below that cap a region returned whole falls back exactly when its cost exceeds the cap |
| `Limbo.ContiguousNormalEntries` | sailing-driver/src/shared.rs:304-334 | The scan accepts exactly the gapless region from `lo` to `hi` within the saturating cost cap |
| `Limbo.ReadLimbo` | sailing-driver/src/shared.rs:251-292 | All its exits: ceiling, empty, too wide, cold, fault, scan |
| `StreamLinks.TableIsBounded` | sailing-compio/src/driver/stream.rs:721-875 | In every run each peer has at most one dialed connection and the table holds at most `max_conns` plus the peer book |
| `StreamLinks.WakeCoversEveryRetry` | sailing-compio/src/driver/stream.rs:779-837 | After a pass the wake is strictly ahead and no later than the retry time of every peer that had neither a binding nor a dial in flight |
| `StreamLinks.DialsFollowTheLaw` | sailing-compio/src/driver/stream.rs:817-829 | The k-th dial since a peer's history was cleared arms min(base*2^k, cap), jittered by less than a quarter |
| `StreamLinks.AlwaysOnSchedule` | sailing-compio/src/driver/stream.rs:85-94 | In every run the stored backoff is the law's next delay |
| `StreamLinks.PassCovers` | sailing-compio/src/driver/stream.rs:779-837 | One pass over the book covers each such peer, duplicates in the book included |
| `StreamLinks.Reconciler.constructor` | sailing-compio/src/driver/stream.rs:438-441 | The connection cap admits at least two connections a peer |
| `StreamLinks.Reconciler.HandleAccept` | sailing-compio/src/driver/stream.rs:721-752 | Refused at the cap or without a record layer |
| `StreamLinks.Reconciler.CloseConn` | sailing-compio/src/driver/stream.rs:917-920 | Removes the connection, decides nothing |
| `StreamLinks.Reconciler.SeeBound` | sailing-compio/src/driver/stream.rs:785-803 | A bound peer's history goes only once the binding has lasted |
| `StreamLinks.Reconciler.ArmAndDial` | sailing-compio/src/driver/stream.rs:817-875 | Backoff armed first, then the attempt, which may produce no connection |
| `StreamLinks.Reconciler.ReconcilePeerLinks` | sailing-compio/src/driver/stream.rs:779-837 | The pass over the book |
| `LinkOutcomes.DuePeersAreDialed` | sailing-compio/src/driver/stream.rs:779-875 | In every run a pass keeps every connection, dials an idle unbound peer that is due whenever the record layer gives it an id, and dials nobody bound or not due |
| `LinkOutcomes.HistoryGoesIff` | sailing-compio/src/driver/stream.rs:785-803 | In every run a pass forgets a peer's history exactly when it finds it bound and every pass for at least the base delay has |
| `LinkOutcomes.WakesForARetry` | sailing-compio/src/driver/stream.rs:779-837 | An armed wake is the retry time of some unbound peer |
| `LinkOutcomes.AcceptsIff` | sailing-compio/src/driver/stream.rs:721-752 | A connection is accepted exactly while there is room and its record layer can be built |
| `LinkOutcomes.QuicDialsIff` | sailing-compio/src/driver/quic.rs:834-866 | In every run of passes the QUIC reconciler dials exactly the unbound peers that are due and remembers a retry for exactly the unbound ones |
| `QuicLinks.DialsFollowTheLaw` | sailing-compio/src/driver/quic.rs:853-860 | The same law from the other stored value |
| `QuicLinks.WakeCoversEveryRetry` | sailing-compio/src/driver/quic.rs:843-865 | After a pass the wake is strictly ahead and no later than the retry time of every unbound peer of the book |
| `QuicLinks.Reconciler.constructor` | sailing-compio/src/driver/quic.rs:405-420 | No history |
| `QuicLinks.Reconciler.ConnectAndArm` | sailing-compio/src/driver/quic.rs:853-863 | One attempt and its schedule |
| `QuicLinks.Reconciler.ReconcilePeerLinks` | sailing-compio/src/driver/quic.rs:834-866 | The pass over the book |
| `Backoff.JitterIsBounded` | sailing-driver/src/clock.rs:98-110 | The jitter stays below a quarter of the delay |
| `Backoff.AlwaysLongerIff` | sailing-driver/src/clock.rs:98-110 | The next jittered wait is longer whatever the samples exactly when the next delay clears the largest jitter: always while uncapped, never at the cap |
| `Backoff.LawDoubles` | sailing-compio/src/driver/stream.rs:826-826 | The schedule is base, then doubled under the cap |
| `Backoff.NothingOverflows` | sailing-driver/src/config.rs:330-346 | For a validated config no intermediate of the doubling or the jitter overflows, nor the retry instant short of the clock's end |
| `Backlog.AlwaysCharged` | sailing-compio/src/driver/stream.rs:1147-1161 | Over every interleaving of run loop and writer the charge covers the bytes resident, is exact while the writer lives, stays within the limit and never underflows |
| `Backlog.NextCharged` | sailing-compio/src/bridge.rs:108-126 | Each send, take, finished or failed write and close keeps that |
| `Backlog.FramesGoOutInOrder` | sailing-compio/src/bridge.rs:108-126 | In every run the writer writes the frames taken on, each once, in order, skipping none |
| `Backlog.TakenOnIff` | sailing-compio/src/driver/stream.rs:1147-1161 | While the writer lives a frame is taken on exactly when it fits the limit beside what is resident, and else the connection closes |
| `Backlog.EndsIff` | sailing-compio/src/bridge.rs:108-126 | A connection ends exactly on a close or a frame over the limit, its writer also on a failed write, and only a finished write counts as written |
| `Inflights.Window.constructor` | sailing-proto/src/inflights.rs:17-24 | An empty window |
| `Inflights.Window.Add` | sailing-proto/src/inflights.rs:33-36 | Adds a message; adding while not full keeps the window bounded, adding in index order keeps it in order |
| `Inflights.Window.FreeLe` | sailing-proto/src/inflights.rs:39-47 | With indices in order, leaves exactly the messages above the acknowledgement |
| `Inflights.Window.FreeFirstOne` | sailing-proto/src/inflights.rs:55-59 | Drops the oldest |
| `Inflights.Window.Reset` | sailing-proto/src/inflights.rs:62-65 | Drops all |
| `Inflights.WindowIsBoundedAndExact` | sailing-proto/src/inflights.rs:28-65 | In every run of in-order sends while not full, acknowledgements, single frees and resets: the count is within its cap, a nonzero byte cap is overshot by less than the last message, and an acknowledgement leaves exactly what it does not reach |
| `Inflights.ReleasedIsAbove` | sailing-proto/src/inflights.rs:39-47 | Releasing from the front is releasing what is acknowledged |
| `Inflights.OvershootIsOneMessage` | sailing-proto/src/inflights.rs:28-36 | A nonzero byte cap is overshot by less than the last message |
| `Inflights.FullIff` | sailing-proto/src/inflights.rs:28-31 | The window is full exactly when the leader may send nothing more |
| `Quorums.CommittedIndex` | sailing-proto/src/quorum/mod.rs:95-121 | The result is the largest index a majority has acked: an index is at most it exactly when a majority acked that index |
| `Quorums.JointCommittedIndex` | sailing-proto/src/quorum/mod.rs:218-223 | An index is jointly committed exactly when both halves have a majority at it |
| `Quorums.MajorityVote` | sailing-proto/src/quorum/mod.rs:132-153 | Won exactly with a majority of grants; lost exactly when the missing votes could not make one |
| `Quorums.JointVote` | sailing-proto/src/quorum/mod.rs:229-240 | The same for both halves at once |
| `Quorums.MajoritiesMeet` | sailing-proto/src/quorum/mod.rs:82-90 | Majorities of voter sets one voter apart share a voter |
| `Membership.Apply` | sailing-proto/src/tracker/mod.rs:593-611 | The change loop, which `ApplyAllPlaces` characterises node by node, and the refusal of an empty voter set |
| `Membership.SimpleKeeps` | sailing-proto/src/tracker/mod.rs:466-494 | A simple change returns a well-formed configuration or refuses for a documented reason |
| `Membership.EnterKeeps` | sailing-proto/src/tracker/mod.rs:505-532 | Entering a joint configuration, likewise, with the old voters as its outgoing half |
| `Membership.LeaveKeeps` | sailing-proto/src/tracker/mod.rs:544-577 | Leaving succeeds exactly from a joint configuration, on every reachable one |
| `Membership.LeaveJointSucceedsIff` | sailing-proto/src/tracker/mod.rs:741-820 | On any tracker passing the changer's own check, leaving succeeds exactly when no staged learner is an incoming voter |
| `Membership.StagedIncomingLearnerIsStuck` | sailing-proto/src/tracker/mod.rs:741-820 | The check lets such a tracker through; the install check does not |
| `Membership.ValidIffInstallable` | sailing-proto/src/conf/mod.rs:162-188 | The install check accepts exactly the memberships whose tracker satisfies the changer's invariant and has a voter; every member starts unmatched, probed from just past the log |
| `Membership.LeavableIffValid` | sailing-proto/src/conf/mod.rs:172-182 | On a tracker passing the changer's check, leaving succeeds exactly when the install check accepts its membership |
| `Membership.RunStaysInstallable` | sailing-proto/src/tracker/mod.rs:240-275 | Every configuration a run of changes reaches from an installed one can be snapshotted and installed again |
| `Membership.ApplyAllKeeps` | sailing-proto/src/tracker/mod.rs:593-735 | Any change list keeps the tracker's sets and its progress map in step |
| `Membership.JointReachesDirectResult` | sailing-proto/src/tracker/mod.rs:505-577 | Entering joint with any change list and leaving ends with the voters and learners of applying it directly |
| `Roles.ApplyAllPlaces` | sailing-proto/src/tracker/mod.rs:593-735 | For every well-formed tracker and change list a node ends as a voter, learner, staged learner or nothing exactly as the last change naming it asks, and keeps its progress exactly if it stayed a member throughout |
| `Roles.SimpleSucceedsIff` | sailing-proto/src/tracker/mod.rs:466-494 | A simple change succeeds exactly when the voters the list asks for are not none and differ by at most one; each refusal exactly otherwise |
| `Roles.SimpleOutcome` | sailing-proto/src/tracker/mod.rs:466-494 | and then puts every node where the list asks |
| `Roles.EnterOutcome` | sailing-proto/src/tracker/mod.rs:505-532 | Entering joint succeeds exactly from a plain, non-empty configuration to a non-empty voter set, keeps the old voters as the outgoing half and puts every node where the list asks |
| `Roles.JointOutcome` | sailing-proto/src/tracker/mod.rs:505-577 | Entering and leaving puts every node where the list asks, drops everybody else's progress and keeps that of every old voter that is still a member |
| `Membership.RunQuorumsMeet` | sailing-proto/src/tracker/mod.rs:466-577 | Along every run of changes a quorum of one configuration meets every quorum of the next |
| `Membership.AtMostOneWinner` | sailing-proto/src/tracker/mod.rs:295-305 | Two candidates with no common voter cannot both win under one configuration or two adjacent ones |
| `Membership.CommittedIsElected` | sailing-proto/src/tracker/mod.rs:282-289 | Every election quorum of this configuration or the next holds a voter that acked each committed index |

## Left out

- The Raft endpoint itself (elections, replication, commit, leases, read modes), the wire codec,
  frames, coordinators and the multi-group host: the driver proofs use the abstract endpoint above.
- Sockets, TLS, QUIC, async runtimes, task cancellation and unwinding: steps and an oracle.
- Reading clocks: the instants, wall samples and lease answers are arguments.
- The best-effort events tail: dropped on full and read by nothing modelled.
- Status and leadership transfer commands are one immediate answer each; the end of the command
  stream, when every handle is gone, is a shutdown command.
- Which propose, read or transfer error a refusal maps to: one `Refused`.
- The read-context counter is unbounded: the code's 64-bit counter is taken not to run out.
- The in-flight window's and the backlog's byte sums are unbounded: they are taken not to wrap.
- Staging after its first refusal: a later refused call may leave the run list unmerged, and the
  follower has fail-stopped by then.
- `force_append` and the fault-injecting stores, serde and clap parsing, error texts, getters and
  configuration checks other than the redial bounds: easy members only.
- The split and merge lineage protocol.
- Budget.GuardsWithinCaps: assumes the lengths in flight at once do not sum past 2^64, because the
  counters wrap and the cap then fails.
- Transfer.TransferIsFaithful: the never-falling offset is the follower's watermark; the leader's
  cursor can fall, exactly as `CursorFallsIff` says.
- Transfer.TransferCanAlwaysFinish: that a finishing continuation exists, not that the network takes
  it.
- Shutdown.NeverStranded: that a step can be taken, not that a scheduler takes it.
- DriverObjects.Driver.RunFailoverServe: the log store's answer to the limbo read is an argument.
