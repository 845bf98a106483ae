# shunt control plane: a verified model

shunt routes object storage for placements (buckets) that are being moved between clusters. Its control
plane changes routing while proxies serve traffic, so every change that moves or closes writes is a
protocol: a hold that each proxy acknowledges, a drain, a commit. This project models that protocol and
what it stands on as step systems and as classes with their loops, and proves what every run keeps.

| module | models |
|---|---|
| `Admission`, `Derivation`, `ProxyGates` | a proxy's admission gates, the closures a directory asks for, acknowledgements |
| `GateKeeping` | the gates following installed and served directory versions |
| `Drain` | proxies, caches, heartbeats, the owner's drain and the commit, together |
| `Records`, `RecordWriters`, `Workers` | operation records as compare-and-swap cells, all their writers, worker sessions |
| `BarrierRun`, `BarrierSafety`, `BarrierLimits` | one barrier operation: owners, take-overs, cancellations, purges, read-only switches |
| `Scopes`, `Reservation` | scope reservation, locked in memory and optimistic in etcd |
| `Fleet` | the record of a proxy's processes |
| `Join` | a control node's join |
| `Listing` | the paged diff of two buckets |
| `Events` | the event ring and the directory's events |

`dafny verify dfyconfig.toml` checks the whole project.

## How the model is built

A protocol is a state, a set of steps and what each step makes of the state. Any enabled step may come
next, so a theorem over runs covers every interleaving; crashes, lost answers and wrong judgements of
liveness are steps. Where the source loops over mutable state, so does the model: those are classes and
methods, proved against functions, with `OthersWrite`, `ClientsWrite` and `OthersPublish` standing for
anything other writers may do between two of their steps.

Hypotheses that are stated as such:

- `BarrierRun.Guarded`: a record write lands or is refused as stale, except a purge's write that its deletes
  may begin, which may fail for the store's own reason; a run about to enter its deletes finds its record lost
  only where the record has ended or has that write; and a record is taken over only once no owner of it runs.
  A cancellation may still take a running owner for gone. `BarrierRun.Orderly` is the same without the
  exception, for `PurgeOrdering` alone. `BarrierLimits` shows what happens without each half. While an
  operation's hold is on a scope, only that operation and its cancellations write the scope.
- `Admission.Disciplined`: a granted token is released at most once.
- `Reservation.WellScoped`: only placement scopes name clusters, as both constructors of scopes have it.
- `Scopes.Continues`: in `Reservation`, an update keeps its record's scope and key and never un-ends it, as
  every writer in `Records` does.
- `Listing.Shrinking`: the source of a move only loses keys once the move is migrating.

## Where the code falls short of its comments

The model follows the code.

- A cancellation repeated on a record that is already canceled answers `200` when it finds no hold
  (`internal/control/barrier.go:449-455`, `539-553`), as does one that finds the record canceled under it
  (`489-493`). If the owner had committed and died, and the first cancellation stopped before it looked for
  the hold, the change is in force and the answer says it is not. `BarrierLimits.RepeatIsSoundExactly` gives
  the exact condition.
- A cancellation that ended the record takes a missing hold for a commit (`511-520`). A repeated
  cancellation may have released it in between; the record then says committed with nothing in force.
  `BarrierSafety.CorrectedMeansInForce` gives the exact condition.
- A run goes on after a record write that failed for a reason other than staleness
  (`internal/control/operation.go:494-499`), and enters its deletes without asking whether its record is still
  its own (`internal/control/ops.go:1524-1547`). A purge may then delete under a record that a cancellation has
  ended: `BarrierLimits.DeletesUnderACanceledRecord` is a run, `BarrierSafety.DeletesAreOrderedExactly` the exact
  condition. A dispatch write that failed is not yet that: the run's next write makes it good
  (`BarrierLimits.UnlandedDispatchMayBeMadeGood`), unless a cancellation comes between.
- A member that retired is counted out of the drain (`internal/control/barrier.go:257-259`). Its next process
  installs the cache whatever the previous one's marker says (`internal/member/cache.go:69-121`) and serves from
  it, stale, when it cannot register (`cmd/shunt/serve.go:485-488`), buckets that are ACTIVE in the cache
  included; `docs/design/distributed-correctness.md:338-339` says that a retired identity's cache cannot be used
  so. After the commit it may then admit requests of the old routing: `Drain.CountedOutAdmitsOldRouting` is a
  run, `EarlyStartAdmitsExactly` and `LateStartIsSafe` say for which versions.
- The trim of a record in etcd deletes its idempotency key without comparing what it names
  (`internal/cp/ops.go:516-526`). `Reservation.StaleTrimLosesAKey` is a run in which two records kept used one
  key, `TrimKeepsIndexExactly` the exact condition.
- With two owners of one record running at once, a change canceled and answered so can still take force:
  `BarrierLimits.CanceledTakesForceExactly` gives the exact condition, `CanceledThenInForce` a run.
- Once deletes may have begun the commit loop never ends the record on an error, so as not to strand the source
  hold (`internal/control/barrier.go:167-178`). A resumed run that cannot read the directory before its drain
  does end it (`132-135`): `BarrierLimits.PurgeEndsHeld` is a run. An operation of any kind may end with its
  scope held: `BarrierSafety.EndsHeldExactly` says when, and `HeldForGood` that no cancellation releases it.
  That a purge reaches its commit undrained with its hold on cannot happen in these runs.
- The final write of a barrier's state clears its dispatch mark unless the run began with it, in the write that
  sets its committed mark (`BarrierSafety.FinalWriteKeepsDispatchExactly`); what never goes back is the two
  together (`BarrierSafety.IrrevocableStays`).
- A close that names no barrier opens its gate and forgets at which version: `Admission.RefusesOlderExactly`
  says when a reopening refuses older requests, `CloseWithoutABarrierForgetsTheReopening` when not.
- The heartbeat's fast path takes a report with the same ids for a repeat (`internal/cp/fleet.go:120-123`).
  `Fleet.SkippingIsHarmlessExactly` says when it is one, `SameIdsAreNoRepeat` when not. The server accepts that
  input; shunt's own proxies do not send it, since a process reads what it reports of earlier ones once, as it
  starts (`internal/member/incarnation.go:112-146`).

## Model

| member | source | states |
|---|---|---|
| Drain.DrainSafety | internal/control/barrier.go:99-189 | In every run, with any proxies, stale heartbeats, restarts from a cache, retirements, installs published out of order, owners that crash and are resumed one at a time, and a cancellation that takes a running owner for gone at any point: once the commit has landed at a version, no member that was drained for it has, or would admit, work through the gate routed by an earlier version |
| Drain.NoCommitWithoutADrain | internal/control/barrier.go:127-150 | A commit that is written, by whichever owner of however many resumes, follows a drain that found every member not counted out drained for this hold |
| Drain.PassingIsDrained | internal/control/barrier.go:244-284 | A member for whom the drain finds no blocker has sent a heartbeat that proves it drained for this hold, and none of its earlier processes left anything that may still land |
| Drain.CountedOutLeftNothing | internal/control/barrier.go:244-284 | A member the drain counts out as retired has nothing left, out or without an outcome, of the process that retired or any before it |
| Drain.LateStartIsSafe | internal/control/barrier.go:244-284 | In every run and for every member, also one counted out or joined later: once a process of it has started at or past the hold, neither it nor any after it has, leaves or admits work routed before the version that ended the hold; none while it has not ended |
| Drain.EarlyStartAdmitsExactly | internal/member/cache.go:69-121 | A process that starts from version `d` admits a request routed before the hold ended if and only if `d` is before the hold and leaves the gate open |
| Drain.CountedOutIsSafe | internal/control/barrier.go:257-259 | So a member counted out as retired has, leaves and admits nothing routed before the hold ended if its cache was at or past the hold as it retired |
| Drain.CountedOutAdmitsOldRouting | internal/control/barrier.go:257-259 | A run in which it was not: the member retires, its next process starts from the cache unheard of, the drain counts the member out, and after the commit the process admits a request routed before the hold |
| Drain.ReadingProves | internal/control/barrier.go:300-324 | If the heartbeat being assembled is one the drain would pass, then as its gate is read the process has nothing out or unknown of the guarded routing, its gate is closed, and its cache and installed version are at the hold or past it |
| Drain.StepKeepsInv | internal/control/barrier.go:99-189 | Every step of the whole system (proxies, deliveries, joins, retirements, the owner, other writers) keeps the drain invariant, unless a cancellation ended the record before its hold was written, after which nothing commits |
| Drain.StepKeepsSecure | internal/proxy/gates.go:26-66 | No step of a proxy (request, release, install, publish, serve, persist, restart, heartbeat) reopens a gate a durable hold has closed before the barrier ends |
| Drain.SnapshotCloses | internal/admission/admission.go:358-400 | Any directory version carrying the barrier, on the placement or on one of its clusters, closes that placement's gate |
| Drain.AcknowledgementAloneProvesNothing | internal/control/barrier.go:311-316 | There is a run in which a heartbeat says closed with nothing out while a write routed before the hold is out: only the check of the durable version blocks it |
| Admission.CountersMatchHistory | internal/admission/admission.go:147-180 | Over any sequence of calls, a gate's in-flight count is tokens granted minus tokens released, and its uncertain count the releases whose outcome was never learned |
| Admission.UncertainIsTheSum | internal/admission/admission.go:167-180 | The process-wide uncertain count is the sum over all gates, after any calls |
| Admission.MarkMatchesHistory | internal/admission/admission.go:191-243 | After any calls the reopen mark is the greatest version at which either gate of the placement reopened, and refuses every older request |
| Admission.RefusesOlderExactly | internal/admission/admission.go:147-243 | A reopening refuses every older request for good, over every later history, if and only if it was made at a version no older than any named before it, or the placement had already reopened at one |
| Admission.EmptyCloseRefusesOlderExactly | internal/admission/admission.go:183-188 | So a gate opened by a close that names no barrier does if and only if the placement's earlier reopenings did |
| Admission.CloseWithoutABarrierForgetsTheReopening | internal/admission/admission.go:183-188 | The history that shows it: a close that names no barrier opens the gate and leaves no reopen mark, and an older version is admitted |
| Admission.StickyNeverOpens | internal/admission/admission.go:214-243 | A sticky apply never opens a closed gate, whatever it is given |
| Admission.ClosedAndDrainedIsStable | internal/admission/admission.go:147-211 | A gate closed with nothing out has nothing out, and the same uncertain count, until it is reopened |
| Derivation.Scan | internal/admission/admission.go:358-400 | The in-place scan of a snapshot computes exactly the specified closures, cluster lists and covered placements |
| Derivation.ClosuresAreExact | internal/admission/admission.go:358-400 | A placement's two gates are closed by its own barrier of that kind, else by the first of its clusters that holds one, else by none |
| Derivation.UnlistedIsOpen | internal/admission/admission.go:358-400 | A placement the snapshot does not name is closed by nothing |
| Derivation.CoveredIsExact | internal/admission/admission.go:358-400 | The placements listed under a cluster barrier are exactly those with a bucket on a cluster holding it |
| Derivation.ClosedForMeaning | internal/admission/admission.go:318-400 | What closes a gate, said of the directory alone |
| ProxyGates.Gates.Enter | internal/admission/admission.go:147-163 | A request is admitted exactly when the gate of its kind is open and its version is not before the reopening; the gate's state is the call replayed |
| ProxyGates.Gates.Release | internal/admission/admission.go:167-180 | A release returns one token and records an outcome not learned |
| ProxyGates.Gates.Apply | internal/admission/admission.go:214-243 | The two loops over listed and unlisted placements do exactly one apply of the closures |
| ProxyGates.Gates.Close | internal/admission/admission.go:183-188 | Closes one gate, and no other |
| ProxyGates.Gates.Open | internal/admission/admission.go:191-199 | Opens one gate at a version, and no other |
| ProxyGates.Gates.DerivationOf | internal/admission/admission.go:336-356 | The cached derivation is always a fresh one's value |
| ProxyGates.Gates.Acks | internal/admission/admission.go:402-426 | The acknowledgements built gate by gate are the specified ones |
| ProxyGates.Gates.Inflight | internal/admission/admission.go:278-293 | The total in flight is the sum over gates |
| ProxyGates.ClusterAckIsSound | internal/admission/admission.go:402-426 | Gates read one at a time while calls go on: an acknowledgement that says closed, nothing out, nothing unknown is true of every covered placement at the end of the read, if none reopened after it was read |
| ProxyGates.ClusterAckCoversItsPlacements | internal/admission/admission.go:358-426 | Every placement with a bucket on the cluster is among those its acknowledgement reads, also one closed first by its own barrier |
| ProxyGates.ClusterAckMeansDrained | internal/admission/admission.go:358-426 | The two together: every placement with a bucket on the cluster is closed, with nothing out and nothing unknown, at the end of a read whose acknowledgement says so, if none of those read reopened after |
| GateKeeping.GateKeeper.Installed | internal/proxy/gates.go:26-31 | An install applies what the installed and served versions close together, at the newer of the two, sticky while requests are behind |
| GateKeeping.GateKeeper.Served | internal/proxy/gates.go:34-39 | So does a change of the version served |
| GateKeeping.GateKeeper.MergeIn | internal/proxy/gates.go:41-66 | A version's closures are added, and those already gathered keep their barriers |
| Records.EarlierOwnersAreFenced | internal/control/operation.go:457-500 | Once a record stands at an owner term, no tracker of an earlier term ever writes it, and no two take-overs win one term |
| Records.TermsNeverFall | internal/control/barrier.go:608-697 | Owner terms never fall, in whatever order writers come |
| Records.EndsArePermanent | internal/control/barrier.go:557-634 | A terminal record stays terminal under every writer; only the correction of a late cancellation writes it again, and its verdict stands |
| Records.NoSessionIsLost | internal/control/operation.go:464-487 | The stored worker session is always the one the last successful heartbeat wrote |
| Records.NoCancelRequestIsLost | internal/control/join.go:515-556 | A request to cancel a join, once stored, is never removed or replaced |
| Records.RequestsNeverChange | internal/control/operation.go:457-500 | No writer changes what the operation is |
| RecordWriters.Tracker.Put | internal/control/operation.go:457-500 | Through every retry, over whatever others write meanwhile, a put lands as one legal entry of this owner and term with the other writers' fields kept, or leaves the tracker lost, or failed for the store's own reason; a failed one that landed all the same is that entry too, one sequence past the copy |
| RecordWriters.Tracker.Refetch | internal/control/operation.go:471-487 | A stale write is retried if and only if the record can be read and is an unfinished one of the same owner and term; the copy then takes its sequence, session and request, and else is left as it was |
| RecordWriters.Tracker.SetPhase | internal/control/operation.go:510-518 | Nothing is written when the copy has the phase already; else the copy with its phase is on the record as an entry of this owner, unless the tracker is lost or the store failed |
| RecordWriters.Tracker.SetBarrier | internal/control/operation.go:357-367 | So is a barrier's state |
| RecordWriters.Tracker.Finish | internal/control/operation.go:545-594 | The end a run writes is one legal entry of this owner, after which only corrections are written; or the run was lost, or the store failed |
| RecordWriters.Tracker.Check | internal/control/operation.go:391-413 | A run goes on exactly while its tracker is not lost |
| RecordWriters.UpdateRecord | internal/control/barrier.go:608-634 | A cancellation, take-over, cancel request or mover end is written only onto the unfinished record it was decided on, as its edit says; a record that ended first is answered as it is |
| RecordWriters.ApplyWorker | internal/control/worker.go:117-145 | A heartbeat, built anew from each reading of the record, is answered and written as the session rules say of the record it replaced |
| RecordWriters.CorrectCommitted | internal/control/barrier.go:557-583 | A correction leaves the record failed with its effect committed, whoever writes meanwhile |
| RecordWriters.OrphanFrom | internal/control/operation.go:1135-1248 | A sweep from a copy that may be behind orphans the record as that copy stood, or writes nothing |
| Workers.WritesAreFenced | internal/control/worker.go:256-313 | A change raises the session's sequence, never touches a completed session or an ended record, and over an expired one is an attested resolution |
| Workers.SequencesRise | internal/control/worker.go:256-313 | Over any heartbeats, resolutions and clock readings the sequence never falls and rises with every change |
| Workers.CompletionIsFinal | internal/control/worker.go:256-313 | A completed session and its attestation never change |
| Workers.RepeatedCompletionAnswersTheSame | internal/control/worker.go:256-324 | A completing heartbeat repeated at any later time writes nothing and is answered as it was |
| Workers.ResolutionCloses | internal/control/worker.go:159-240 | An operator's resolution is taken exactly when the session expired, is unresolved or never enrolled in time; it closes the session, and saying it again changes nothing |
| BarrierRun.WritesFollowTheirRules | internal/control/barrier.go:99-189 | Every record write of the barrier system is one the record's rules allow its writer |
| BarrierSafety.CanceledMeansNever | internal/control/barrier.go:438-525 | A cancellation that ended the record and is answered as canceled is final: at the answer and ever after the change is not in force, also where the owner was wrongly judged gone or a purge's dispatch write failed |
| BarrierSafety.CorrectedMeansInForce | internal/control/barrier.go:507-583 | A cancellation that ended the record and is refused leaves it failed with effect committed for good; the change is then in force if and only if no repeated cancellation released the hold first |
| BarrierSafety.CanceledBeforeCommitMeansNever | internal/control/barrier.go:403-428 | A record a cancellation ended outside its commit phase never has its change in force, whoever answers |
| BarrierSafety.PurgeOrdering | internal/control/ops.go:1496-1572 | With every write landing or refused as stale: when a source object is deleted, the source is held, drained and diffed empty since that hold, and the record says deletes may have begun; from then on no cancellation can end the record |
| BarrierSafety.DeletesAreOrderedExactly | internal/control/ops.go:1524-1547 | With the dispatch write allowed to fail, each delete is ordered so if and only if no cancellation has ended the record; from an ordered one on none can, and one that is not follows a dispatch write of its run that did not land |
| BarrierSafety.FinalWriteKeepsDispatchExactly | internal/control/barrier.go:184-185 | The final write of a barrier's state sets its committed mark and keeps the dispatch mark if and only if the run began with it |
| BarrierSafety.CancelRestores | internal/control/barrier.go:371-392 | At the answer of a cancellation the hold is off and the read-only switch is as it stood before the operation, across crashes and resumes |
| BarrierSafety.EndsHeldExactly | internal/control/barrier.go:113-183 | For every kind of operation and in every run: a step other than a cancellation ends a live record and leaves its hold on the scope if and only if it is a run's error, with the hold there, before it comes to write the hold (a resumed run), as it writes it, as it looks for it before the drain, or at its commit before deletes may have begun; or its hold lands and the answer is lost |
| BarrierSafety.HeldForGood | internal/control/barrier.go:438-470 | A record that ended so keeps its hold for good: no later step releases it, and every cancellation is refused |
| BarrierSafety.ReleaseIsExact | internal/control/readonly.go:69-101 | A release writes back exactly the switch recorded with the intent if and only if that switch rejected nothing while off |
| BarrierSafety.StepKeepsInv | internal/control/barrier.go:99-189 | Every step of owners, take-overs, sweeps and cancellations keeps the barrier invariant |
| BarrierLimits.CanceledTakesForceExactly | internal/control/barrier.go:438-525 | For a canceled record, in any state: its change can still take force if and only if some run is past its last record write before the commit and the hold is on the scope or another run is about to write it |
| BarrierLimits.HoldComesBackExactly | internal/control/barrier.go:113-126 | For an ended record without a hold: a hold can come back if and only if a run of it is about to write one; otherwise the switch stays as it is |
| BarrierLimits.RepeatIsSoundExactly | internal/control/barrier.go:449-455 | A repeated cancellation that answers canceled can be relied on, over all guarded runs, if and only if the record was not ended in its commit phase |
| BarrierLimits.RepeatAfterACommit | internal/control/barrier.go:539-553 | The run that shows it: the change is in force, and a repeated cancellation answers canceled |
| BarrierLimits.CorrectionWithoutACommit | internal/control/barrier.go:507-520 | A run in which a record is corrected to committed though nothing is in force, a repeated cancellation having released the hold |
| BarrierLimits.CanceledThenInForce | internal/control/barrier.go:639-697 | A run with two owners of one record in which a cancellation is answered as canceled and the change then takes force |
| BarrierLimits.DeletesUnderACanceledRecord | internal/control/ops.go:1524-1547 | A run from a new purge whose dispatch write does not land, in which a cancellation that takes the owner for gone ends the record and the owner goes on to delete |
| BarrierLimits.UnlandedDispatchMayBeMadeGood | internal/control/ops.go:1524-1547 | A run from a new purge whose dispatch write does not land and the next write does: its deletes are ordered as they should be |
| BarrierLimits.PurgeEndsHeld | internal/control/barrier.go:132-135 | A run from a new purge that deletes, crashes, is taken over and ends its record with the source held, the new owner's first read of the directory having failed |
| BarrierLimits.RunsDrainInPhase | internal/control/barrier.go:136-144 | Every run drains in its drain phase, whatever its writes do |
| Scopes.Conflict | internal/control/scope.go:167-185 | Refuses a scope if and only if some unfinished record's scope clashes with it, and names one that does |
| Scopes.ClashIsSymmetric | internal/control/scope.go:54-57 | Clashing is mutual |
| Scopes.MemOperations.Create | internal/control/scope.go:202-260 | Takes a record exactly when its id and key are new, capacity, lineage and generation allow it and no unfinished scope clashes; a reused key, and only one, adds nothing and answers the earlier record; refusals change nothing; the index and the reservations stay exact |
| Scopes.MemOperations.Update | internal/control/scope.go:263-283 | Replaces the record at the sequence before and trims; the index stays exact and reservations apart when the update continues its record |
| Scopes.MemOperations.Trim | internal/control/scope.go:286-306 | The in-place loop drops exactly the first droppable records past the limit, with their keys, and ends at the limit or with none droppable |
| Scopes.TrimKeeps | internal/control/scope.go:286-306 | What trim keeps is in the same order, and only droppable records go |
| Scopes.TrimIsEnough | internal/control/scope.go:286-306 | Trim drops as many as asked, or all that may be dropped |
| Scopes.TrimDropsTheOldest | internal/control/scope.go:286-306 | Of two droppable records the older goes first |
| Reservation.ReservationsNeverClash | internal/cp/ops.go:217-450 | Under every interleaving of creates, ends, releases, reaps and trims, no two unfinished operations own scopes that clash |
| Reservation.CreatesAreLockedCreates | internal/cp/ops.go:217-339 | A create whose transaction goes through is one the locked store would take, with the records as they stood at that instant: no unfinished scope clashes and, while no trim was late, no record kept used its idempotency key |
| Reservation.RefusalsAreTrue | internal/cp/ops.go:344-405 | A create refused for an owner names an operation that is unfinished as it is read and clashes with the create |
| Reservation.KeysAreUsedOnce | internal/cp/ops.go:229-233 | Under every interleaving of creates, ends, reaps and trims, no two records kept used one idempotency key, so long as no trim deletes a key that has come to name another record |
| Reservation.TrimKeepsIndexExactly | internal/cp/ops.go:497-526 | Deleting a key keeps every record kept named by its key if and only if no record kept used that key; it does when the key names the record the trim dropped |
| Reservation.LostKeyIsTakenAgain | internal/cp/ops.go:217-245 | A record kept whose key was deleted is no obstacle: the next operation with that key is created beside it |
| Reservation.StaleTrimLosesAKey | internal/cp/ops.go:519-526 | The run that shows it: a key is used again after its first record was trimmed, another node's late trim of that record deletes it, and a third operation is created with it |
| Reservation.StepKeepsInv | internal/cp/ops.go:217-492 | Every step keeps the reservation invariant |
| Fleet.EvidenceIsNeverLost | internal/cp/fleet.go:145-211 | An incarnation current and active, or unresolved, still is one of the two at any later time, unless a clean retirement of it, its own or as the next process reports it, or an operator's resolution came between |
| Fleet.EditKeepsEvidence | internal/cp/fleet.go:341-446 | The same of one successful heartbeat, retirement, retire request or resolution |
| Fleet.UnresolvedIsBounded | internal/cp/fleet.go:284-290 | At most eight incarnations are ever unresolved |
| Fleet.ForgottenLeavesNothing | internal/cp/fleet.go:497-546 | A proxy is forgotten only once no incarnation of it is current-active or unresolved |
| Fleet.BeatRecordsPrevious | internal/cp/fleet.go:186-205 | Once a heartbeat is taken, every earlier process it reported as unclean is on the record or was proved ended |
| Fleet.SkippingIsHarmlessExactly | internal/cp/fleet.go:120-134 | The fast path skips a heartbeat of the process on record without loss if and only if each earlier process it reports as clean is not unresolved and every other one is known or was proved ended |
| Fleet.RepeatedBeatChangesNothingExactly | internal/cp/fleet.go:120-134 | A heartbeat repeated on the record it left changes nothing, unless it reports as clean the process it replaced and that process was also unresolved |
| Fleet.SameIdsAreNoRepeat | internal/cp/fleet.go:122-123 | Two heartbeats the handler takes, with the same ids, which is what the fast path compares: the second would discharge a process and is skipped |
| Fleet.MemberRecord.TakeHeartbeat | internal/cp/fleet.go:150-208 | The record change of a heartbeat, two loops and a replacement, is the specified one or refused |
| Fleet.MemberRecord.TakeRetirement | internal/cp/fleet.go:343-380 | So is a retirement's |
| Fleet.MemberRecord.TakeResolution | internal/cp/fleet.go:408-445 | So is a resolution's |
| Fleet.MemberStore.Change | internal/cp/fleet.go:295-338 | Whatever others write between its reads and writes, a change that succeeds is one legal edit of the record it replaced |
| Fleet.MemberStore.ForgetMember | internal/cp/fleet.go:497-546 | With the record and the lease read anew on each attempt, a forget that succeeds deletes a record with no evidence left and leaves the list of what it proved ended; one refused met a lease or evidence |
| Join.AddressIsOneMembers | internal/control/join.go:599-652 | However answers are lost, record writes fail and the join is resumed, its address never belongs to two members |
| Join.RemovesOnlyItsOwn | internal/control/join.go:464-507 | The only member a join sends a removal for is one its own add made and that the list read that round has as a learner; promotions and removals in flight are only of members its add made |
| Join.OthersAreLeftAlone | internal/control/join.go:350-422 | Members the join did not add are left as they are |
| Join.StepKeepsInv | internal/control/join.go:350-507 | Every step keeps the join invariant |
| Listing.Lister.NextKey | internal/control/backend.go:255-274 | Over any pages, the next kept key of the listing, counting objects and bytes passed; or the end |
| Listing.MissingOn | internal/control/backend.go:281-315 | What the walk asks HEADs about is the diff of the two listings in order, all of it unless the limit is reached; what it returns is what they confirmed, with the source's objects and bytes as far as it was walked, which with those left are the whole |
| Listing.Buckets.StillMissing | internal/control/backend.go:322-328 | While clients write, a key confirmed missing was at one instant on the source and absent from the primary; one not confirmed was at some instant on the primary or off the source |
| Listing.QuietDiffIsExact | internal/control/backend.go:281-315 | With nobody writing, the answer is exactly the first `limit` kept source keys the primary lacks; an empty one means the kept source is a subset |
| Listing.EmptyMeansCovered | internal/control/backend.go:281-315 | While clients write, an empty answer means each listed source key was listed on the primary, or at some instant was on the primary or off the source |
| Listing.KeptIsSorted | internal/control/backend.go:255-274 | A sorted listing, cut and filtered in any way, gives its keys in order |
| Listing.AbsentIsExact | internal/control/backend.go:295-313 | The diff holds exactly the keys of one listing that are not in the other |
| Events.Broker.Publish | internal/control/events.go:96-114 | An event is appended to the log and the ring keeps its last ones; each stream is handed it, or dropped for being a whole buffer behind |
| Events.Broker.Subscribe | internal/control/events.go:119-153 | A stream that names an event the ring covers is replayed exactly the log after it; any other is told to reload, and only those |
| Events.Broker.Take | internal/control/events.go:119-153 | A stream takes the log from its start in order, with no gap or repeat, also after it was dropped |
| Events.ReplayThenLive | internal/control/events.go:96-153 | Replay, then what is taken and waiting, are the log after the event named |
| Events.Broker.Directory | internal/control/events.go:165-210 | The events published, folded over the previous directory by a client, give the new one, each of the new version and the version last; a first or stale snapshot publishes nothing |
| Events.ChangesOf | internal/control/events.go:176-207 | One event for each record that differs, and no other |
| Events.RetainsOneMore | internal/control/events.go:104-106 | Writing one slot keeps every other event the ring still covers |

## Left out

- `runBarrier`, `cancelOperation`, the etcd store's `Create` and `runJoin` are step systems and not methods: what is proved of them is over the interleaving of their steps.
- RecordWriters.Tracker.Finish: the effect a run ends with is given to it; `settleEffect`'s comparison of directory versions is not modelled.
- Drain.DrainSafety: a lab's own proxy is not in the system, nor a stale proxy's refusal of writes on moving buckets, which would only shut more out.
- BarrierSafety.PurgeOrdering: deletes are steps and the diff a fact of the drain; the listing walk itself is in `Listing`, and `emptyRange` and multipart uploads are not modelled.
- BarrierSafety.CancelRestores: another operation switching the same scope off between a record's end and its release is not in the system.
- Scopes.MemOperations.Create: which of several clashing records is named is left open, as the source's map order leaves it.
- Scopes.Conflict: generations and lineage are compared in `CheckScope`; the directory snapshot is an identity and a map of generations.
- Reservation.RefusalsAreTrue: an owner read from a node's cached index while etcd is unreachable is not modelled.
- Reservation.CreatesAreLockedCreates: capacity, which concurrent creates may pass by one each, is not modelled; that a record is trimmed only past its key's retention is time, which is not modelled.
- Fleet.EvidenceIsNeverLost: leases and liveness keys are given facts; which ids a forget proved ended is given to the next heartbeat.
- Fleet.SkippingIsHarmlessExactly: which record and ids a node has cached is given; the compare on the record's revision is what makes it the stored one.
- Join.RemovesOnlyItsOwn: a promotion in flight may land between the list and the removal; how long the join waits for it is time, which is not modelled.
- Join.AddressIsOneMembers: that a peer URL is spelled one way is a given map from spelling to address.
- Events.Broker.Directory: keys are taken in any order, where the source sorts them, and two snapshots are not installed at once.
- Events.Broker.Subscribe: an event id is given parsed; the 64-bit sequence does not wrap.
- ProxyGates.Gates.Acks: acknowledgements are listed by placement and cluster as found, not sorted by scope.
- HTTP routes, decoding, logging, metrics, the web UI and the CLI are not part of this model.
- `directory.Apply`, routing ratios, prefix rules, key hashing and the proxy data path are not part of this model.
- etcd, Raft, leases and S3 are atomic transactions, linearizable reads and lost answers; signatures, digests and encryption are not part of this model.
- Cutover's quiet window, settle times, health sampling and telemetry are not part of this model.
