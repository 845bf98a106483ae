/** Operation records (internal/control/operation.go, barrier.go, worker.go, join.go).

A record is a compare-and-swap cell: a write is taken only over the sequence it was read at. Many
write it: the owner running the operation, a node taking it over, a worker's heartbeats, a
cancellation, a request to cancel a join, the sweep that orphans a lost owner's records, and the
correction of a cancellation that came too late.

Each writer's rule says what it may make of the record it replaces (`Follows`). A log is legal when
every entry follows the one before. What holds of every legal log is proved once: fencing by owner
term, the permanence of an end, and that no writer loses another's field. `RecordCell` and the
methods over it are the writers as they run, with any legal writes of others landing between their
steps; each is proved to add only entries its rule allows. */
module Records {
  import opened Basics
  import W = Workers

  datatype Kind = Ramp | Migrate | PlacementReadOnly | ClusterReadOnly | Cutover | PurgeSource | Mover | ControlJoin
      | ControlRemove | Short

  datatype Status = Pending | Running | Blocked | Succeeded | Failed | Cancelled

  datatype Effect = NoEffect | Committed | Uncertain

  datatype Phase = NoPhase | Queued | Precondition | Hold | Drain | Commit | Step | Settle | Window | Diff | Purge
      | Moving | Done

  /** A scope's read-only switch. */
  datatype Switch = Switch(readOnly: bool, reject: bool)

  /** The barrier as the record has it: the version that wrote its hold (0 before it is written),
      whether its change is committed, whether destructive work may have begun, and the switch a
      read-only change replaces. */
  datatype BarrierState = BarrierState(hold: int, committed: bool, dispatchStarted: bool, prior: Option<Switch>)

  /** What a record keeps of its request, for a mover. */
  datatype Request = Request(external: bool, session: string, identity: string, generation: Option<int>, created: int)

  datatype Operation = Operation(
    kind: Kind, request: Request, sequence: int, node: string, term: int, status: Status, effect: Effect, phase: Phase,
    ownerLost: bool,               // its one blocker is owner_lost
    barrier: Option<BarrierState>,
    worker: Option<W.Session>,
    cancel: Option<string>         // a cancellation asked of a join, by whom
  ) {
    predicate Terminal() {
      status == Succeeded || status == Failed || status == Cancelled
    }
  }

  function MoverOf(op: Operation): W.Mover {
    W.Mover(op.kind == Mover, op.request.external, op.request.session, op.request.identity, op.request.generation,
            op.request.created, op.Terminal(), op.worker)
  }

  predicate Resumable(kind: Kind) {
    match kind
    case Ramp | Migrate | PlacementReadOnly | ClusterReadOnly | Cutover | PurgeSource => true
    case _ => false
  }

  /** A record whose owner is gone is resumed rather than failed. */
  predicate CarriesOn(op: Operation) {
    (Resumable(op.kind) && op.barrier.Some?) || op.kind == ControlJoin || op.kind == ControlRemove
  }

  /** notCancellable: whether an unfinished operation can be canceled now. */
  predicate Cancellable(op: Operation, ownerGone: bool) {
    if op.kind == ControlJoin then true
    else if !Resumable(op.kind) then false
    else if op.barrier.None? then op.phase in {NoPhase, Queued, Precondition, Diff}
    else
      && !op.barrier.value.committed
      && !op.barrier.value.dispatchStarted
      && (op.barrier.value.hold != 0 || ownerGone)
      && (op.phase != Commit || ownerGone)
  }

  predicate BeforeFirstWrite(op: Operation) {
    op.barrier.None? && op.phase in {Queued, Precondition, Window, Diff}
  }

  /** orphan: a record whose owner stopped running it. */
  function Orphaned(op: Operation): Operation {
    var next := op.(sequence := op.sequence + 1);
    if CarriesOn(op) then next.(status := Blocked, ownerLost := true)
    else
      next.(effect := if op.effect != NoEffect then op.effect
                      else if op.status == Pending || BeforeFirstWrite(op) then NoEffect else Uncertain,
            status := Failed, phase := Done, ownerLost := false)
  }

  // ---------------------------------------------------------------------------------------------
  // The writers' rules.

  datatype Writer =
    | Create
    | Owner(node: string, term: int)                    // tracker.put
    | TakeOver(taker: string)                              // resumeOperation, ResumeOwn
    | Heartbeat(req: W.Heartbeat, actor: string, now: int, ttl: int) // applyWorker
    | AskCancel(who: string, seizer: Option<string>)     // cancelJoinRequest, taking over a lost owner's
    | Cancel                                            // cancelOperation
    | EndMover                                          // resolveWorker, of an owner that is gone
    | Orphan                                            // Sweep, FailOrphans, reap
    | Correct                                           // correctCommitted

  function Taken(op: Operation, node: string): Operation {
    op.(sequence := op.sequence + 1, node := node, term := op.term + 1, status := Running, ownerLost := false)
  }

  /** Whether `next` is what writer `w` may make of `prev`. */
  ghost predicate Follows(prev: Operation, next: Operation, w: Writer) {
    && next.sequence == prev.sequence + 1
    && (w.Correct? || !prev.Terminal())
    && match w
       case Create => false
       case Owner(node, term) =>
         && prev.node == node == next.node && prev.term == term == next.term
         && next.kind == prev.kind && next.request == prev.request
         && next.worker == prev.worker && next.cancel == prev.cancel
       case TakeOver(taker) => next == Taken(prev, taker)
       case Heartbeat(req, actor, now, ttl) =>
         var answer := W.NextWorker(MoverOf(prev), req, actor, now, ttl);
         answer.Written? && next == prev.(sequence := next.sequence, worker := Some(answer.worker))
       case AskCancel(who, seizer) =>
         var asked := (if seizer.Some? then Taken(prev, seizer.value) else prev.(sequence := next.sequence));
         next == asked.(cancel := if prev.cancel.Some? then prev.cancel else Some(who))
       case Cancel =>
         next == prev.(sequence := next.sequence, status := Cancelled, effect := NoEffect, phase := Done,
           ownerLost := false)
       case EndMover => next == prev.(sequence := next.sequence, status := Failed, phase := Done, ownerLost := false)
       case Orphan => next == Orphaned(prev)
       case Correct =>
         && prev.Terminal()
         && next == prev.(sequence := next.sequence, status := Failed, effect := Committed,
                          barrier := if prev.barrier.Some? then Some(prev.barrier.value.(committed := true)) else None)
  }

  datatype Entry = Entry(op: Operation, writer: Writer)

  ghost predicate FollowsAt(log: seq<Entry>, i: nat)
    requires 0 < i < |log|
  {
    Follows(log[i - 1].op, log[i].op, log[i].writer)
  }

  ghost predicate Legal(log: seq<Entry>) {
    && log != []
    && log[0].writer.Create? && !log[0].op.Terminal()
    && (forall i | 0 <= i < |log| :: log[i].op.sequence == i + 1)
    && (forall i | 0 < i < |log| :: FollowsAt(log, i))
  }

  function Stored(log: seq<Entry>): Operation
    requires log != []
  {
    log[|log| - 1].op
  }

  lemma LegalGrows(log: seq<Entry>, e: Entry)
    requires Legal(log) && Follows(Stored(log), e.op, e.writer)
    ensures Legal(log + [e])
  {
    var more := log + [e];
    forall i | 0 < i < |more| ensures FollowsAt(more, i) {
      if i < |log| {
        assert FollowsAt(log, i);
      }
    }
  }

  // ---------------------------------------------------------------------------------------------
  // What holds of every record, whatever the order its writers came in.

  /** Owner terms never fall. */
  lemma {:induction false} TermsNeverFall(log: seq<Entry>, i: nat, j: nat)
    requires Legal(log) && i <= j < |log|
    ensures log[i].op.term <= log[j].op.term
    decreases j
  {
    if i < j {
      TermsNeverFall(log, i, j - 1);
      assert FollowsAt(log, j);
    }
  }

  predicate TakesOver(e: Entry) {
    e.writer.TakeOver? || (e.writer.AskCancel? && e.writer.seizer.Some?)
  }

  /** Fencing. Once the record stands at a term, no tracker of an earlier term writes it again; and
      no two take-overs win the same term. */
  lemma EarlierOwnersAreFenced(log: seq<Entry>, i: nat, j: nat)
    requires Legal(log) && i < j < |log|
    ensures log[j].writer.Owner? ==> log[i].op.term <= log[j].writer.term
    ensures TakesOver(log[i]) && TakesOver(log[j]) ==> log[i].op.term < log[j].op.term
  {
    TermsNeverFall(log, i, j - 1);
    assert FollowsAt(log, j);
  }

  /** An end is permanent: a terminal record stays terminal, and only the correction of a late
      cancellation changes how it ended. */
  lemma {:induction false} EndsArePermanent(log: seq<Entry>, i: nat, j: nat)
    requires Legal(log) && i <= j < |log| && log[i].op.Terminal()
    ensures log[j].op.Terminal()
    ensures log[j].op.status == log[i].op.status || (log[j].op.status == Failed && log[j].op.effect == Committed)
    ensures (forall k | i < k <= j :: log[k].writer.Correct?)
    ensures log[i].op.status == Failed && log[i].op.effect == Committed ==>
              log[j].op.status == Failed && log[j].op.effect == Committed
    decreases j
  {
    if i < j {
      EndsArePermanent(log, i, j - 1);
      assert FollowsAt(log, j);
    }
  }

  /** The session written by the last heartbeat among the first n entries. */
  ghost function LastSession(log: seq<Entry>, n: nat): Option<W.Session>
    requires Legal(log) && 0 < n <= |log|
  {
    if n == 1 then log[0].op.worker
    else if log[n - 1].writer.Heartbeat? then
      var w := log[n - 1].writer;
      assert FollowsAt(log, n - 1);
      Some(W.NextWorker(MoverOf(log[n - 2].op), w.req, w.actor, w.now, w.ttl).worker)
    else LastSession(log, n - 1)
  }

  /** No writer loses a heartbeat: the stored session is always the one the last heartbeat wrote. */
  lemma {:induction false} NoSessionIsLost(log: seq<Entry>, n: nat)
    requires Legal(log) && 0 < n <= |log|
    ensures log[n - 1].op.worker == LastSession(log, n)
  {
    if n > 1 {
      NoSessionIsLost(log, n - 1);
      assert FollowsAt(log, n - 1);
    }
  }

  /** A request to cancel a join, once on the record, stays on it as it was first made. */
  lemma {:induction false} NoCancelRequestIsLost(log: seq<Entry>, i: nat, j: nat)
    requires Legal(log) && i <= j < |log| && log[i].op.cancel.Some?
    ensures log[j].op.cancel == log[i].op.cancel
    decreases j
  {
    if i < j {
      NoCancelRequestIsLost(log, i, j - 1);
      assert FollowsAt(log, j);
    }
  }

  lemma {:induction false} RequestsNeverChange(log: seq<Entry>, i: nat, j: nat)
    requires Legal(log) && i <= j < |log|
    ensures log[j].op.kind == log[i].op.kind && log[j].op.request == log[i].op.request
    decreases j
  {
    if i < j {
      RequestsNeverChange(log, i, j - 1);
      assert FollowsAt(log, j);
    }
  }
}
