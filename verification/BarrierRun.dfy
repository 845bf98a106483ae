/** One barrier operation as a step system (internal/control/barrier.go, with the hold and commit
closures of ops.go and readonly.go): its record, its scope in the directory, every node that ever
ran it, and every request to cancel it.

Nothing is assumed of the order of steps. An owner may be judged gone while it runs; a record may be
taken over while its earlier owners still run; cancellations overlap; any of them stops anywhere.
Each record write lands only over an unfinished record of the writer's own term (what
`RecordWriters.Tracker.Put` and `Records.EarlierOwnersAreFenced` show), and may also fail for a
reason of the store's own, in which case the run goes on. The directory's writes are compared on the
barrier's id. */
module BarrierRun {
  import opened Basics
  import R = Records
  import RW = RecordWriters

  /** The scope in the directory. `proven` says the drain of the hold now on it has passed, with the
      barrier's own checks: for a purge, that the diff was empty. */
  datatype Scope = Scope(version: nat, carried: bool, inForce: bool, proven: bool, switch: R.Switch)

  datatype Pc =
    | Intend | EnterHold | WriteHold | RecordHold | LookCarried | EnterDrain | Drain | EnterCommit | Commit
    | Dispatch | EnterDelete | Delete | LeaveDelete | Write | RecordCommit | Finish | Stopped

  /** A node running the operation: its tracker's copy of the record, and where it is. */
  datatype Owner = Owner(
    term: int, phase: R.Phase, barrier: Option<R.BarrierState>, lost: bool,
    held: int,       // the version its hold was written at
    drained: bool,   // the drain passed in this run
    began: bool,     // whether dispatch had started when this run began
    pc: Pc
  )

  datatype Canceler =
    | Ending(node: string, term: int, gone: bool)  // the record was read as one that can be canceled
    | Looking(ended: R.Operation)                  // it ended the record; is the scope still held?
    | Releasing(ended: R.Operation)
    | Correcting
    | LookingAgain(ended: R.Operation)             // the record had been canceled already
    | ReleasingAgain(ended: R.Operation)
    | Answered(canceled: bool, wrote: bool)
    | Dropped

  datatype State = State(
    rec: R.Operation, scope: Scope, reject: bool, owners: seq<Owner>, cancels: seq<Canceler>,
    endedIn: Option<R.Phase>,  // the phase a cancellation ended the record in
    freed: bool,               // a cancellation released the hold
    undone: bool               // a repeated one did
  )

  datatype Move = Next | Refused | Unanswered | DeleteAnother | Touch | Notice | Crash

  datatype Step =
    | Run(i: nat, move: Move, lands: bool)
    | TakeOver(node: string)
    | Sweep
    | Ask(gone: bool)
    | End(k: nat)
    | Look(k: nat)
    | Release(k: nat, answered: bool)
    | Correct(k: nat)
    | Drop(k: nat)

  predicate Purges(kind: R.Kind) {
    kind == R.PurgeSource
  }

  predicate SwitchesReadOnly(kind: R.Kind) {
    kind == R.PlacementReadOnly || kind == R.ClusterReadOnly
  }

  // ---------------------------------------------------------------------------------------------
  // The directory's writes.

  /** The hold: for a read-only change it is the switch itself. */
  function HoldOn(kind: R.Kind, scope: Scope, reject: bool): Scope {
    var held := scope.(version := scope.version + 1, carried := true, proven := false);
    if SwitchesReadOnly(kind) then held.(switch := R.Switch(true, reject)) else held
  }

  /** The commit: it clears the hold in the write that puts the change in force. */
  function Committed(scope: Scope): Scope {
    scope.(version := scope.version + 1, carried := false, inForce := true)
  }

  /** releaseHold: for a read-only change, back to the switch on the record. */
  function Released(op: R.Operation, scope: Scope): Scope {
    var open := scope.(version := scope.version + 1, carried := false);
    if SwitchesReadOnly(op.kind) then
      var prior := if op.barrier.Some? && op.barrier.value.prior.Some? then op.barrier.value.prior.value
          else R.Switch(false, false);
      open.(switch := R.Switch(prior.readOnly, prior.readOnly && prior.reject))
    else open
  }

  /** Whether a commit that finds the hold gone takes its change as already written. */
  predicate AlreadyInForce(kind: R.Kind, scope: Scope) {
    if SwitchesReadOnly(kind) then scope.switch.readOnly else scope.inForce
  }

  // ---------------------------------------------------------------------------------------------
  // An owner's steps.

  datatype Held = Held(rec: R.Operation, owner: Owner)

  datatype Moved = Moved(rec: R.Operation, scope: Scope, owner: Owner)

  /** tracker.put, as one step. */
  function Put(rec: R.Operation, o: Owner, lands: bool): Held {
    if o.lost || !lands then Held(rec, o)
    else if rec.term == o.term && !rec.Terminal() then
      Held(rec.(sequence := rec.sequence + 1, status := R.Running, ownerLost := false, phase := o.phase,
        barrier := o.barrier), o)
    else Held(rec, o.(lost := true))
  }

  /** tracker.finish. */
  function Finished(rec: R.Operation, o: Owner, status: R.Status, lands: bool): Held {
    var p := Put(rec, o.(phase := R.Done), lands);
    Held(if p.rec == rec then rec else p.rec.(status := status), p.owner.(pc := Stopped))
  }

  /** tracker.phase: it writes only on a change. */
  function Phased(rec: R.Operation, o: Owner, phase: R.Phase, lands: bool): Held {
    if o.phase == phase then Held(rec, o) else Put(rec, o.(phase := phase), lands)
  }

  function Go(p: Held, scope: Scope, pc: Pc): Moved {
    Moved(p.rec, scope, p.owner.(pc := pc))
  }

  /** tracker.check: a run that lost its record stops. */
  function Checked(p: Held, scope: Scope, pc: Pc): Moved {
    Go(p, scope, if p.owner.lost then Stopped else pc)
  }

  function Ended(p: Held, scope: Scope): Moved {
    Moved(p.rec, scope, p.owner)
  }

  function NoBarrier(): R.BarrierState {
    R.BarrierState(0, false, false, None)
  }

  function BarrierOf(o: Owner): R.BarrierState {
    if o.barrier.Some? then o.barrier.value else NoBarrier()
  }

  predicate Dispatched(o: Owner) {
    BarrierOf(o).dispatchStarted
  }

  /** The next step of a run that goes as it should. */
  function Advance(rec: R.Operation, scope: Scope, o: Owner, reject: bool, lands: bool): Moved {
    match o.pc
    case Intend =>
      var prior := if SwitchesReadOnly(rec.kind) then Some(scope.switch) else None;
      Go(Put(rec, o.(barrier := Some(NoBarrier().(prior := prior))), lands), scope, EnterHold)
    case EnterHold =>
      Checked(Phased(rec, o, R.Hold, lands), scope, WriteHold)
    case WriteHold =>
      var held := if scope.carried then scope else HoldOn(rec.kind, scope, reject);
      Moved(rec, held, o.(held := held.version, pc := RecordHold))
    case RecordHold =>
      Go(Put(rec, o.(barrier := Some(BarrierOf(o).(hold := o.held))), lands), scope, LookCarried)
    case LookCarried =>
      Moved(rec, scope, o.(pc := if scope.carried then EnterDrain else EnterCommit))
    case EnterDrain =>
      Go(Phased(rec, o, R.Drain, lands), scope, Drain)
    case Drain =>
      if o.lost then Moved(rec, scope, o.(pc := Stopped))
      else Moved(rec, scope.(proven := scope.proven || scope.carried), o.(drained := true, pc := EnterCommit))
    case EnterCommit =>
      Checked(Phased(rec, o, R.Commit, lands), scope, Commit)
    case Commit =>
      if !scope.carried then
        if AlreadyInForce(rec.kind, scope) then Moved(rec, scope, o.(pc := RecordCommit))
        else Ended(Finished(rec, o, R.Cancelled, lands), scope)
      else if !Purges(rec.kind) then Moved(rec, Committed(scope), o.(pc := RecordCommit))
      else if Dispatched(o) then Moved(rec, scope, o.(pc := EnterDelete))
      else if o.drained then Moved(rec, scope, o.(pc := Dispatch))
      else Ended(Finished(rec, o, R.Failed, lands), scope)
    case Dispatch =>
      Checked(Put(rec, o.(barrier := Some(BarrierOf(o).(dispatchStarted := true))), lands), scope, EnterDelete)
    case EnterDelete =>
      Go(Phased(rec, o, R.Purge, lands), scope, Delete)
    case Delete =>
      Moved(rec, scope, o.(pc := LeaveDelete))
    case LeaveDelete =>
      Go(Phased(rec, o, R.Commit, lands), scope, Write)
    case Write =>
      if scope.carried then Moved(rec, Committed(scope), o.(pc := RecordCommit))
      else Checked(Put(rec, o, lands), scope, Commit)
    case RecordCommit =>
      Go(Put(rec, o.(barrier := Some(BarrierOf(o).(committed := true, dispatchStarted := o.began))), lands), scope,
        Finish)
    case Finish =>
      Ended(Finished(rec, o, R.Succeeded, lands), scope)
    case Stopped =>
      Moved(rec, scope, o)
  }

  /** The next step of a run that meets an error. A resumed run may meet one before it comes to the
      barrier, wherever it is to carry on from. Once deletes may have begun, the commit never ends the run
      on one: it writes what it waits on, checks its record and comes back. */
  function Fail(rec: R.Operation, scope: Scope, o: Owner, lands: bool): Moved {
    match o.pc
    case Drain =>
      if o.lost then Moved(rec, scope, o.(pc := Stopped)) else Go(Put(rec, o, lands), scope, Drain)
    case Commit | Delete | Write =>
      if Dispatched(o) then Checked(Put(rec, o, lands), scope, Commit)
      else Ended(Finished(rec, o, R.Failed, lands), scope)
    case Intend | EnterHold | WriteHold | LookCarried | Finish =>
      Ended(Finished(rec, o, R.Failed, lands), scope)
    case _ =>
      Moved(rec, scope, o)
  }

  function OwnerMoves(rec: R.Operation, scope: Scope, o: Owner, reject: bool, move: Move, lands: bool): Moved {
    match move
    case Next => Advance(rec, scope, o, reject, lands)
    case Refused => Fail(rec, scope, o, lands)
    case Unanswered => Fail(rec, Landed(rec.kind, scope, o, reject), o, lands)
    case DeleteAnother => Moved(rec, scope, o)
    case Touch => var p := Put(rec, o, lands); Moved(p.rec, scope, p.owner)
    case Notice => Moved(rec, scope, o.(lost := true))
    case Crash => Moved(rec, scope, o.(pc := Stopped))
  }

  /** Whether the owner's next step is the directory write of its change. */
  predicate MayWrite(kind: R.Kind, o: Owner) {
    o.pc == Write || (o.pc == Commit && !Purges(kind))
  }

  /** Whether it is a directory write at all, whose answer may be lost. */
  predicate MayGoUnanswered(kind: R.Kind, o: Owner) {
    MayWrite(kind, o) || o.pc == WriteHold
  }

  /** The scope once the owner's directory write has landed: its hold, or its change. */
  function Landed(kind: R.Kind, scope: Scope, o: Owner, reject: bool): Scope {
    if MayWrite(kind, o) && scope.carried then Committed(scope)
    else if o.pc == WriteHold && !scope.carried then HoldOn(kind, scope, reject)
    else scope
  }

  /** Where a run that carries the record on begins. */
  function StartPc(rec: R.Operation, scope: Scope): Pc {
    if rec.barrier.None? then Intend
    else if (Purges(rec.kind) || rec.kind == R.Cutover) && scope.inForce then Finish
    else if rec.barrier.value.hold == 0 then EnterHold
    else if rec.barrier.value.committed then Finish
    else LookCarried
  }

  function Resumed(rec: R.Operation, scope: Scope): Owner {
    Owner(rec.term, rec.phase, rec.barrier, false, 0, false, rec.barrier.Some? && rec.barrier.value.dispatchStarted,
      StartPc(rec, scope))
  }

  // ---------------------------------------------------------------------------------------------
  // A cancellation's steps.

  /** The request reads the record. */
  function Arrived(rec: R.Operation, gone: bool): Canceler {
    if rec.status == R.Cancelled then
      if rec.barrier.None? then Answered(true, false) else LookingAgain(rec)
    else if rec.Terminal() || !R.Cancellable(rec, gone) then Answered(false, false)
    else Ending(rec.node, rec.term, gone)
  }

  function EndedBy(c: Canceler, rec: R.Operation): Option<R.Operation>
    requires c.Ending?
  {
    if rec.Terminal() then None else RW.Edited(RW.CancelFrom(c.node, c.term, c.gone), rec)
  }

  /** After the record's end is written: a hold is looked for. */
  function AfterEnd(c: Canceler, rec: R.Operation): Canceler
    requires c.Ending?
  {
    var ended := EndedBy(c, rec);
    if ended.Some? then
      if ended.value.barrier.None? then Answered(true, true) else Looking(ended.value)
    else Answered(rec.Terminal() && rec.status == R.Cancelled, false)
  }

  predicate HoldRecorded(op: R.Operation) {
    op.barrier.Some? && op.barrier.value.hold > 0
  }

  /** The hold is not on the scope: only its own commit clears a hold the record has. */
  function NotCarried(ended: R.Operation): Canceler {
    if HoldRecorded(ended) then Correcting else Answered(true, true)
  }

  function Corrected(rec: R.Operation): R.Operation {
    rec.(sequence := rec.sequence + 1, status := R.Failed, effect := R.Committed,
         barrier := if rec.barrier.Some? then Some(rec.barrier.value.(committed := true)) else None)
  }

  // ---------------------------------------------------------------------------------------------
  // The system.

  predicate AllStopped(s: State) {
    forall i | 0 <= i < |s.owners| :: s.owners[i].pc == Stopped
  }

  predicate Enabled(s: State, step: Step) {
    match step
    case Run(i, move, _) =>
      && i < |s.owners| && s.owners[i].pc != Stopped
      && (move == DeleteAnother ==> s.owners[i].pc == Delete)
      && (move == Unanswered ==> MayGoUnanswered(s.rec.kind, s.owners[i]))
    case TakeOver(_) => !s.rec.Terminal() && R.CarriesOn(s.rec)
    case Sweep => !s.rec.Terminal()
    case Ask(_) => true
    case End(k) => k < |s.cancels| && s.cancels[k].Ending?
    case Look(k) => k < |s.cancels| && (s.cancels[k].Looking? || s.cancels[k].LookingAgain?)
    case Release(k, _) => k < |s.cancels| && (s.cancels[k].Releasing? || s.cancels[k].ReleasingAgain?)
    case Correct(k) => k < |s.cancels| && s.cancels[k].Correcting?
    case Drop(k) => k < |s.cancels| && !s.cancels[k].Answered?
  }

  function AfterRun(s: State, i: nat, move: Move, lands: bool): State
    requires i < |s.owners|
  {
    var m := OwnerMoves(s.rec, s.scope, s.owners[i], s.reject, move, lands);
    s.(rec := m.rec, scope := m.scope, owners := s.owners[i := m.owner])
  }

  function AfterCancel(s: State, step: Step): State
    requires Enabled(s, step) && (step.End? || step.Look? || step.Release? || step.Correct?)
  {
    var k := step.k;
    var c := s.cancels[k];
    match step
    case End(_) =>
      var ended := EndedBy(c, s.rec);
      s.(rec := if ended.Some? then ended.value else s.rec,
         endedIn := if ended.Some? then Some(s.rec.phase) else s.endedIn,
         cancels := s.cancels[k := AfterEnd(c, s.rec)])
    case Look(_) =>
      var next := if c.LookingAgain? then if s.scope.carried then ReleasingAgain(c.ended) else Answered(true, false)
                  else if s.scope.carried then Releasing(c.ended) else NotCarried(c.ended);
      s.(cancels := s.cancels[k := next])
    case Release(_, answered) =>
      var next := if !answered then Dropped
                  else if c.ReleasingAgain? then Answered(true, false)
                  else if s.scope.carried then Answered(true, true) else NotCarried(c.ended);
      s.(scope := if s.scope.carried then Released(c.ended, s.scope) else s.scope,
         freed := s.freed || s.scope.carried,
         undone := s.undone || (s.scope.carried && c.ReleasingAgain?),
         cancels := s.cancels[k := next])
    case Correct(_) =>
      s.(rec := Corrected(s.rec), cancels := s.cancels[k := Answered(false, true)])
  }

  function After(s: State, step: Step): State
    requires Enabled(s, step)
  {
    match step
    case Run(i, move, lands) => AfterRun(s, i, move, lands)
    case TakeOver(node) =>
      var rec := R.Taken(s.rec, node);
      s.(rec := rec, owners := s.owners + [Resumed(rec, s.scope)])
    case Sweep => s.(rec := R.Orphaned(s.rec))
    case Ask(gone) => s.(cancels := s.cancels + [Arrived(s.rec, gone)])
    case Drop(k) => s.(cancels := s.cancels[k := Dropped])
    case _ => AfterCancel(s, step)
  }

  /** A new operation, on its first owner. */
  ghost predicate Initial(s: State) {
    && R.Resumable(s.rec.kind) && !s.rec.Terminal() && s.rec.barrier.None? && s.rec.phase == R.Precondition
    && !s.scope.carried && !s.scope.inForce
    && s.owners == [Resumed(s.rec, s.scope)]
    && s.cancels == [] && s.endedIn.None? && !s.freed && !s.undone
  }

  /** `run` is a run: each state follows from the one before by an enabled step. */
  ghost predicate IsRun(run: seq<State>, steps: seq<Step>) {
    && |run| == |steps| + 1
    && forall i | 0 <= i < |steps| :: StepAt(run, steps, i)
  }

  ghost predicate StepAt(run: seq<State>, steps: seq<Step>, i: nat)
    requires i < |steps| && |run| == |steps| + 1
  {
    Enabled(run[i], steps[i]) && run[i + 1] == After(run[i], steps[i])
  }

  /** A record write lands or is refused as stale, and a record is taken over only once no owner of it
      runs. A cancellation may still judge an owner gone that is not. */
  predicate Orderly(s: State, step: Step) {
    && (step.Run? ==> step.lands)
    && (step.TakeOver? ==> AllStopped(s))
  }

  predicate DispatchRecorded(rec: R.Operation) {
    rec.barrier.Some? && rec.barrier.value.dispatchStarted
  }

  /** As `Orderly`, but a purge's write that its deletes may begin may fail for the store's own reason.
      Its run then does not give the record up, unless it has ended, before its next write. */
  predicate Guarded(s: State, step: Step) {
    && (step.TakeOver? ==> AllStopped(s))
    && (step.Run? && step.i < |s.owners| ==>
          && (!step.lands ==> step.move == Next && s.owners[step.i].pc == Dispatch)
          && (step.move == Notice && s.owners[step.i].pc == EnterDelete ==>
               s.rec.Terminal() || DispatchRecorded(s.rec)))
  }

  ghost predicate GuardedRun(run: seq<State>, steps: seq<Step>) {
    && IsRun(run, steps)
    && forall i | 0 <= i < |steps| :: Guarded(run[i], steps[i])
  }

  ghost predicate OrderlyRun(run: seq<State>, steps: seq<Step>) {
    && IsRun(run, steps)
    && forall i | 0 <= i < |steps| :: Orderly(run[i], steps[i])
  }

  /** Every record write of the system is one its writer's rule allows. */
  lemma WritesFollowTheirRules(s: State, step: Step)
    requires Enabled(s, step)
    requires step.Correct? ==> s.rec.Terminal()
    ensures After(s, step).rec != s.rec ==> exists w :: R.Follows(s.rec, After(s, step).rec, w)
  {
    if step.Run? {
      OwnersWriteByTheirRule(s.rec, s.scope, s.owners[step.i], s.reject, step.move, step.lands);
    } else if After(s, step).rec != s.rec {
      var w := match step
        case TakeOver(node) => R.TakeOver(node)
        case Sweep => R.Orphan
        case End(_) => R.Cancel
        case _ => R.Correct;
      assert R.Follows(s.rec, After(s, step).rec, w);
    }
  }

  /** Whether `next` is what the record's owner may make of it, or the record untouched. */
  ghost predicate OwnWrite(rec: R.Operation, next: R.Operation) {
    next == rec || R.Follows(rec, next, R.Owner(rec.node, rec.term))
  }

  lemma PutsAreOwnWrites(rec: R.Operation, o: Owner, lands: bool)
    ensures OwnWrite(rec, Put(rec, o, lands).rec)
    ensures forall status :: OwnWrite(rec, Finished(rec, o, status, lands).rec)
    ensures forall phase :: OwnWrite(rec, Phased(rec, o, phase, lands).rec)
  {
  }

  lemma AdvanceIsOwnWrite(rec: R.Operation, scope: Scope, o: Owner, reject: bool, lands: bool)
    ensures OwnWrite(rec, Advance(rec, scope, o, reject, lands).rec)
  {
    PutsAreOwnWrites(rec, o, lands);
    match o.pc
    case Intend =>
      var prior := if SwitchesReadOnly(rec.kind) then Some(scope.switch) else None;
      PutsAreOwnWrites(rec, o.(barrier := Some(NoBarrier().(prior := prior))), lands);
    case RecordHold => PutsAreOwnWrites(rec, o.(barrier := Some(BarrierOf(o).(hold := o.held))), lands);
    case Dispatch => PutsAreOwnWrites(rec, o.(barrier := Some(BarrierOf(o).(dispatchStarted := true))), lands);
    case RecordCommit =>
      PutsAreOwnWrites(rec, o.(barrier := Some(BarrierOf(o).(committed := true, dispatchStarted := o.began))), lands);
    case _ =>
  }

  lemma OwnersWriteByTheirRule(rec: R.Operation, scope: Scope, o: Owner, reject: bool, move: Move, lands: bool)
    ensures OwnWrite(rec, OwnerMoves(rec, scope, o, reject, move, lands).rec)
  {
    match move
    case Next => AdvanceIsOwnWrite(rec, scope, o, reject, lands);
    case Refused => FailIsOwnWrite(rec, scope, o, lands);
    case Unanswered => FailIsOwnWrite(rec, Landed(rec.kind, scope, o, reject), o, lands);
    case Touch => PutsAreOwnWrites(rec, o, lands);
    case _ =>
  }

  lemma FailIsOwnWrite(rec: R.Operation, scope: Scope, o: Owner, lands: bool)
    ensures OwnWrite(rec, Fail(rec, scope, o, lands).rec)
  {
    PutsAreOwnWrites(rec, o, lands);
  }
}
