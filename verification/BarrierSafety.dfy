/** What every orderly run of a barrier operation keeps (internal/control/barrier.go): a cancellation
against a commit, a purge against a cancellation, and the read-only switch a cancellation restores.

A run is orderly when each record write lands or is refused as stale and a record is taken over only
once none of its owners runs (`BarrierRun.Orderly`); it is guarded when a purge's write that its
deletes may begin may also fail (`BarrierRun.Guarded`). Cancellations may come at any time, several at
once, and may take a running owner for gone. `BarrierLimits` shows what fails without each half. */
module BarrierSafety {
  import opened Basics
  import opened BarrierRun
  import R = Records

  predicate Running(o: Owner) {
    o.pc != Stopped
  }

  predicate Live(rec: R.Operation) {
    !rec.Terminal()
  }

  /** Whether the owner may still reach its directory write though its record has ended: no record
      write that must land is on the way there. */
  predicate Ready(o: Owner) {
    match o.pc
    case Commit | Dispatch => true
    case EnterCommit => !o.lost && o.phase == R.Commit
    case _ => Deleting(o.pc)
  }

  /** The change is not in force and, the record having ended, never will be. */
  predicate Closed(rec: R.Operation, scope: Scope, o: Owner) {
    rec.Terminal() && !scope.inForce && (scope.carried ==> !Ready(o))
  }

  /** Past what a live owner's record may be canceled at. */
  predicate Firm(rec: R.Operation) {
    rec.phase == R.Commit || (rec.barrier.Some? && (rec.barrier.value.committed || rec.barrier.value.dispatchStarted))
  }

  /** Before the drain has passed in this run. */
  predicate Undrained(pc: Pc) {
    match pc
    case Intend | EnterHold | WriteHold | RecordHold | LookCarried | EnterDrain | Drain => true
    case _ => false
  }

  predicate Deleting(pc: Pc) {
    match pc
    case EnterDelete | Delete | LeaveDelete | Write => true
    case _ => false
  }

  /** Past the run's directory write, or stopped. */
  predicate Over(pc: Pc) {
    match pc
    case RecordCommit | Finish | Stopped => true
    case _ => false
  }

  // ---------------------------------------------------------------------------------------------
  // The invariant, over the record, the scope and the one owner that may run.

  /** The write that deletes may begin did not land, and the run's next write is not made yet. */
  predicate Unmarked(rec: R.Operation, o: Owner) {
    && o.pc == EnterDelete && rec.barrier.Some? && !rec.barrier.value.dispatchStarted
    && o.barrier == Some(rec.barrier.value.(dispatchStarted := true))
  }

  predicate Agree(rec: R.Operation, o: Owner) {
    && o.term == rec.term && R.Resumable(rec.kind)
    && (Running(o) && !o.lost && Live(rec) ==> o.phase == rec.phase && (o.barrier == rec.barrier || Unmarked(rec, o)))
  }

  predicate Fresh(b: Option<R.BarrierState>) {
    b.Some? && b.value.hold == 0 && !b.value.committed && !b.value.dispatchStarted
  }

  predicate Placed(rec: R.Operation, o: Owner) {
    && (rec.barrier.Some? ==> rec.barrier.value.hold >= 0)
    && (Live(rec) && rec.barrier.Some? && rec.barrier.value.committed ==> HoldRecorded(rec))
    && match o.pc
       case Intend => rec.barrier.None? && o.barrier.None?
       case EnterHold => Fresh(o.barrier) && !HoldRecorded(rec) && (!o.lost ==> rec.barrier.Some?)
       case WriteHold => Fresh(o.barrier) && !HoldRecorded(rec) && rec.barrier.Some?
       case RecordHold => Fresh(o.barrier) && !HoldRecorded(rec) && rec.barrier.Some? && o.held > 0
       case LookCarried | EnterDrain | Drain | EnterCommit =>
         o.barrier.Some? && o.barrier.value.hold > 0 && (!o.lost ==> HoldRecorded(rec))
       case Commit | Dispatch | EnterDelete | Delete | LeaveDelete | Write | RecordCommit =>
         o.barrier.Some? && o.barrier.value.hold > 0 && HoldRecorded(rec)
       case Finish | Stopped => o.barrier.Some? ==> o.barrier.value.hold >= 0
  }

  predicate ScopeOk(rec: R.Operation, scope: Scope, freed: bool) {
    && (scope.carried ==> !scope.inForce && rec.barrier.Some? && scope.version > 0)
    && (scope.inForce ==> HoldRecorded(rec))
    && (HoldRecorded(rec) && !scope.carried ==> scope.inForce || freed)
  }

  predicate ForceOk(rec: R.Operation, scope: Scope, o: Owner) {
    && (Live(rec) && (scope.inForce || Ready(o)) ==> Firm(rec))
    && (Undrained(o.pc) && o.pc != LookCarried ==> !scope.inForce)
    && (o.pc == RecordHold && Live(rec) ==> scope.carried)
    && (o.pc == Drain ==> o.phase == R.Drain)
    && (o.pc == RecordCommit || o.pc == Finish ==> !scope.carried)
    && (Live(rec) && rec.barrier.Some? && rec.barrier.value.committed ==> !scope.carried)
  }

  predicate PurgeOk(rec: R.Operation, scope: Scope, o: Owner, endedIn: Option<R.Phase>) {
    && (Deleting(o.pc) ==> Dispatched(o) && o.drained && (endedIn.None? ==> scope.carried))
    && (o.pc == Dispatch ==> Purges(rec.kind) && o.drained && !scope.inForce && !Dispatched(o))
    && ((o.pc == Commit || o.pc == Dispatch) && !Dispatched(o) ==> o.phase == R.Commit)
    && (Undrained(o.pc) ==> !o.drained)
    && ((o.pc == EnterCommit || o.pc == Commit) && !o.drained ==> !scope.carried)
    && (Running(o) && o.drained && Live(rec) && !scope.inForce ==> scope.carried && scope.proven)
    && (!Over(o.pc) && Dispatched(o) && endedIn.None? ==>
         Live(rec) && (DispatchRecorded(rec) || (Unmarked(rec, o) && !o.lost && o.phase == R.Commit)))
    && (!Over(o.pc) && Dispatched(o) && endedIn.Some? ==>
         (o.pc == EnterDelete && o.phase == R.Commit) || (Deleting(o.pc) && o.lost))
    && (DispatchRecorded(rec) ==> Purges(rec.kind) && HoldRecorded(rec) && (scope.carried ==> scope.proven))
    && (Dispatched(o) || o.began ==> Purges(rec.kind))
  }

  /** What a release writes for a switch that stood at `orig`. */
  function Restored(orig: R.Switch): R.Switch {
    R.Switch(orig.readOnly, orig.readOnly && orig.reject)
  }

  predicate PriorIs(kind: R.Kind, b: Option<R.BarrierState>, orig: R.Switch) {
    SwitchesReadOnly(kind) && b.Some? ==> b.value.prior == Some(orig)
  }

  predicate SwitchOk(rec: R.Operation, scope: Scope, o: Owner, freed: bool, orig: R.Switch) {
    && PriorIs(rec.kind, rec.barrier, orig) && PriorIs(rec.kind, o.barrier, orig)
    && (SwitchesReadOnly(rec.kind) && (scope.carried || scope.inForce) ==> scope.switch.readOnly)
    && (!scope.carried && !scope.inForce ==> scope.switch == orig || (freed && scope.switch == Restored(orig)))
    && (!SwitchesReadOnly(rec.kind) ==> scope.switch == orig)
    && (rec.barrier.None? ==> !freed)
  }

  predicate Marked(rec: R.Operation, scope: Scope, o: Owner, endedIn: Option<R.Phase>, freed: bool, undone: bool) {
    && (Live(rec) ==> endedIn.None?)
    && (rec.Terminal() && endedIn.None? && rec.barrier.Some? ==> o.pc == Stopped)
    && (rec.status == R.Cancelled ==> endedIn.Some?)
    && (endedIn.Some? ==> !DispatchRecorded(rec))
    && (endedIn.Some? && endedIn.value != R.Commit ==> Closed(rec, scope, o))
    && (freed ==> endedIn.Some? && Closed(rec, scope, o))
    && (undone ==> freed)
  }

  /** The record, the scope and the one owner that may run, with what cancellations did. */
  datatype View = View(rec: R.Operation, scope: Scope, o: Owner, endedIn: Option<R.Phase>, freed: bool, undone: bool)

  ghost predicate Core(v: View, orig: R.Switch) {
    && Agree(v.rec, v.o) && Placed(v.rec, v.o) && ScopeOk(v.rec, v.scope, v.freed) && ForceOk(v.rec, v.scope, v.o)
    && PurgeOk(v.rec, v.scope, v.o, v.endedIn) && SwitchOk(v.rec, v.scope, v.o, v.freed, orig)
    && Marked(v.rec, v.scope, v.o, v.endedIn, v.freed, v.undone)
  }

  function Then(v: View, m: Moved): View {
    v.(rec := m.rec, scope := m.scope, o := m.owner)
  }

  // ---------------------------------------------------------------------------------------------
  // The owner's steps keep it.

  lemma IntendingKeepsCore(v: View, orig: R.Switch, reject: bool)
    requires Core(v, orig) && v.o.pc == Intend
    ensures Core(Then(v, Advance(v.rec, v.scope, v.o, reject, true)), orig)
  {
  }

  lemma EnteringHoldKeepsCore(v: View, orig: R.Switch, reject: bool)
    requires Core(v, orig) && v.o.pc == EnterHold
    ensures Core(Then(v, Advance(v.rec, v.scope, v.o, reject, true)), orig)
  {
    if v.o.lost || v.rec.Terminal() {
      EnteringHoldLateKeepsCore(v, orig);
    } else {
      EnteringHoldLiveKeepsCore(v, orig);
    }
  }

  lemma EnteringHoldLateKeepsCore(v: View, orig: R.Switch)
    requires Core(v, orig) && v.o.pc == EnterHold && (v.o.lost || v.rec.Terminal())
    ensures Core(Then(v, Checked(Phased(v.rec, v.o, R.Hold, true), v.scope, WriteHold)), orig)
  {
  }

  lemma EnteringHoldLiveKeepsCore(v: View, orig: R.Switch)
    requires Core(v, orig) && v.o.pc == EnterHold && !v.o.lost && Live(v.rec)
    ensures Core(Then(v, Checked(Phased(v.rec, v.o, R.Hold, true), v.scope, WriteHold)), orig)
  {
  }

  lemma HoldingKeepsCore(v: View, orig: R.Switch, reject: bool)
    requires Core(v, orig) && (v.o.pc == WriteHold || v.o.pc == RecordHold)
    ensures Core(Then(v, Advance(v.rec, v.scope, v.o, reject, true)), orig)
  {
  }

  lemma LookingKeepsCore(v: View, orig: R.Switch, reject: bool)
    requires Core(v, orig) && (v.o.pc == LookCarried || v.o.pc == Drain)
    ensures Core(Then(v, Advance(v.rec, v.scope, v.o, reject, true)), orig)
  {
  }

  lemma EnteringDrainKeepsCore(v: View, orig: R.Switch, reject: bool)
    requires Core(v, orig) && v.o.pc == EnterDrain
    ensures Core(Then(v, Advance(v.rec, v.scope, v.o, reject, true)), orig)
  {
    if v.o.lost || v.rec.Terminal() {
      EnteringDrainLateKeepsCore(v, orig);
    } else {
      EnteringDrainLiveKeepsCore(v, orig);
    }
  }

  lemma EnteringDrainLateKeepsCore(v: View, orig: R.Switch)
    requires Core(v, orig) && v.o.pc == EnterDrain && (v.o.lost || v.rec.Terminal())
    ensures Core(Then(v, Go(Phased(v.rec, v.o, R.Drain, true), v.scope, Drain)), orig)
  {
  }

  lemma EnteringDrainLiveKeepsCore(v: View, orig: R.Switch)
    requires Core(v, orig) && v.o.pc == EnterDrain && !v.o.lost && Live(v.rec)
    ensures Core(Then(v, Go(Phased(v.rec, v.o, R.Drain, true), v.scope, Drain)), orig)
  {
  }

  lemma EnteringCommitKeepsCore(v: View, orig: R.Switch, reject: bool)
    requires Core(v, orig) && v.o.pc == EnterCommit
    ensures Core(Then(v, Advance(v.rec, v.scope, v.o, reject, true)), orig)
  {
    var p := Phased(v.rec, v.o, R.Commit, true);
    if p.owner.lost {
      assert p == Held(v.rec, v.o.(phase := R.Commit, lost := true));
      StoppingAtCommitKeepsCore(v, orig);
    } else {
      GoingOnToCommitKeepsCore(v, orig);
    }
  }

  lemma StoppingAtCommitKeepsCore(v: View, orig: R.Switch)
    requires Core(v, orig) && v.o.pc == EnterCommit
    ensures Core(v.(o := v.o.(phase := R.Commit, lost := true, pc := Stopped)), orig)
  {
  }

  lemma GoingOnToCommitKeepsCore(v: View, orig: R.Switch)
    requires Core(v, orig) && v.o.pc == EnterCommit && !v.o.lost && (v.rec.Terminal() ==> v.o.phase == R.Commit)
    ensures var p := Phased(v.rec, v.o, R.Commit, true); Core(v.(rec := p.rec, o := p.owner.(pc := Commit)), orig)
  {
  }

  /** A commit finds the hold gone on a live record only when its own change cleared it. */
  lemma FinishingKeepsCore(v: View, orig: R.Switch, status: R.Status)
    requires Core(v, orig) && Running(v.o) && (status == R.Succeeded || status == R.Failed)
    ensures var p := Finished(v.rec, v.o, status, true); Core(v.(rec := p.rec, o := p.owner), orig)
  {
    if v.o.lost || v.rec.Terminal() {
      FinishingLateKeepsCore(v, orig, status);
    }
  }

  lemma FinishingLateKeepsCore(v: View, orig: R.Switch, status: R.Status)
    requires Core(v, orig) && Running(v.o) && (v.o.lost || v.rec.Terminal())
    ensures var p := Finished(v.rec, v.o, status, true); Core(v.(rec := p.rec, o := p.owner), orig)
  {
  }

  lemma StoppingKeepsCore(v: View, orig: R.Switch)
    requires Core(v, orig)
    ensures Core(v.(o := v.o.(pc := Stopped)), orig)
  {
  }

  lemma LosingKeepsCore(v: View, orig: R.Switch)
    requires Core(v, orig) && (v.o.pc == EnterDelete ==> v.rec.Terminal() || DispatchRecorded(v.rec))
    ensures Core(v.(o := v.o.(lost := true)), orig)
  {
  }

  lemma CommittingKeepsCore(v: View, orig: R.Switch, reject: bool)
    requires Core(v, orig) && v.o.pc == Commit && v.scope.carried
    ensures Core(Then(v, Advance(v.rec, v.scope, v.o, reject, true)), orig)
  {
    if Purges(v.rec.kind) && !Dispatched(v.o) && !v.o.drained {
      FinishingKeepsCore(v, orig, R.Failed);
    }
  }

  /** A run whose record has ended, finding its hold gone, ends without a write. */
  lemma GivingUpKeepsCore(v: View, orig: R.Switch)
    requires Core(v, orig) && Running(v.o) && v.rec.Terminal()
    ensures var p := Finished(v.rec, v.o, R.Cancelled, true); p.rec == v.rec && Core(v.(o := p.owner), orig)
  {
  }

  lemma FindingGoneKeepsCore(v: View, orig: R.Switch, reject: bool)
    requires Core(v, orig) && v.o.pc == Commit && !v.scope.carried
    ensures Core(Then(v, Advance(v.rec, v.scope, v.o, reject, true)), orig)
  {
    if !AlreadyInForce(v.rec.kind, v.scope) {
      GivingUpKeepsCore(v, orig);
    }
  }

  lemma DispatchingKeepsCore(v: View, orig: R.Switch, reject: bool, lands: bool)
    requires Core(v, orig) && v.o.pc == Dispatch
    ensures Core(Then(v, Advance(v.rec, v.scope, v.o, reject, lands)), orig)
  {
  }

  lemma DeletingKeepsCore(v: View, orig: R.Switch, reject: bool)
    requires Core(v, orig) && v.o.pc == EnterDelete
    ensures Core(Then(v, Advance(v.rec, v.scope, v.o, reject, true)), orig)
  {
    if v.o.lost || v.rec.Terminal() {
      DeletingLateKeepsCore(v, orig);
    } else {
      DeletingLiveKeepsCore(v, orig);
    }
  }

  lemma DeletingLateKeepsCore(v: View, orig: R.Switch)
    requires Core(v, orig) && v.o.pc == EnterDelete && (v.o.lost || v.rec.Terminal())
    ensures Core(Then(v, Go(Phased(v.rec, v.o, R.Purge, true), v.scope, Delete)), orig)
  {
  }

  lemma DeletingLiveKeepsCore(v: View, orig: R.Switch)
    requires Core(v, orig) && v.o.pc == EnterDelete && !v.o.lost && Live(v.rec)
    ensures Core(Then(v, Go(Phased(v.rec, v.o, R.Purge, true), v.scope, Delete)), orig)
  {
  }

  lemma LeavingDeleteKeepsCore(v: View, orig: R.Switch, reject: bool)
    requires Core(v, orig) && v.o.pc == LeaveDelete
    ensures Core(Then(v, Advance(v.rec, v.scope, v.o, reject, true)), orig)
  {
  }

  lemma WritingKeepsCore(v: View, orig: R.Switch, reject: bool)
    requires Core(v, orig) && (v.o.pc == Delete || v.o.pc == Write)
    ensures Core(Then(v, Advance(v.rec, v.scope, v.o, reject, true)), orig)
  {
    if v.o.pc == Write && v.scope.carried {
      PurgedKeepsCore(v, orig);
    } else if v.o.pc == Write {
      RetryingKeepsCore(v, orig);
    }
  }

  lemma PurgedKeepsCore(v: View, orig: R.Switch)
    requires Core(v, orig) && v.o.pc == Write && v.scope.carried
    ensures Core(v.(scope := Committed(v.scope), o := v.o.(pc := RecordCommit)), orig)
  {
  }

  lemma EndingKeepsCore(v: View, orig: R.Switch, reject: bool)
    requires Core(v, orig) && (v.o.pc == RecordCommit || v.o.pc == Finish)
    ensures Core(Then(v, Advance(v.rec, v.scope, v.o, reject, true)), orig)
  {
    if v.o.pc == Finish {
      FinishingKeepsCore(v, orig, R.Succeeded);
    }
  }

  /** The owner writes its copy again. */
  lemma TouchingKeepsCore(v: View, orig: R.Switch)
    requires Core(v, orig) && Running(v.o)
    ensures var p := Put(v.rec, v.o, true); Core(v.(rec := p.rec, o := p.owner), orig)
  {
    if !v.o.lost && v.rec.Terminal() {
      LosingKeepsCore(v, orig);
    }
  }

  lemma ComingBackKeepsCore(v: View, orig: R.Switch)
    requires Core(v, orig) && Dispatched(v.o) && (v.o.pc == Commit || v.o.pc == Delete || v.o.pc == Write) && !v.o.lost
    ensures Core(v.(o := v.o.(pc := Commit)), orig)
  {
  }

  lemma FailingKeepsCore(v: View, orig: R.Switch)
    requires Core(v, orig) && Running(v.o)
    ensures Core(Then(v, Fail(v.rec, v.scope, v.o, true)), orig)
  {
    match v.o.pc
    case Drain => FailingDrainKeepsCore(v, orig);
    case Commit | Delete | Write =>
      if Dispatched(v.o) {
        RetryingKeepsCore(v, orig);
      } else {
        FailedKeepsCore(v, orig);
      }
    case Intend | EnterHold | WriteHold | LookCarried | Finish => FailedKeepsCore(v, orig);
    case _ =>
  }

  lemma FailedKeepsCore(v: View, orig: R.Switch)
    requires Core(v, orig) && Running(v.o)
    ensures Core(Then(v, Ended(Finished(v.rec, v.o, R.Failed, true), v.scope)), orig)
  {
    FinishingKeepsCore(v, orig, R.Failed);
  }

  lemma FailingDrainKeepsCore(v: View, orig: R.Switch)
    requires Core(v, orig) && v.o.pc == Drain
    ensures Core(Then(v, Fail(v.rec, v.scope, v.o, true)), orig)
  {
    if v.o.lost {
      StoppingKeepsCore(v, orig);
    } else {
      TouchingKeepsCore(v, orig);
    }
  }

  /** A run that met an error after its deletes may have begun comes back to its commit. */
  lemma RetryingKeepsCore(v: View, orig: R.Switch)
    requires Core(v, orig) && Dispatched(v.o) && (v.o.pc == Commit || v.o.pc == Delete || v.o.pc == Write)
    ensures Core(Then(v, Checked(Put(v.rec, v.o, true), v.scope, Commit)), orig)
  {
    TouchingKeepsCore(v, orig);
    var p := Put(v.rec, v.o, true);
    var w := v.(rec := p.rec, o := p.owner);
    if w.o.lost {
      StoppingKeepsCore(w, orig);
    } else {
      ComingBackKeepsCore(w, orig);
    }
  }

  /** A change written whose answer is lost: the write, then the error. */
  lemma WrittenUnansweredKeepsCore(v: View, orig: R.Switch)
    requires Core(v, orig) && MayWrite(v.rec.kind, v.o) && v.scope.carried
    ensures Core(Then(v, Fail(v.rec, Committed(v.scope), v.o, true)), orig)
  {
    if Dispatched(v.o) {
      UnansweredPurgeKeepsCore(v, orig);
    } else {
      UnansweredCommitKeepsCore(v, orig);
    }
  }

  lemma UnansweredCommitKeepsCore(v: View, orig: R.Switch)
    requires Core(v, orig) && MayWrite(v.rec.kind, v.o) && v.scope.carried && !Dispatched(v.o)
    ensures var p := Finished(v.rec, v.o, R.Failed, true);
            Core(v.(rec := p.rec, o := p.owner, scope := Committed(v.scope)), orig)
  {
  }

  lemma UnansweredPurgeKeepsCore(v: View, orig: R.Switch)
    requires Core(v, orig) && MayWrite(v.rec.kind, v.o) && v.scope.carried && Dispatched(v.o)
    ensures Core(Then(v, Checked(Put(v.rec, v.o, true), Committed(v.scope), Commit)), orig)
  {
  }

  /** A hold written whose answer is lost: the record ends failed, its scope held. */
  lemma UnansweredHoldKeepsCore(v: View, orig: R.Switch, reject: bool)
    requires Core(v, orig) && v.o.pc == WriteHold && !v.scope.carried
    ensures Core(Then(v, Fail(v.rec, HoldOn(v.rec.kind, v.scope, reject), v.o, true)), orig)
  {
    var w := v.(scope := HoldOn(v.rec.kind, v.scope, reject));
    HeldKeepsCore(v, orig, reject);
    FinishingKeepsCore(w, orig, R.Failed);
  }

  lemma HeldKeepsCore(v: View, orig: R.Switch, reject: bool)
    requires Core(v, orig) && v.o.pc == WriteHold && !v.scope.carried
    ensures Core(v.(scope := HoldOn(v.rec.kind, v.scope, reject)), orig)
  {
  }

  lemma AdvancingKeepsCore(v: View, orig: R.Switch, reject: bool, lands: bool)
    requires Core(v, orig) && Running(v.o) && (lands || v.o.pc == Dispatch)
    ensures Core(Then(v, Advance(v.rec, v.scope, v.o, reject, lands)), orig)
  {
    match v.o.pc
    case Intend => IntendingKeepsCore(v, orig, reject);
    case EnterHold => EnteringHoldKeepsCore(v, orig, reject);
    case WriteHold | RecordHold => HoldingKeepsCore(v, orig, reject);
    case LookCarried | Drain => LookingKeepsCore(v, orig, reject);
    case EnterDrain => EnteringDrainKeepsCore(v, orig, reject);
    case EnterCommit => EnteringCommitKeepsCore(v, orig, reject);
    case Commit =>
      if v.scope.carried {
        CommittingKeepsCore(v, orig, reject);
      } else {
        FindingGoneKeepsCore(v, orig, reject);
      }
    case Dispatch => DispatchingKeepsCore(v, orig, reject, lands);
    case EnterDelete => DeletingKeepsCore(v, orig, reject);
    case LeaveDelete => LeavingDeleteKeepsCore(v, orig, reject);
    case Delete | Write => WritingKeepsCore(v, orig, reject);
    case RecordCommit | Finish => EndingKeepsCore(v, orig, reject);
  }

  /** The moves a guarded run makes. */
  predicate May(v: View, move: Move, lands: bool) {
    && Running(v.o)
    && (move == Unanswered ==> MayGoUnanswered(v.rec.kind, v.o))
    && (!lands ==> move == Next && v.o.pc == Dispatch)
    && (move == Notice && v.o.pc == EnterDelete ==> v.rec.Terminal() || DispatchRecorded(v.rec))
  }

  lemma UnansweringKeepsCore(v: View, orig: R.Switch, reject: bool)
    requires Core(v, orig) && MayGoUnanswered(v.rec.kind, v.o)
    ensures Core(Then(v, Fail(v.rec, Landed(v.rec.kind, v.scope, v.o, reject), v.o, true)), orig)
  {
    if MayWrite(v.rec.kind, v.o) && v.scope.carried {
      WrittenUnansweredKeepsCore(v, orig);
    } else if v.o.pc == WriteHold && !v.scope.carried {
      UnansweredHoldKeepsCore(v, orig, reject);
    } else {
      FailingKeepsCore(v, orig);
    }
  }

  lemma MovingKeepsCore(v: View, orig: R.Switch, reject: bool, move: Move, lands: bool)
    requires Core(v, orig) && May(v, move, lands)
    ensures Core(Then(v, OwnerMoves(v.rec, v.scope, v.o, reject, move, lands)), orig)
  {
    match move
    case Next => AdvancingKeepsCore(v, orig, reject, lands);
    case Refused => FailingKeepsCore(v, orig);
    case Unanswered => UnansweringKeepsCore(v, orig, reject);
    case DeleteAnother =>
    case Touch => TouchingKeepsCore(v, orig);
    case Notice => LosingKeepsCore(v, orig);
    case Crash => StoppingKeepsCore(v, orig);
  }

  // ---------------------------------------------------------------------------------------------
  // Cancellations.

  /** The record as a cancellation ended it, against the record now. */
  predicate EndedAs(v: View, ended: R.Operation) {
    && v.endedIn.Some? && v.rec.Terminal() && ended.kind == v.rec.kind
    && ended.barrier.Some? && v.rec.barrier.Some? && ended.barrier.value.prior == v.rec.barrier.value.prior
    && HoldRecorded(ended) == HoldRecorded(v.rec)
  }

  predicate CancelOk(v: View, c: Canceler) {
    match c
    case Looking(e) => EndedAs(v, e) && (v.freed ==> v.undone)
    case Releasing(e) => EndedAs(v, e) && (v.freed ==> v.undone)
    case Correcting => v.endedIn.Some? && v.rec.Terminal() && (v.freed ==> v.undone) && (v.scope.inForce <==> !v.undone)
    case LookingAgain(e) => EndedAs(v, e)
    case ReleasingAgain(e) => EndedAs(v, e)
    case Answered(canceled, wrote) =>
      wrote ==>
        && v.endedIn.Some?
        && (canceled ==> Closed(v.rec, v.scope, v.o))
        && (!canceled ==> v.rec.status == R.Failed && v.rec.effect == R.Committed && (v.scope.inForce <==> !v.undone))
    case Ending(_, _, _) => true
    case Dropped => true
  }

  /** A cancellation that ended the record and has not answered. */
  predicate Active(c: Canceler) {
    c.Looking? || c.Releasing? || c.Correcting?
  }

  ghost predicate OneActive(s: State) {
    forall j, k | 0 <= j < |s.cancels| && 0 <= k < |s.cancels| && Active(s.cancels[j]) && Active(s.cancels[k]) :: j == k
  }

  function ViewOf(s: State): View
    requires s.owners != []
  {
    View(s.rec, s.scope, s.owners[|s.owners| - 1], s.endedIn, s.freed, s.undone)
  }

  ghost predicate Rest(s: State) {
    && s.owners != []
    && (forall i | 0 <= i < |s.owners| - 1 :: s.owners[i].pc == Stopped)
    && (forall k | 0 <= k < |s.cancels| :: CancelOk(ViewOf(s), s.cancels[k]))
    && OneActive(s)
  }

  ghost predicate Inv(s: State, orig: R.Switch) {
    Rest(s) && Core(ViewOf(s), orig)
  }

  lemma InitialIsInv(s: State)
    requires Initial(s)
    ensures Inv(s, s.scope.switch)
  {
  }

  lemma EndedRecordsAreTheOwnersNoMore(v: View, reject: bool, move: Move, lands: bool)
    requires v.rec.Terminal()
    ensures OwnerMoves(v.rec, v.scope, v.o, reject, move, lands).rec == v.rec
  {
    OwnersWriteByTheirRule(v.rec, v.scope, v.o, reject, move, lands);
  }

  /** Once closed, an owner's steps leave it closed. */
  lemma MovingKeepsClosed(v: View, orig: R.Switch, reject: bool, move: Move, lands: bool)
    requires Core(v, orig) && May(v, move, lands)
    requires v.endedIn.Some? && Closed(v.rec, v.scope, v.o)
    ensures var m := OwnerMoves(v.rec, v.scope, v.o, reject, move, lands); Closed(m.rec, m.scope, m.owner)
  {
    var w := v.(endedIn := Some(R.Done));
    MovingKeepsCore(w, orig, reject, move, lands);
  }

  lemma ForceIsForGood(v: View, reject: bool, move: Move, lands: bool)
    ensures v.scope.inForce ==> OwnerMoves(v.rec, v.scope, v.o, reject, move, lands).scope.inForce
  {
  }

  lemma MovingKeepsCancels(v: View, orig: R.Switch, reject: bool, move: Move, lands: bool, c: Canceler)
    requires Core(v, orig) && May(v, move, lands) && CancelOk(v, c)
    ensures CancelOk(Then(v, OwnerMoves(v.rec, v.scope, v.o, reject, move, lands)), c)
  {
    if v.endedIn.Some? {
      EndedRecordsAreTheOwnersNoMore(v, reject, move, lands);
      ForceIsForGood(v, reject, move, lands);
      if Closed(v.rec, v.scope, v.o) {
        MovingKeepsClosed(v, orig, reject, move, lands);
      }
    }
  }

  lemma RunKeepsInv(s: State, step: Step, orig: R.Switch)
    requires Inv(s, orig) && Enabled(s, step) && step.Run? && Guarded(s, step)
    ensures Inv(After(s, step), orig)
  {
    var v := ViewOf(s);
    assert step.i == |s.owners| - 1;
    MovingKeepsCore(v, orig, s.reject, step.move, step.lands);
    var m := OwnerMoves(v.rec, v.scope, v.o, s.reject, step.move, step.lands);
    forall k | 0 <= k < |s.cancels| ensures CancelOk(Then(v, m), s.cancels[k]) {
      MovingKeepsCancels(v, orig, s.reject, step.move, step.lands, s.cancels[k]);
    }
    MovedKeepsInv(s, m, orig);
  }

  lemma MovedKeepsInv(s: State, m: Moved, orig: R.Switch)
    requires Rest(s) && Core(Then(ViewOf(s), m), orig)
    requires forall k | 0 <= k < |s.cancels| :: CancelOk(Then(ViewOf(s), m), s.cancels[k])
    ensures Inv(s.(rec := m.rec, scope := m.scope, owners := s.owners[|s.owners| - 1 := m.owner]), orig)
  {
    var t := s.(rec := m.rec, scope := m.scope, owners := s.owners[|s.owners| - 1 := m.owner]);
    assert ViewOf(t) == Then(ViewOf(s), m);
  }

  lemma TakingOverKeepsCore(v: View, orig: R.Switch, node: string)
    requires Core(v, orig) && Live(v.rec) && R.CarriesOn(v.rec)
    ensures var rec := R.Taken(v.rec, node); Core(v.(rec := rec, o := Resumed(rec, v.scope)), orig)
  {
  }

  lemma SweepingKeepsCore(v: View, orig: R.Switch)
    requires Core(v, orig) && Live(v.rec)
    ensures Core(v.(rec := R.Orphaned(v.rec)), orig)
  {
  }

  lemma EndingRecordKeepsCore(v: View, orig: R.Switch, c: Canceler)
    requires Core(v, orig) && c.Ending? && EndedBy(c, v.rec).Some?
    ensures Core(v.(rec := EndedBy(c, v.rec).value, endedIn := Some(v.rec.phase)), orig)
  {
  }

  lemma ReleasingKeepsCore(v: View, orig: R.Switch, ended: R.Operation, again: bool)
    requires Core(v, orig) && EndedAs(v, ended) && v.scope.carried
    ensures Core(v.(scope := Released(ended, v.scope), freed := true, undone := v.undone || again), orig)
  {
  }

  lemma CorrectingKeepsCore(v: View, orig: R.Switch)
    requires Core(v, orig) && v.endedIn.Some? && v.rec.Terminal()
    ensures Core(v.(rec := Corrected(v.rec)), orig)
  {
  }

  /** A cancellation's step, from what it keeps of the view and of the other cancellations. */
  lemma CancelKeepsRest(s: State, t: State, k: nat)
    requires Rest(s) && k < |s.cancels| && t.owners == s.owners
    requires |t.cancels| == |s.cancels| && t.cancels == s.cancels[k := t.cancels[k]]
    requires CancelOk(ViewOf(t), t.cancels[k])
    requires forall j | 0 <= j < |s.cancels| && j != k :: CancelOk(ViewOf(t), s.cancels[j])
    requires Active(t.cancels[k]) && !Active(s.cancels[k]) ==> s.endedIn.None?
    ensures Rest(t)
  {
    if Active(t.cancels[k]) && !Active(s.cancels[k]) {
      assert forall j | 0 <= j < |s.cancels| :: CancelOk(ViewOf(s), s.cancels[j]) ==> !Active(s.cancels[j]);
    }
  }

  /** A cancellation moves on, and nothing else changes. */
  lemma MovingOnKeepsInv(s: State, k: nat, c: Canceler, orig: R.Switch)
    requires Inv(s, orig) && k < |s.cancels| && CancelOk(ViewOf(s), c) && (Active(c) ==> Active(s.cancels[k]))
    ensures Inv(s.(cancels := s.cancels[k := c]), orig)
  {
    CancelKeepsRest(s, s.(cancels := s.cancels[k := c]), k);
    assert ViewOf(s.(cancels := s.cancels[k := c])) == ViewOf(s);
  }

  lemma EndingIsOk(v: View, c: Canceler)
    requires c.Ending? && EndedBy(c, v.rec).Some? && !HasHeld(v)
    ensures CancelOk(v.(rec := EndedBy(c, v.rec).value, endedIn := Some(v.rec.phase)), AfterEnd(c, v.rec))
  {
  }

  /** A change in force, or a hold, without a barrier on the record. */
  predicate HasHeld(v: View) {
    (v.rec.barrier.None? && (v.scope.carried || v.scope.inForce)) || v.freed
  }

  lemma EndWritesKeepsInv(s: State, k: nat, orig: R.Switch)
    requires Inv(s, orig) && k < |s.cancels| && s.cancels[k].Ending? && EndedBy(s.cancels[k], s.rec).Some?
    ensures var c := s.cancels[k];
            Inv(s.(rec := EndedBy(c, s.rec).value, endedIn := Some(s.rec.phase),
              cancels := s.cancels[k := AfterEnd(c, s.rec)]), orig)
  {
    var v, c := ViewOf(s), s.cancels[k];
    var rec := EndedBy(c, s.rec).value;
    EndingRecordKeepsCore(v, orig, c);
    EndingIsOk(v, c);
    var t := s.(rec := rec, endedIn := Some(s.rec.phase), cancels := s.cancels[k := AfterEnd(c, s.rec)]);
    forall j | 0 <= j < |s.cancels| && j != k ensures CancelOk(ViewOf(t), s.cancels[j]) {
      UnendedCancels(v, ViewOf(t), s.cancels[j]);
    }
    CancelKeepsRest(s, t, k);
  }

  lemma EndKeepsInv(s: State, step: Step, orig: R.Switch)
    requires Inv(s, orig) && Enabled(s, step) && step.End?
    ensures Inv(After(s, step), orig)
  {
    if EndedBy(s.cancels[step.k], s.rec).Some? {
      EndWritesKeepsInv(s, step.k, orig);
    } else {
      MovingOnKeepsInv(s, step.k, AfterEnd(s.cancels[step.k], s.rec), orig);
    }
  }

  lemma LookingIsOk(v: View, orig: R.Switch, c: Canceler)
    requires Core(v, orig) && CancelOk(v, c)
    ensures c.Looking? || c.Releasing? ==>
              CancelOk(v, Releasing(c.ended)) && (!v.scope.carried ==> CancelOk(v, NotCarried(c.ended)))
    ensures c.LookingAgain? ==> CancelOk(v, ReleasingAgain(c.ended)) && CancelOk(v, Answered(true, false))
  {
  }

  lemma LookKeepsInv(s: State, step: Step, orig: R.Switch)
    requires Inv(s, orig) && Enabled(s, step) && step.Look?
    ensures Inv(After(s, step), orig)
  {
    LookingIsOk(ViewOf(s), orig, s.cancels[step.k]);
    MovingOnKeepsInv(s, step.k, After(s, step).cancels[step.k], orig);
  }

  lemma ReleaseKeepsCancels(v: View, orig: R.Switch, ended: R.Operation, again: bool, c: Canceler)
    requires Core(v, orig) && EndedAs(v, ended) && v.scope.carried && CancelOk(v, c) && (again || !Active(c))
    ensures CancelOk(v.(scope := Released(ended, v.scope), freed := true, undone := v.undone || again), c)
  {
  }

  /** The scope is released and a cancellation moves on, from what that keeps. */
  lemma RescopingKeepsInv(s: State, k: nat, scope: Scope, undone: bool, next: Canceler, orig: R.Switch)
    requires Inv(s, orig) && k < |s.cancels| && !Active(next)
    requires var w := ViewOf(s).(scope := scope, freed := true, undone := undone);
             && Core(w, orig) && CancelOk(w, next)
             && forall j | 0 <= j < |s.cancels| && j != k :: CancelOk(w, s.cancels[j])
    ensures Inv(s.(scope := scope, freed := true, undone := undone, cancels := s.cancels[k := next]), orig)
  {
    CancelKeepsRest(s, s.(scope := scope, freed := true, undone := undone, cancels := s.cancels[k := next]), k);
  }

  lemma ReleasedKeepsInv(s: State, k: nat, next: Canceler, orig: R.Switch)
    requires Inv(s, orig) && k < |s.cancels| && (s.cancels[k].Releasing? || s.cancels[k].ReleasingAgain?)
             && s.scope.carried
    requires next == Dropped || next == Answered(true, s.cancels[k].Releasing?)
    ensures var c := s.cancels[k];
            Inv(s.(scope := Released(c.ended, s.scope), freed := true, undone := s.undone || c.ReleasingAgain?,
              cancels := s.cancels[k := next]), orig)
  {
    var v, c := ViewOf(s), s.cancels[k];
    var again, scope := c.ReleasingAgain?, Released(c.ended, s.scope);
    assert CancelOk(v, c);
    ReleasingKeepsCore(v, orig, c.ended, again);
    ReleasedIsOk(v, orig, c.ended, again, next);
    forall j | 0 <= j < |s.cancels| && j != k
      ensures CancelOk(v.(scope := scope, freed := true, undone := v.undone || again), s.cancels[j]) {
      ReleaseKeepsCancels(v, orig, c.ended, again, s.cancels[j]);
    }
    RescopingKeepsInv(s, k, scope, s.undone || again, next, orig);
  }

  lemma ReleasedIsOk(v: View, orig: R.Switch, ended: R.Operation, again: bool, next: Canceler)
    requires Core(v, orig) && EndedAs(v, ended) && v.scope.carried
             && (next == Dropped || next == Answered(true, !again))
    ensures CancelOk(v.(scope := Released(ended, v.scope), freed := true, undone := v.undone || again), next)
  {
  }

  lemma ReleaseKeepsInv(s: State, step: Step, orig: R.Switch)
    requires Inv(s, orig) && Enabled(s, step) && step.Release?
    ensures Inv(After(s, step), orig)
  {
    var t := After(s, step);
    if s.scope.carried {
      ReleasedKeepsInv(s, step.k, t.cancels[step.k], orig);
    } else {
      LookingIsOk(ViewOf(s), orig, s.cancels[step.k]);
      MovingOnKeepsInv(s, step.k, t.cancels[step.k], orig);
    }
  }

  lemma CorrectKeepsInv(s: State, step: Step, orig: R.Switch)
    requires Inv(s, orig) && Enabled(s, step) && step.Correct?
    ensures Inv(After(s, step), orig)
  {
    var v, w := ViewOf(s), ViewOf(s).(rec := Corrected(s.rec));
    assert CancelOk(v, s.cancels[step.k]);
    CorrectingKeepsCore(v, orig);
    CorrectedKeepsRest(s, step.k);
    assert ViewOf(After(s, step)) == w;
  }

  lemma CorrectingKeepsCancels(v: View, c: Canceler)
    requires CancelOk(v, c) && v.rec.Terminal()
    ensures CancelOk(v.(rec := Corrected(v.rec)), c)
  {
  }

  lemma CorrectedKeepsRest(s: State, k: nat)
    requires Rest(s) && k < |s.cancels| && s.cancels[k].Correcting?
    ensures Rest(s.(rec := Corrected(s.rec), cancels := s.cancels[k := Answered(false, true)]))
  {
    var v := ViewOf(s);
    assert CancelOk(v, s.cancels[k]);
    forall j | 0 <= j < |s.cancels| ensures CancelOk(v.(rec := Corrected(s.rec)), s.cancels[j]) {
      CorrectingKeepsCancels(v, s.cancels[j]);
    }
    CancelKeepsRest(s, s.(rec := Corrected(s.rec), cancels := s.cancels[k := Answered(false, true)]), k);
  }

  /** Before a cancellation has ended the record, none stands on how it ended. */
  lemma UnendedCancels(v: View, w: View, c: Canceler)
    requires CancelOk(v, c) && v.endedIn.None?
    ensures CancelOk(w, c)
  {
  }

  lemma UnendedKeepsInv(s: State, t: State, orig: R.Switch)
    requires Inv(s, orig) && !s.rec.Terminal() && t.cancels == s.cancels
    requires t.owners != [] && Core(ViewOf(t), orig)
    requires forall i | 0 <= i < |t.owners| - 1 :: t.owners[i].pc == Stopped
    ensures Inv(t, orig)
  {
    forall k | 0 <= k < |s.cancels| ensures CancelOk(ViewOf(t), s.cancels[k]) {
      UnendedCancels(ViewOf(s), ViewOf(t), s.cancels[k]);
    }
  }

  lemma TakeOverKeepsInv(s: State, step: Step, orig: R.Switch)
    requires Inv(s, orig) && Enabled(s, step) && step.TakeOver? && AllStopped(s)
    ensures Inv(After(s, step), orig)
  {
    TakingOverKeepsCore(ViewOf(s), orig, step.node);
    UnendedKeepsInv(s, After(s, step), orig);
  }

  lemma SweepKeepsInv(s: State, orig: R.Switch)
    requires Inv(s, orig) && Enabled(s, Sweep)
    ensures Inv(After(s, Sweep), orig)
  {
    SweepingKeepsCore(ViewOf(s), orig);
    RewritingKeepsInv(s, R.Orphaned(s.rec), orig);
  }

  lemma RewritingKeepsInv(s: State, rec: R.Operation, orig: R.Switch)
    requires Inv(s, orig) && !s.rec.Terminal() && Core(ViewOf(s).(rec := rec), orig)
    ensures Inv(s.(rec := rec), orig)
  {
    UnendedKeepsInv(s, s.(rec := rec), orig);
  }

  lemma ArrivingIsOk(v: View, orig: R.Switch, gone: bool)
    requires Core(v, orig)
    ensures CancelOk(v, Arrived(v.rec, gone)) && !Active(Arrived(v.rec, gone))
  {
  }

  lemma AskKeepsInv(s: State, step: Step, orig: R.Switch)
    requires Inv(s, orig) && Enabled(s, step) && step.Ask?
    ensures Inv(After(s, step), orig)
  {
    ArrivingIsOk(ViewOf(s), orig, step.gone);
    AnotherCancelKeepsInv(s, Arrived(s.rec, step.gone), orig);
  }

  lemma AnotherCancelKeepsInv(s: State, c: Canceler, orig: R.Switch)
    requires Inv(s, orig) && CancelOk(ViewOf(s), c) && !Active(c)
    ensures Inv(s.(cancels := s.cancels + [c]), orig)
  {
    AnotherCancelKeepsRest(s, c);
    assert ViewOf(s.(cancels := s.cancels + [c])) == ViewOf(s);
  }

  lemma AnotherCancelKeepsRest(s: State, c: Canceler)
    requires Rest(s) && CancelOk(ViewOf(s), c) && !Active(c)
    ensures Rest(s.(cancels := s.cancels + [c]))
  {
    assert ViewOf(s.(cancels := s.cancels + [c])) == ViewOf(s);
  }

  lemma DropKeepsInv(s: State, step: Step, orig: R.Switch)
    requires Inv(s, orig) && Enabled(s, step) && step.Drop?
    ensures Inv(After(s, step), orig)
  {
    MovingOnKeepsInv(s, step.k, Dropped, orig);
  }

  lemma StepKeepsInv(s: State, step: Step, orig: R.Switch)
    requires Inv(s, orig) && Enabled(s, step) && Guarded(s, step)
    ensures Inv(After(s, step), orig)
  {
    match step
    case Run(_, _, _) => RunKeepsInv(s, step, orig);
    case TakeOver(_) => TakeOverKeepsInv(s, step, orig);
    case Sweep => SweepKeepsInv(s, orig);
    case Ask(_) => AskKeepsInv(s, step, orig);
    case Drop(_) => DropKeepsInv(s, step, orig);
    case End(_) => EndKeepsInv(s, step, orig);
    case Look(_) => LookKeepsInv(s, step, orig);
    case Release(_, _) => ReleaseKeepsInv(s, step, orig);
    case Correct(_) => CorrectKeepsInv(s, step, orig);
  }

  lemma {:induction false} RunsKeepInv(run: seq<State>, steps: seq<Step>, n: nat)
    requires GuardedRun(run, steps) && Initial(run[0]) && n <= |steps|
    ensures Inv(run[n], run[0].scope.switch)
  {
    if n == 0 {
      InitialIsInv(run[0]);
    } else {
      RunsKeepInv(run, steps, n - 1);
      assert StepAt(run, steps, n - 1);
      StepKeepsInv(run[n - 1], steps[n - 1], run[0].scope.switch);
    }
  }

  /** An answer given stands. */
  lemma {:induction false} AnswersStand(run: seq<State>, steps: seq<Step>, i: nat, j: nat, k: nat)
    requires IsRun(run, steps) && i <= j <= |steps| && k < |run[i].cancels| && run[i].cancels[k].Answered?
    ensures k < |run[j].cancels| && run[j].cancels[k] == run[i].cancels[k]
    decreases j
  {
    if i < j {
      AnswersStand(run, steps, i, j - 1, k);
      assert StepAt(run, steps, j - 1);
    }
  }

  // ---------------------------------------------------------------------------------------------
  // The theorems.

  /** A cancellation that ended the record and is answered as canceled is final: at the answer and ever
      after, the operation's change is not in force, even where its owner was wrongly judged gone. */
  lemma CanceledMeansNever(run: seq<State>, steps: seq<Step>, i: nat, j: nat, k: nat)
    requires GuardedRun(run, steps) && Initial(run[0]) && i <= j <= |steps|
    requires k < |run[i].cancels| && run[i].cancels[k] == Answered(true, true)
    ensures !run[j].scope.inForce
  {
    AnswersStand(run, steps, i, j, k);
    RunsKeepInv(run, steps, j);
    assert CancelOk(ViewOf(run[j]), run[j].cancels[k]);
  }

  /** A cancellation that ended the record and is refused leaves it failed with its effect committed,
      for good. What the record then says is true, the change being in force, exactly when no repeated
      cancellation released the hold in between. */
  lemma CorrectedMeansInForce(run: seq<State>, steps: seq<Step>, i: nat, j: nat, k: nat)
    requires GuardedRun(run, steps) && Initial(run[0]) && i <= j <= |steps|
    requires k < |run[i].cancels| && run[i].cancels[k] == Answered(false, true)
    ensures run[j].rec.status == R.Failed && run[j].rec.effect == R.Committed
    ensures run[j].scope.inForce <==> !run[j].undone
  {
    AnswersStand(run, steps, i, j, k);
    RunsKeepInv(run, steps, j);
    assert CancelOk(ViewOf(run[j]), run[j].cancels[k]);
  }

  /** A record ended by a cancellation outside its commit phase is final too, whoever answers: its
      change is never in force. */
  lemma CanceledBeforeCommitMeansNever(run: seq<State>, steps: seq<Step>, i: nat)
    requires GuardedRun(run, steps) && Initial(run[0]) && i <= |steps|
    requires run[i].endedIn.Some? && run[i].endedIn.value != R.Commit
    ensures !run[i].scope.inForce
  {
    RunsKeepInv(run, steps, i);
  }

  predicate Irrevocable(rec: R.Operation) {
    rec.barrier.Some? && (rec.barrier.value.dispatchStarted || rec.barrier.value.committed)
  }

  lemma MovingKeepsIrrevocable(v: View, orig: R.Switch, reject: bool, move: Move, lands: bool)
    requires Core(v, orig) && May(v, move, lands) && Irrevocable(v.rec)
    ensures Irrevocable(OwnerMoves(v.rec, v.scope, v.o, reject, move, lands).rec)
  {
    if v.rec.Terminal() {
      EndedRecordsAreTheOwnersNoMore(v, reject, move, lands);
    }
  }

  lemma StepKeepsIrrevocable(s: State, step: Step, orig: R.Switch)
    requires Inv(s, orig) && Enabled(s, step) && Guarded(s, step) && Irrevocable(s.rec) && s.endedIn.None?
    ensures var t := After(s, step); Irrevocable(t.rec) && t.endedIn.None?
  {
    if step.Run? {
      assert step.i == |s.owners| - 1;
      MovingKeepsIrrevocable(ViewOf(s), orig, s.reject, step.move, step.lands);
    }
  }

  /** What says that a purge may have begun to delete, or has its change in force, never goes back. */
  lemma {:induction false} IrrevocableStays(run: seq<State>, steps: seq<Step>, i: nat, j: nat)
    requires GuardedRun(run, steps) && Initial(run[0]) && i <= j <= |steps| && Irrevocable(run[i].rec)
             && run[i].endedIn.None?
    ensures Irrevocable(run[j].rec) && run[j].endedIn.None?
    decreases j
  {
    if i < j {
      IrrevocableStays(run, steps, i, j - 1);
      RunsKeepInv(run, steps, j - 1);
      assert StepAt(run, steps, j - 1);
      StepKeepsIrrevocable(run[j - 1], steps[j - 1], run[0].scope.switch);
    }
  }

  /** The final write of a run's barrier sets its committed mark, and clears the dispatch mark if and
      only if the run began without one. */
  lemma FinalWriteKeepsDispatchExactly(v: View, orig: R.Switch, reject: bool)
    requires Core(v, orig) && v.o.pc == RecordCommit && !v.o.lost && Live(v.rec)
    ensures var rec := Advance(v.rec, v.scope, v.o, reject, true).rec;
            Irrevocable(rec) && rec.barrier.value.committed && (DispatchRecorded(rec) <==> v.o.began)
  {
  }

  // ---------------------------------------------------------------------------------------------
  // Purges.

  /** A delete as it should be: the source's hold is on the scope, its drain passed with an empty diff
      since that hold was written, and the unfinished record says deletes may have begun. */
  predicate Ordered(s: State) {
    s.scope.carried && s.scope.proven && DispatchRecorded(s.rec) && !s.rec.Terminal()
  }

  /** Deletes go on under a record that a cancellation ended, or does not yet say that they may. */
  predicate Slipping(v: View) {
    Deleting(v.o.pc) && (v.endedIn.Some? || Unmarked(v.rec, v.o))
  }

  lemma MovesSlip(v: View, orig: R.Switch, reject: bool, move: Move, lands: bool)
    requires Core(v, orig) && May(v, move, lands)
    ensures Slipping(Then(v, OwnerMoves(v.rec, v.scope, v.o, reject, move, lands))) ==>
              Slipping(v) || (move == Next && !lands)
  {
    if move == Next {
      AdvancesSlip(v, orig, reject, lands);
    }
  }

  lemma AdvancesSlip(v: View, orig: R.Switch, reject: bool, lands: bool)
    requires Core(v, orig) && May(v, Next, lands)
    ensures Slipping(Then(v, Advance(v.rec, v.scope, v.o, reject, lands))) ==> Slipping(v) || !lands
  {
    if v.o.pc == Dispatch || Deleting(v.o.pc) {
      DeletesSlip(v, orig, reject, lands);
    }
  }

  lemma DeletesSlip(v: View, orig: R.Switch, reject: bool, lands: bool)
    requires Core(v, orig) && May(v, Next, lands) && (v.o.pc == Dispatch || Deleting(v.o.pc))
    ensures Slipping(Then(v, Advance(v.rec, v.scope, v.o, reject, lands))) ==> Slipping(v) || !lands
  {
  }

  lemma EndsSlip(v: View, orig: R.Switch, c: Canceler)
    requires Core(v, orig) && c.Ending? && EndedBy(c, v.rec).Some?
    ensures Deleting(v.o.pc) ==> Slipping(v)
  {
  }

  lemma RecordStepsSlip(v: View, orig: R.Switch, rec: R.Operation)
    requires Core(v, orig) && rec.barrier == v.rec.barrier
    ensures Slipping(v.(rec := rec)) ==> Slipping(v)
  {
  }

  lemma StepsSlip(s: State, step: Step, orig: R.Switch)
    requires Inv(s, orig) && Enabled(s, step) && Guarded(s, step) && Slipping(ViewOf(After(s, step)))
    ensures |After(s, step).owners| == |s.owners|
    ensures Slipping(ViewOf(s)) || (step == Run(|s.owners| - 1, Next, false) && s.owners[|s.owners| - 1].pc == Dispatch)
  {
    match step
    case Run(_, _, _) => RunsOfOwnersSlip(s, step, orig);
    case End(_) => EndingsSlip(s, step, orig);
    case Look(_) => CancellationsSlip(s, step);
    case Release(_, _) => CancellationsSlip(s, step);
    case Correct(_) => CancellationsSlip(s, step);
    case Sweep => RecordStepsSlip(ViewOf(s), orig, R.Orphaned(s.rec));
    case TakeOver(node) => ResumedDeleteNothing(R.Taken(s.rec, node), s.scope);
    case _ =>
  }

  lemma ResumedDeleteNothing(rec: R.Operation, scope: Scope)
    ensures !Deleting(Resumed(rec, scope).pc)
  {
  }

  lemma RunsOfOwnersSlip(s: State, step: Step, orig: R.Switch)
    requires Inv(s, orig) && Enabled(s, step) && Guarded(s, step) && step.Run?
    ensures Slipping(ViewOf(After(s, step))) ==>
              Slipping(ViewOf(s)) || (step == Run(|s.owners| - 1, Next, false)
                && s.owners[|s.owners| - 1].pc == Dispatch)
  {
    assert step.i == |s.owners| - 1;
    MovesSlip(ViewOf(s), orig, s.reject, step.move, step.lands);
  }

  lemma EndingsSlip(s: State, step: Step, orig: R.Switch)
    requires Inv(s, orig) && Enabled(s, step) && step.End?
    ensures Slipping(ViewOf(After(s, step))) ==> Slipping(ViewOf(s))
  {
    var v, w := ViewOf(s), ViewOf(After(s, step));
    if EndedBy(s.cancels[step.k], s.rec).Some? {
      EndsSlip(v, orig, s.cancels[step.k]);
      assert w.o == v.o;
    } else {
      assert w == v;
    }
  }

  /** A cancellation past its end of the record moves no owner. */
  lemma CancellationsSlip(s: State, step: Step)
    requires Rest(s) && Enabled(s, step) && (step.Look? || step.Release? || step.Correct?)
    requires Slipping(ViewOf(After(s, step)))
    ensures Slipping(ViewOf(s))
  {
    assert CancelOk(ViewOf(s), s.cancels[step.k]);
    assert ViewOf(s).endedIn.Some? && ViewOf(s).o == ViewOf(After(s, step)).o;
  }

  /** Some dispatch write of this owner's did not land. */
  ghost predicate Missed(run: seq<State>, steps: seq<Step>, n: nat, i: nat) {
    exists d | 0 <= d < n && d < |steps| && d < |run| ::
      steps[d] == Run(i, Next, false) && i < |run[d].owners| && run[d].owners[i].pc == Dispatch
  }

  lemma RunsSlip(run: seq<State>, steps: seq<Step>, n: nat)
    requires GuardedRun(run, steps) && Initial(run[0]) && n < |steps| && run[n + 1].owners != []
             && Slipping(ViewOf(run[n + 1]))
    ensures run[n].owners != [] && |run[n].owners| == |run[n + 1].owners|
    ensures Slipping(ViewOf(run[n]))
            || (steps[n] == Run(|run[n].owners| - 1, Next, false) && run[n].owners[|run[n].owners| - 1].pc == Dispatch)
  {
    RunsKeepInv(run, steps, n);
    assert StepAt(run, steps, n);
    StepsSlip(run[n], steps[n], run[0].scope.switch);
  }

  lemma {:induction false} SlippingMissed(run: seq<State>, steps: seq<Step>, n: nat)
    requires GuardedRun(run, steps) && Initial(run[0]) && n <= |steps| && run[n].owners != []
             && Slipping(ViewOf(run[n]))
    ensures Missed(run, steps, n, |run[n].owners| - 1)
  {
    if n > 0 {
      RunsSlip(run, steps, n - 1);
      if Slipping(ViewOf(run[n - 1])) {
        SlippingMissed(run, steps, n - 1);
        MissedStill(run, steps, n - 1, |run[n].owners| - 1);
      }
    }
  }

  lemma MissedStill(run: seq<State>, steps: seq<Step>, n: nat, i: nat)
    requires Missed(run, steps, n, i)
    ensures Missed(run, steps, n + 1, i)
  {
  }

  /** No cancellation ended the record, and none can any more. */
  predicate PastCancellation(rec: R.Operation) {
    rec.status != R.Cancelled && !R.Cancellable(rec, true) && !R.Cancellable(rec, false)
  }

  lemma NoCancellationIsLeft(run: seq<State>, steps: seq<Step>, i: nat, j: nat)
    requires GuardedRun(run, steps) && Initial(run[0]) && i <= j <= |steps| && Irrevocable(run[i].rec)
             && run[i].endedIn.None?
    ensures PastCancellation(run[j].rec)
  {
    IrrevocableStays(run, steps, i, j);
    RunsKeepInv(run, steps, j);
  }

  lemma OrderedUnlessCanceled(run: seq<State>, steps: seq<Step>, i: nat)
    requires GuardedRun(run, steps) && Initial(run[0]) && i < |steps| && steps[i].Run? && steps[i].move == DeleteAnother
    ensures run[i].owners != [] && steps[i].i == |run[i].owners| - 1 && Deleting(run[i].owners[steps[i].i].pc)
    ensures Ordered(run[i]) <==> run[i].endedIn.None?
  {
    RunsKeepInv(run, steps, i);
    assert StepAt(run, steps, i);
  }

  /** Exactly when a delete is as it should be, a purge's dispatch write being allowed to fail: when no
      cancellation has ended the record. From then on none can. One that did came where the dispatch
      write of the run that deletes did not land. */
  lemma DeletesAreOrderedExactly(run: seq<State>, steps: seq<Step>, i: nat)
    requires GuardedRun(run, steps) && Initial(run[0]) && i < |steps| && steps[i].Run? && steps[i].move == DeleteAnother
    ensures Ordered(run[i]) <==> run[i].endedIn.None?
    ensures !Ordered(run[i]) ==> Missed(run, steps, i, steps[i].i)
    ensures Ordered(run[i]) ==> forall j | i <= j <= |steps| :: PastCancellation(run[j].rec)
  {
    OrderedUnlessCanceled(run, steps, i);
    if run[i].endedIn.Some? {
      SlippingMissed(run, steps, i);
    } else {
      forall j | i <= j <= |steps| ensures PastCancellation(run[j].rec) {
        NoCancellationIsLeft(run, steps, i, j);
      }
    }
  }

  /** Purge ordering. With every write landing or refused as stale, each delete is as it should be, and
      from then on no cancellation can end the record. */
  lemma PurgeOrdering(run: seq<State>, steps: seq<Step>, i: nat, j: nat)
    requires OrderlyRun(run, steps) && Initial(run[0]) && i <= j <= |steps| && i < |steps|
    requires steps[i].Run? && steps[i].move == DeleteAnother
    ensures Ordered(run[i]) && PastCancellation(run[j].rec)
  {
    OrderlyRunsAreGuarded(run, steps);
    DeletesAreOrderedExactly(run, steps, i);
  }

  lemma OrderlyRunsAreGuarded(run: seq<State>, steps: seq<Step>)
    requires OrderlyRun(run, steps) && Initial(run[0])
    ensures GuardedRun(run, steps)
  {
    forall i | 0 <= i < |steps| ensures Guarded(run[i], steps[i]) {
      OrderlyStepsAreGuarded(run, steps, i);
    }
  }

  lemma {:induction false} OrderlyStepsAreGuarded(run: seq<State>, steps: seq<Step>, n: nat)
    requires OrderlyRun(run, steps) && Initial(run[0]) && n < |steps|
    ensures Inv(run[n], run[0].scope.switch) && !Slipping(ViewOf(run[n])) && Guarded(run[n], steps[n])
  {
    if n == 0 {
      InitialIsInv(run[0]);
    } else {
      OrderlyStepsAreGuarded(run, steps, n - 1);
      assert StepAt(run, steps, n - 1);
      StepKeepsInv(run[n - 1], steps[n - 1], run[0].scope.switch);
      if Slipping(ViewOf(run[n])) {
        StepsSlip(run[n - 1], steps[n - 1], run[0].scope.switch);
      }
    }
    assert StepAt(run, steps, n);
    OrderlyIsGuarded(run[n], steps[n], run[0].scope.switch);
  }

  lemma OrderlyIsGuarded(s: State, step: Step, orig: R.Switch)
    requires Inv(s, orig) && !Slipping(ViewOf(s)) && Enabled(s, step) && Orderly(s, step)
    ensures Guarded(s, step)
  {
    if step.Run? {
      assert step.i == |s.owners| - 1;
    }
  }

  // ---------------------------------------------------------------------------------------------
  // Records that end with their scope held.

  /** A step, other than a cancellation's, ends the record and leaves the hold on its scope. */
  predicate EndsHeld(s: State, step: Step, t: State) {
    !step.End? && !s.rec.Terminal() && t.rec.Terminal() && t.scope.carried
  }

  /** A run meets an error with its hold on the scope before its change is committed or, for a purge,
      before its deletes may have begun: a resumed one already before it comes to write the hold; or its
      hold lands and the answer is lost. */
  predicate ErrsHeld(scope: Scope, o: Owner, move: Move) {
    && !o.lost
    && match o.pc
       case EnterHold => move == Refused && scope.carried
       case WriteHold => move == Unanswered || (move == Refused && scope.carried)
       case LookCarried => move == Refused && scope.carried
       case Commit => move == Refused && scope.carried && !Dispatched(o)
       case _ => false
  }

  lemma MovesEndHeldExactly(v: View, orig: R.Switch, reject: bool, move: Move, lands: bool)
    requires Core(v, orig) && May(v, move, lands) && Live(v.rec)
    ensures var m := OwnerMoves(v.rec, v.scope, v.o, reject, move, lands);
            && (m.rec.Terminal() && m.scope.carried <==> ErrsHeld(v.scope, v.o, move))
            && (ErrsHeld(v.scope, v.o, move) ==> m.rec.status == R.Failed && m.owner.pc == Stopped)
  {
    if move == Next {
      AdvancesEndReleased(v, orig, reject, lands);
    }
  }

  lemma AdvancesEndReleased(v: View, orig: R.Switch, reject: bool, lands: bool)
    requires Core(v, orig) && May(v, Next, lands) && Live(v.rec)
    ensures var m := Advance(v.rec, v.scope, v.o, reject, lands); m.rec.Terminal() ==> !m.scope.carried
  {
  }

  /** Exactly when a record ends with its hold left on the scope, other than by a cancellation, which
      releases it: when its run, for any kind of operation and however often resumed, meets an error as
      `ErrsHeld` says. A sweep, a take-over or a run that goes as it should never leaves one. */
  lemma EndsHeldExactly(run: seq<State>, steps: seq<Step>, n: nat)
    requires GuardedRun(run, steps) && Initial(run[0]) && n < |steps|
    ensures EndsHeld(run[n], steps[n], run[n + 1]) <==>
            && steps[n].Run? && !run[n].rec.Terminal() && steps[n].i < |run[n].owners|
            && ErrsHeld(run[n].scope, run[n].owners[steps[n].i], steps[n].move)
  {
    RunsKeepInv(run, steps, n);
    assert StepAt(run, steps, n);
    StepEndsHeldExactly(run[n], steps[n], run[0].scope.switch);
  }

  lemma StepEndsHeldExactly(s: State, step: Step, orig: R.Switch)
    requires Inv(s, orig) && Enabled(s, step) && Guarded(s, step)
    ensures EndsHeld(s, step, After(s, step)) <==>
            step.Run? && !s.rec.Terminal() && ErrsHeld(s.scope, s.owners[step.i], step.move)
    ensures EndsHeld(s, step, After(s, step)) ==> Abandoned(After(s, step))
  {
    if step.Run? {
      RunEndsHeldExactly(s, step, orig);
    }
  }

  lemma RunEndsHeldExactly(s: State, step: Step, orig: R.Switch)
    requires Inv(s, orig) && Enabled(s, step) && Guarded(s, step) && step.Run?
    ensures EndsHeld(s, step, After(s, step)) <==> !s.rec.Terminal() && ErrsHeld(s.scope, s.owners[step.i], step.move)
    ensures EndsHeld(s, step, After(s, step)) ==> Abandoned(After(s, step))
  {
    if !s.rec.Terminal() {
      assert step.i == |s.owners| - 1;
      MovesEndHeldExactly(ViewOf(s), orig, s.reject, step.move, step.lands);
    }
  }

  /** The record failed, its scope is held, and nothing runs it. */
  predicate Abandoned(s: State) {
    s.rec.status == R.Failed && s.endedIn.None? && s.scope.carried && AllStopped(s)
  }

  lemma StepKeepsAbandoned(s: State, step: Step, orig: R.Switch)
    requires Inv(s, orig) && Enabled(s, step) && Abandoned(s)
    ensures Abandoned(After(s, step))
  {
    if step.Look? || step.Release? || step.Correct? {
      assert CancelOk(ViewOf(s), s.cancels[step.k]);
    }
  }

  lemma AbandonedStays(run: seq<State>, steps: seq<Step>, n: nat)
    requires GuardedRun(run, steps) && Initial(run[0]) && n < |steps|
    requires Abandoned(run[n]) || EndsHeld(run[n], steps[n], run[n + 1])
    ensures Abandoned(run[n + 1])
  {
    RunsKeepInv(run, steps, n);
    assert StepAt(run, steps, n);
    if Abandoned(run[n]) {
      StepKeepsAbandoned(run[n], steps[n], run[0].scope.switch);
    } else {
      StepEndsHeldExactly(run[n], steps[n], run[0].scope.switch);
    }
  }

  lemma {:induction false} AbandonedForGood(run: seq<State>, steps: seq<Step>, n: nat, j: nat)
    requires GuardedRun(run, steps) && Initial(run[0]) && n < j <= |steps| && EndsHeld(run[n], steps[n], run[n + 1])
    ensures Abandoned(run[j])
    decreases j
  {
    if n + 1 < j {
      AbandonedForGood(run, steps, n, j - 1);
    }
    AbandonedStays(run, steps, j - 1);
  }

  /** It stays so: nothing releases the hold, and every cancellation is refused. */
  lemma HeldForGood(run: seq<State>, steps: seq<Step>, n: nat, j: nat, gone: bool)
    requires GuardedRun(run, steps) && Initial(run[0]) && n < j <= |steps| && EndsHeld(run[n], steps[n], run[n + 1])
    ensures run[j].scope.carried && run[j].rec.status == R.Failed && Arrived(run[j].rec, gone) == Answered(false, false)
  {
    AbandonedForGood(run, steps, n, j);
  }

  /** At the moment a cancellation that ended the record is answered as canceled, its hold is off the
      scope and the switch is as it stood before the operation, or as a release of that writes it. */
  lemma CancelRestores(run: seq<State>, steps: seq<Step>, i: nat, k: nat)
    requires GuardedRun(run, steps) && Initial(run[0]) && i < |steps|
    requires k < |run[i + 1].cancels| && run[i + 1].cancels[k] == Answered(true, true)
    requires k < |run[i].cancels| && !run[i].cancels[k].Answered?
    ensures !run[i + 1].scope.carried && !run[i + 1].scope.inForce
    ensures var orig := run[0].scope.switch;
            && (run[i + 1].scope.switch == orig || run[i + 1].scope.switch == Restored(orig))
            && ((orig.reject ==> orig.readOnly) ==> run[i + 1].scope.switch == orig)
  {
    RunsKeepInv(run, steps, i);
    RunsKeepInv(run, steps, i + 1);
    assert StepAt(run, steps, i);
    AnswersUnheld(run[i], steps[i], run[0].scope.switch, k);
    SwitchIsRestored(ViewOf(run[i + 1]), run[0].scope.switch);
  }

  lemma SwitchIsRestored(v: View, orig: R.Switch)
    requires Core(v, orig) && !v.scope.carried && !v.scope.inForce
    ensures v.scope.switch == orig || v.scope.switch == Restored(orig)
    ensures (orig.reject ==> orig.readOnly) ==> v.scope.switch == orig
  {
  }

  lemma AnswersUnheld(s: State, step: Step, orig: R.Switch, k: nat)
    requires Inv(s, orig) && Enabled(s, step) && k < |s.cancels| && !s.cancels[k].Answered?
    requires k < |After(s, step).cancels| && After(s, step).cancels[k] == Answered(true, true)
    ensures !After(s, step).scope.carried && !After(s, step).scope.inForce
  {
    assert CancelOk(ViewOf(s), s.cancels[k]);
  }

  /** A release writes the switch exactly as it stood if and only if it rejected nothing while it was
      off. */
  lemma ReleaseIsExact(s: State, orig: R.Switch, ended: R.Operation)
    requires Inv(s, orig) && SwitchesReadOnly(s.rec.kind) && EndedAs(ViewOf(s), ended)
    ensures Released(ended, s.scope).switch == orig <==> (orig.reject ==> orig.readOnly)
  {
  }
}
