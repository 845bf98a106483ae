/** Where the barrier's promises end (internal/control/barrier.go): exactly when a canceled change can
still take force, when a hold can come back, and runs on which a repeated cancellation, a correction
or a purge says or does what it should not. */
module BarrierLimits {
  import opened Basics
  import opened BarrierRun
  import opened BarrierSafety
  import R = Records

  /** How a run goes: its record writes land or are refused; and no record is taken over from an owner
      that runs; or that, with a purge's dispatch write allowed to fail. */
  datatype Manner = Landing | Orderly | Guarded

  predicate Allowed(s: State, step: Step, how: Manner) {
    && Enabled(s, step)
    && match how
       case Landing => step.Run? ==> step.lands
       case Orderly => BarrierRun.Orderly(s, step)
       case Guarded => BarrierRun.Guarded(s, step)
  }

  /** `t` is reached from `s` by these steps. */
  ghost predicate Plays(s: State, steps: seq<Step>, t: State, how: Manner)
    decreases |steps|
  {
    if steps == [] then t == s
    else
      var n := |steps| - 1;
      exists m :: Plays(s, steps[..n], m, how) && Allowed(m, steps[n], how) && t == After(m, steps[n])
  }

  ghost predicate Reaches(s: State, t: State, how: Manner) {
    exists steps :: Plays(s, steps, t, how)
  }

  lemma ReachesItself(s: State, how: Manner)
    ensures Reaches(s, s, how)
  {
    assert Plays(s, [], s, how);
  }

  lemma OneMore(s: State, m: State, step: Step, how: Manner)
    requires Reaches(s, m, how) && Allowed(m, step, how)
    ensures Reaches(s, After(m, step), how)
  {
    var steps :| Plays(s, steps, m, how);
    PlaysOn(s, steps, m, step, After(m, step), how);
  }

  lemma PlaysOn(s: State, steps: seq<Step>, m: State, step: Step, t: State, how: Manner)
    requires Plays(s, steps, m, how) && Allowed(m, step, how) && t == After(m, step)
    ensures Plays(s, steps + [step], t, how)
  {
    assert (steps + [step])[..|steps|] == steps;
  }

  /** What is played is a run. */
  lemma {:induction false} PlayedIsARun(s: State, steps: seq<Step>, t: State) returns (run: seq<State>)
    requires Plays(s, steps, t, Orderly)
    ensures OrderlyRun(run, steps) && run[0] == s && run[|steps|] == t
    decreases |steps|
  {
    if steps == [] {
      run := [s];
    } else {
      var n := |steps| - 1;
      var m :| Plays(s, steps[..n], m, Orderly) && Allowed(m, steps[n], Orderly) && t == After(m, steps[n]);
      var before := PlayedIsARun(s, steps[..n], m);
      LongerRun(before, steps[..n], steps[n], t);
      assert steps == steps[..n] + [steps[n]];
      run := before + [t];
    }
  }

  lemma LongerRun(run: seq<State>, steps: seq<Step>, step: Step, t: State)
    requires OrderlyRun(run, steps) && Allowed(run[|steps|], step, Orderly) && t == After(run[|steps|], step)
    ensures OrderlyRun(run + [t], steps + [step])
  {
    var run', steps' := run + [t], steps + [step];
    forall i | 0 <= i < |steps'| ensures StepAt(run', steps', i) && BarrierRun.Orderly(run'[i], steps'[i]) {
      if i < |steps| {
        assert StepAt(run, steps, i) && run'[i] == run[i] && run'[i + 1] == run[i + 1] && steps'[i] == steps[i];
      }
    }
  }

  // ---------------------------------------------------------------------------------------------
  // A canceled change taking force.

  /** About to write its hold, with no record write in between. */
  predicate AtHold(o: Owner) {
    o.pc == WriteHold || (o.pc == EnterHold && !o.lost && o.phase == R.Hold)
  }

  /** The owner reaches its directory write, its record having ended: no record write is on the way. */
  predicate Poised(kind: R.Kind, o: Owner) {
    match o.pc
    case Commit => !Purges(kind) || Dispatched(o)
    case EnterCommit => !o.lost && o.phase == R.Commit && (!Purges(kind) || Dispatched(o))
    case _ => Deleting(o.pc)
  }

  /** A resumed run that has not looked at its scope yet, of a record already in its commit phase. */
  predicate Nearly(kind: R.Kind, o: Owner) {
    o.pc == LookCarried && !o.lost && o.phase == R.Commit && (!Purges(kind) || Dispatched(o))
  }

  ghost predicate SomePoised(s: State) {
    exists i | 0 <= i < |s.owners| :: Poised(s.rec.kind, s.owners[i])
  }

  ghost predicate SomeNearly(s: State) {
    exists i | 0 <= i < |s.owners| :: Nearly(s.rec.kind, s.owners[i])
  }

  ghost predicate SomeAtHold(s: State) {
    exists i | 0 <= i < |s.owners| :: AtHold(s.owners[i])
  }

  /** Some run is past its last record write before the commit, and the hold is on the scope or
      another run is about to write it. */
  ghost predicate Danger(s: State) {
    (SomePoised(s) && s.scope.carried) || ((SomePoised(s) || SomeNearly(s)) && SomeAtHold(s))
  }

  /** A run drains in its drain phase. */
  ghost predicate DrainsInPhase(s: State) {
    forall i | 0 <= i < |s.owners| && s.owners[i].pc == Drain :: s.owners[i].phase == R.Drain
  }

  ghost predicate Spent(s: State) {
    s.rec.Terminal() && !s.scope.inForce && !Danger(s) && DrainsInPhase(s)
  }

  /** What an owner of an ended record does: it comes no nearer to a directory write than it was. */
  ghost predicate NoNearer(rec: R.Operation, scope: Scope, o: Owner, m: Moved) {
    && m.rec == rec
    && (Poised(rec.kind, m.owner) ==> Poised(rec.kind, o) || (Nearly(rec.kind, o) && !scope.carried))
    && (Nearly(rec.kind, m.owner) ==> Nearly(rec.kind, o))
    && (AtHold(m.owner) ==> AtHold(o))
    && (m.scope.carried && !scope.carried ==> AtHold(o) && !Poised(rec.kind, m.owner) && !Nearly(rec.kind, m.owner))
    && (m.scope.inForce && !scope.inForce ==> Poised(rec.kind, o) && scope.carried)
    && (m.owner.pc == Drain ==> m.owner.phase == R.Drain)
  }

  lemma EndedOwnersAdvance(rec: R.Operation, scope: Scope, o: Owner, reject: bool)
    requires rec.Terminal() && (o.pc == Drain ==> o.phase == R.Drain)
    ensures NoNearer(rec, scope, o, Advance(rec, scope, o, reject, true))
  {
    AdvanceIsOwnWrite(rec, scope, o, reject, true);
    if Undrained(o.pc) {
      EndedUndrainedAdvance(rec, scope, o, reject);
    } else {
      EndedDrainedAdvance(rec, scope, o, reject);
    }
  }

  lemma EndedUndrainedAdvance(rec: R.Operation, scope: Scope, o: Owner, reject: bool)
    requires rec.Terminal() && (o.pc == Drain ==> o.phase == R.Drain) && Undrained(o.pc)
    requires Advance(rec, scope, o, reject, true).rec == rec
    ensures NoNearer(rec, scope, o, Advance(rec, scope, o, reject, true))
  {
  }

  lemma EndedDrainedAdvance(rec: R.Operation, scope: Scope, o: Owner, reject: bool)
    requires rec.Terminal() && !Undrained(o.pc)
    requires Advance(rec, scope, o, reject, true).rec == rec
    ensures NoNearer(rec, scope, o, Advance(rec, scope, o, reject, true))
  {
    if Deleting(o.pc) {
      EndedDeletingAdvance(rec, scope, o, reject);
    } else if o.pc == Commit {
      EndedCommitAdvance(rec, scope, o, reject);
    }
  }

  lemma EndedCommitAdvance(rec: R.Operation, scope: Scope, o: Owner, reject: bool)
    requires rec.Terminal() && o.pc == Commit
    requires Advance(rec, scope, o, reject, true).rec == rec
    ensures NoNearer(rec, scope, o, Advance(rec, scope, o, reject, true))
  {
  }

  lemma EndedDeletingAdvance(rec: R.Operation, scope: Scope, o: Owner, reject: bool)
    requires rec.Terminal() && Deleting(o.pc)
    requires Advance(rec, scope, o, reject, true).rec == rec
    ensures NoNearer(rec, scope, o, Advance(rec, scope, o, reject, true))
  {
  }

  lemma EndedOwnersFail(rec: R.Operation, scope: Scope, o: Owner)
    requires rec.Terminal() && (o.pc == Drain ==> o.phase == R.Drain)
    ensures NoNearer(rec, scope, o, Fail(rec, scope, o, true))
  {
    PutsAreOwnWrites(rec, o, true);
    match o.pc
    case Commit | Delete | Write =>
      if Dispatched(o) {
        EndedOwnersRetry(rec, scope, o);
      } else {
        EndedOwnersEnd(rec, scope, o);
      }
    case Intend | EnterHold | WriteHold | LookCarried | Finish => EndedOwnersEnd(rec, scope, o);
    case _ =>
  }

  lemma EndedOwnersRetry(rec: R.Operation, scope: Scope, o: Owner)
    requires rec.Terminal() && (o.pc == Commit || o.pc == Delete || o.pc == Write) && Dispatched(o)
    ensures NoNearer(rec, scope, o, Checked(Put(rec, o, true), scope, Commit))
  {
    PutsAreOwnWrites(rec, o, true);
  }

  lemma EndedOwnersEnd(rec: R.Operation, scope: Scope, o: Owner)
    requires rec.Terminal()
    ensures NoNearer(rec, scope, o, Ended(Finished(rec, o, R.Failed, true), scope))
  {
    PutsAreOwnWrites(rec, o, true);
  }

  lemma EndedOwnersMove(rec: R.Operation, scope: Scope, o: Owner, reject: bool, move: Move)
    requires rec.Terminal() && (move == Unanswered ==> MayGoUnanswered(rec.kind, o))
             && (o.pc == Drain ==> o.phase == R.Drain)
    ensures NoNearer(rec, scope, o, OwnerMoves(rec, scope, o, reject, move, true))
  {
    match move
    case Next => EndedOwnersAdvance(rec, scope, o, reject);
    case Refused => EndedOwnersFail(rec, scope, o);
    case Unanswered =>
      EndedOwnersFail(rec, scope, o);
      EndedOwnersFail(rec, Landed(rec.kind, scope, o, reject), o);
    case _ => PutsAreOwnWrites(rec, o, true);
  }

  lemma RunKeepsSpent(s: State, step: Step)
    requires Spent(s) && Enabled(s, step) && step.Run? && step.lands
    ensures Spent(After(s, step))
  {
    var o, t := s.owners[step.i], After(s, step);
    EndedOwnersMove(s.rec, s.scope, o, s.reject, step.move);
    assert t.owners == s.owners[step.i := t.owners[step.i]];
    if SomePoised(t) {
      var i :| 0 <= i < |t.owners| && Poised(t.rec.kind, t.owners[i]);
      assert i != step.i ==> t.owners[i] == s.owners[i];
    }
    if SomeNearly(t) {
      var i :| 0 <= i < |t.owners| && Nearly(t.rec.kind, t.owners[i]);
      assert i != step.i ==> t.owners[i] == s.owners[i];
    }
    if SomeAtHold(t) {
      var i :| 0 <= i < |t.owners| && AtHold(t.owners[i]);
      assert i != step.i ==> t.owners[i] == s.owners[i];
    }
  }

  lemma StepKeepsSpent(s: State, step: Step)
    requires Spent(s) && Allowed(s, step, Landing)
    ensures Spent(After(s, step))
  {
    if step.Run? {
      RunKeepsSpent(s, step);
    } else {
      var t := After(s, step);
      assert t.owners == s.owners && t.rec.kind == s.rec.kind;
      assert SomePoised(t) == SomePoised(s) && SomeNearly(t) == SomeNearly(s) && SomeAtHold(t) == SomeAtHold(s);
    }
  }

  lemma {:induction false} SpentStays(s: State, steps: seq<Step>, t: State)
    requires Spent(s) && Plays(s, steps, t, Landing)
    ensures Spent(t)
    decreases |steps|
  {
    if steps != [] {
      var n := |steps| - 1;
      var m :| Plays(s, steps[..n], m, Landing) && Allowed(m, steps[n], Landing) && t == After(m, steps[n]);
      SpentStays(s, steps[..n], m);
      StepKeepsSpent(m, steps[n]);
    }
  }

  // The other way: from danger, the steps that put the change in force.

  ghost predicate CanTakeForce(s: State) {
    exists t :: Reaches(s, t, Landing) && t.scope.inForce
  }

  function Distance(pc: Pc): nat {
    match pc
    case EnterCommit => 6
    case Commit => 5
    case EnterDelete => 4
    case Delete => 3
    case LeaveDelete => 2
    case _ => 1
  }

  lemma {:induction false} PoisedTakesForce(from: State, s: State, i: nat)
    requires Reaches(from, s, Landing)
    requires s.rec.Terminal() && s.scope.carried && i < |s.owners| && Poised(s.rec.kind, s.owners[i])
    ensures CanTakeForce(from)
    decreases Distance(s.owners[i].pc)
  {
    var step := Run(i, Next, true);
    var t := After(s, step);
    OneMore(from, s, step, Landing);
    if !t.scope.inForce {
      PoisedTakesForce(from, t, i);
    }
  }

  /** A run about to write its hold writes it, for one that is ready to commit. */
  lemma {:induction false} HeldForPoised(from: State, s: State, i: nat, j: nat)
    requires Reaches(from, s, Landing)
    requires s.rec.Terminal() && !s.scope.carried
    requires i < |s.owners| && Poised(s.rec.kind, s.owners[i]) && j < |s.owners| && AtHold(s.owners[j])
    ensures CanTakeForce(from)
    decreases s.owners[j].pc == EnterHold
  {
    var step := Run(j, Next, true);
    var t := After(s, step);
    OneMore(from, s, step, Landing);
    if s.owners[j].pc == EnterHold {
      HeldForPoised(from, t, i, j);
    } else {
      PoisedTakesForce(from, t, i);
    }
  }

  lemma HeldForNearly(from: State, s: State, i: nat, j: nat)
    requires Reaches(from, s, Landing)
    requires s.rec.Terminal() && !s.scope.carried
    requires i < |s.owners| && Nearly(s.rec.kind, s.owners[i]) && j < |s.owners| && AtHold(s.owners[j])
    ensures CanTakeForce(from)
  {
    var step := Run(i, Next, true);
    OneMore(from, s, step, Landing);
    HeldForPoised(from, After(s, step), i, j);
  }

  /** The hold is on the scope: a repeated cancellation takes it off first. */
  lemma ReleasedForNearly(s: State, i: nat, j: nat)
    requires s.rec.status == R.Cancelled && s.rec.barrier.Some? && s.scope.carried
    requires i < |s.owners| && Nearly(s.rec.kind, s.owners[i]) && j < |s.owners| && AtHold(s.owners[j])
    ensures CanTakeForce(s)
  {
    var k := |s.cancels|;
    var a := After(s, Ask(true));
    var b := After(a, Look(k));
    var c := After(b, Release(k, true));
    ReachesItself(s, Landing);
    OneMore(s, s, Ask(true), Landing);
    OneMore(s, a, Look(k), Landing);
    OneMore(s, b, Release(k, true), Landing);
    HeldForNearly(s, c, i, j);
  }

  /** Exactly when the change of a canceled record can still take force, its writes landing or being
      refused: when a run is past its last record write before the commit, and the hold is on the
      scope or another run is about to write it. The second takes two owners of one record running at
      once. */
  lemma CanceledTakesForceExactly(s: State)
    requires s.rec.status == R.Cancelled && s.rec.barrier.Some? && !s.scope.inForce && DrainsInPhase(s)
    ensures CanTakeForce(s) <==> Danger(s)
  {
    ReachesItself(s, Landing);
    if Danger(s) {
      if SomePoised(s) {
        var i :| 0 <= i < |s.owners| && Poised(s.rec.kind, s.owners[i]);
        if s.scope.carried {
          PoisedTakesForce(s, s, i);
        } else {
          var j :| 0 <= j < |s.owners| && AtHold(s.owners[j]);
          HeldForPoised(s, s, i, j);
        }
      } else {
        var i :| 0 <= i < |s.owners| && Nearly(s.rec.kind, s.owners[i]);
        var j :| 0 <= j < |s.owners| && AtHold(s.owners[j]);
        if s.scope.carried {
          ReleasedForNearly(s, i, j);
        } else {
          HeldForNearly(s, s, i, j);
        }
      }
    } else if CanTakeForce(s) {
      var t :| Reaches(s, t, Landing) && t.scope.inForce;
      var steps :| Plays(s, steps, t, Landing);
      SpentStays(s, steps, t);
    }
  }

  // ---------------------------------------------------------------------------------------------
  // A hold coming back.

  ghost predicate HoldCanComeBack(s: State) {
    exists t :: Reaches(s, t, Landing) && t.scope.carried
  }

  ghost predicate Clear(s: State) {
    s.rec.Terminal() && !s.scope.carried && !SomeAtHold(s) && DrainsInPhase(s)
  }

  lemma StepKeepsClear(s: State, step: Step)
    requires Clear(s) && Allowed(s, step, Landing)
    ensures Clear(After(s, step)) && After(s, step).scope.switch == s.scope.switch
  {
    if step.Run? {
      RunKeepsClear(s, step);
    } else {
      var t := After(s, step);
      assert t.owners == s.owners;
      assert SomeAtHold(t) == SomeAtHold(s);
    }
  }

  lemma RunKeepsClear(s: State, step: Step)
    requires Clear(s) && Allowed(s, step, Landing) && step.Run?
    ensures Clear(After(s, step)) && After(s, step).scope.switch == s.scope.switch
  {
    var t := After(s, step);
    EndedOwnersMove(s.rec, s.scope, s.owners[step.i], s.reject, step.move);
    assert t.owners == s.owners[step.i := t.owners[step.i]];
    assert forall i | 0 <= i < |t.owners| :: i != step.i ==> t.owners[i] == s.owners[i];
  }

  lemma {:induction false} ClearStays(s: State, steps: seq<Step>, t: State)
    requires Clear(s) && Plays(s, steps, t, Landing)
    ensures Clear(t) && t.scope.switch == s.scope.switch
    decreases |steps|
  {
    if steps != [] {
      var n := |steps| - 1;
      var m :| Plays(s, steps[..n], m, Landing) && Allowed(m, steps[n], Landing) && t == After(m, steps[n]);
      ClearStays(s, steps[..n], m);
      StepKeepsClear(m, steps[n]);
    }
  }

  lemma {:induction false} HoldComesBack(from: State, s: State, j: nat)
    requires Reaches(from, s, Landing) && s.rec.Terminal() && j < |s.owners| && AtHold(s.owners[j])
    ensures HoldCanComeBack(from)
    decreases s.owners[j].pc == EnterHold
  {
    var step := Run(j, Next, true);
    OneMore(from, s, step, Landing);
    if s.owners[j].pc == EnterHold {
      HoldComesBack(from, After(s, step), j);
    }
  }

  /** Exactly when a hold can come back on the scope of an ended record: when a run of it, wrongly
      taken for gone, is about to write it. Otherwise the switch stays as it is. */
  lemma HoldComesBackExactly(s: State)
    requires s.rec.Terminal() && !s.scope.carried && DrainsInPhase(s)
    ensures HoldCanComeBack(s) <==> SomeAtHold(s)
    ensures !SomeAtHold(s) ==> forall t :: Reaches(s, t, Landing) ==> t.scope.switch == s.scope.switch
  {
    if SomeAtHold(s) {
      var j :| 0 <= j < |s.owners| && AtHold(s.owners[j]);
      ReachesItself(s, Landing);
      HoldComesBack(s, s, j);
    } else {
      forall t | Reaches(s, t, Landing) ensures !t.scope.carried && t.scope.switch == s.scope.switch {
        var steps :| Plays(s, steps, t, Landing);
        ClearStays(s, steps, t);
      }
    }
  }

  /** Every run drains in its drain phase, whatever its writes do. */
  lemma {:induction false} RunsDrainInPhase(run: seq<State>, steps: seq<Step>, n: nat)
    requires IsRun(run, steps) && Initial(run[0]) && n <= |steps|
    ensures DrainsInPhase(run[n])
  {
    if n > 0 {
      RunsDrainInPhase(run, steps, n - 1);
      var s, step, t := run[n - 1], steps[n - 1], run[n];
      assert StepAt(run, steps, n - 1);
      if step.Run? {
        MovesDrainInPhase(s.rec, s.scope, s.owners[step.i], s.reject, step.move, step.lands);
        assert t.owners == s.owners[step.i := t.owners[step.i]];
      }
    }
  }

  lemma MovesDrainInPhase(rec: R.Operation, scope: Scope, o: Owner, reject: bool, move: Move, lands: bool)
    requires o.pc == Drain ==> o.phase == R.Drain
    ensures var m := OwnerMoves(rec, scope, o, reject, move, lands).owner; m.pc == Drain ==> m.phase == R.Drain
  {
    AdvanceDrainsInPhase(rec, scope, o, reject, lands);
    FailDrainsInPhase(rec, scope, o, lands);
    FailDrainsInPhase(rec, Landed(rec.kind, scope, o, reject), o, lands);
  }

  lemma AdvanceDrainsInPhase(rec: R.Operation, scope: Scope, o: Owner, reject: bool, lands: bool)
    requires o.pc == Drain ==> o.phase == R.Drain
    ensures var m := Advance(rec, scope, o, reject, lands).owner; m.pc == Drain ==> m.phase == R.Drain
  {
  }

  lemma FailDrainsInPhase(rec: R.Operation, scope: Scope, o: Owner, lands: bool)
    requires o.pc == Drain ==> o.phase == R.Drain
    ensures var m := Fail(rec, scope, o, lands).owner; m.pc == Drain ==> m.phase == R.Drain
  {
  }

  // ---------------------------------------------------------------------------------------------
  // Orderly runs whose answers are wrong.

  function Fresh(kind: R.Kind): R.Operation {
    R.Operation(kind, R.Request(false, "", "", None, 0), 1, "n1", 1, R.Running, R.NoEffect, R.Precondition, false, None,
      None, None)
  }

  const OFF := R.Switch(false, false)

  const FREE := Scope(0, false, false, false, OFF)

  function Start(kind: R.Kind): State {
    State(Fresh(kind), FREE, false, [Owner(1, R.Precondition, None, false, 0, false, false, Intend)], [], None, false,
      false)
  }

  const START := Start(R.Cutover)

  const PURGE := Start(R.PurgeSource)

  const HELD := R.BarrierState(1, false, false, None)

  const ON := Scope(1, true, false, false, OFF)

  const PROVEN := ON.(proven := true)

  function Recorded(kind: R.Kind, sequence: int, phase: R.Phase, barrier: R.BarrierState): R.Operation {
    Fresh(kind).(sequence := sequence, phase := phase, barrier := Some(barrier))
  }

  /** The first owner alone. */
  function Solo(m: Moved): State {
    Start(m.rec.kind).(rec := m.rec, scope := m.scope, owners := [m.owner])
  }

  /** An owner at a point of its run, its record as it wrote it last. */
  function At(kind: R.Kind, sequence: int, phase: R.Phase, barrier: R.BarrierState, scope: Scope, held: int,
      drained: bool, pc: Pc): Moved
  {
    Moved(Recorded(kind, sequence, phase, barrier), scope,
      Owner(1, phase, Some(barrier), false, held, drained, false, pc))
  }

  function Holding(kind: R.Kind): Moved {
    At(kind, 3, R.Hold, NoBarrier(), FREE, 0, false, WriteHold)
  }

  function LookingAhead(kind: R.Kind): Moved {
    At(kind, 4, R.Hold, HELD, ON, 1, false, LookCarried)
  }

  function Draining(kind: R.Kind): Moved {
    At(kind, 5, R.Drain, HELD, ON, 1, false, Drain)
  }

  function Committing(kind: R.Kind): Moved {
    At(kind, 6, R.Commit, HELD, PROVEN, 1, true, Commit)
  }

  const HOLDING := Holding(R.Cutover)

  const DRAINING := Draining(R.Cutover)

  const COMMITTING := Committing(R.Cutover)

  function Onward(m: Moved): Moved {
    Advance(m.rec, m.scope, m.owner, false, true)
  }

  lemma Hop(from: State, s: State, step: Step, t: State, how: Manner)
    requires Reaches(from, s, how) && Allowed(s, step, how) && After(s, step) == t
    ensures Reaches(from, t, how)
  {
    OneMore(from, s, step, how);
  }

  lemma HopAsk(from: State, s: State, gone: bool, cancels: seq<Canceler>, how: Manner)
    requires Reaches(from, s, how) && cancels == s.cancels + [Arrived(s.rec, gone)]
    ensures Reaches(from, s.(cancels := cancels), how)
  {
    assert After(s, Ask(gone)) == s.(cancels := cancels);
    OneMore(from, s, Ask(gone), how);
  }

  lemma HopDrop(from: State, s: State, k: nat, cancels: seq<Canceler>, how: Manner)
    requires Reaches(from, s, how) && k < |s.cancels| && !s.cancels[k].Answered? && cancels == s.cancels[k := Dropped]
    ensures Reaches(from, s.(cancels := cancels), how)
  {
    assert After(s, Drop(k)) == s.(cancels := cancels);
    OneMore(from, s, Drop(k), how);
  }

  lemma HopCancel(from: State, s: State, step: Step, t: State, how: Manner)
    requires step.End? || step.Look? || step.Release? || step.Correct?
    requires Reaches(from, s, how) && Enabled(s, step) && t == AfterCancel(s, step)
    ensures Reaches(from, t, how)
  {
    OneMore(from, s, step, how);
  }

  lemma SoloHop(from: State, m: Moved, how: Manner)
    requires Reaches(from, Solo(m), how) && m.owner.pc != Stopped
    ensures Reaches(from, Solo(Onward(m)), how) && After(Solo(m), Run(0, Next, true)) == Solo(Onward(m))
  {
    var s := Solo(m);
    OneMore(from, s, Run(0, Next, true), how);
    AdvanceIsOwnWrite(m.rec, m.scope, m.owner, false, true);
    assert After(s, Run(0, Next, true)) == Solo(Onward(m));
  }

  lemma TwoHops(from: State, m: Moved, how: Manner)
    requires Reaches(from, Solo(m), how) && m.owner.pc != Stopped && Onward(m).owner.pc != Stopped
    ensures Reaches(from, Solo(Onward(Onward(m))), how)
  {
    SoloHop(from, m, how);
    SoloHop(from, Onward(m), how);
  }

  /** The run of one owner, step by step. */
  lemma OwnerHolds(kind: R.Kind)
    requires !SwitchesReadOnly(kind)
    ensures Onward(Onward(Moved(Fresh(kind), FREE, Start(kind).owners[0]))) == Holding(kind)
    ensures Onward(Onward(Holding(kind))) == LookingAhead(kind)
  {
  }

  lemma OwnerDrains(kind: R.Kind)
    ensures Onward(Onward(LookingAhead(kind))) == Draining(kind)
  {
  }

  lemma OwnerEntersCommit(kind: R.Kind)
    ensures Onward(Onward(Draining(kind))) == Committing(kind)
  {
  }

  lemma OwnerGoesOn(kind: R.Kind)
    ensures Onward(Holding(kind)).owner.pc == RecordHold
    ensures Onward(LookingAhead(kind)).owner.pc == EnterDrain
    ensures Onward(Draining(kind)).owner.pc == EnterCommit
  {
  }

  lemma StartToHolding(kind: R.Kind, how: Manner)
    requires !SwitchesReadOnly(kind) && R.Resumable(kind)
    ensures Initial(Start(kind)) && Reaches(Start(kind), Solo(Holding(kind)), how)
  {
    ReachesItself(Start(kind), how);
    var m := Moved(Fresh(kind), FREE, Start(kind).owners[0]);
    assert Solo(m) == Start(kind);
    OwnerHolds(kind);
    TwoHops(Start(kind), m, how);
  }

  lemma HoldingToLooking(kind: R.Kind, how: Manner)
    requires !SwitchesReadOnly(kind) && R.Resumable(kind)
    ensures Reaches(Start(kind), Solo(LookingAhead(kind)), how)
  {
    StartToHolding(kind, how);
    OwnerHolds(kind);
    OwnerGoesOn(kind);
    TwoHops(Start(kind), Holding(kind), how);
  }

  lemma HoldingToDraining(kind: R.Kind, how: Manner)
    requires !SwitchesReadOnly(kind) && R.Resumable(kind)
    ensures Reaches(Start(kind), Solo(Draining(kind)), how)
  {
    HoldingToLooking(kind, how);
    OwnerDrains(kind);
    OwnerGoesOn(kind);
    TwoHops(Start(kind), LookingAhead(kind), how);
  }

  lemma DrainingToCommitting(kind: R.Kind, how: Manner)
    requires !SwitchesReadOnly(kind) && R.Resumable(kind)
    ensures Reaches(Start(kind), Solo(Committing(kind)), how)
  {
    HoldingToDraining(kind, how);
    OwnerEntersCommit(kind);
    OwnerGoesOn(kind);
    TwoHops(Start(kind), Draining(kind), how);
  }

  /** The record as a cancellation of `rec` leaves it. */
  function Canceled(rec: R.Operation): R.Operation {
    rec.(sequence := rec.sequence + 1, status := R.Cancelled, phase := R.Done)
  }

  /** The owner committed and died before its record said so. */
  const LOST := Solo(Moved(COMMITTING.rec, Committed(COMMITTING.scope), COMMITTING.owner.(pc := Stopped)))

  lemma CommittingToLost()
    ensures Reaches(START, LOST, Orderly)
  {
    DrainingToCommitting(R.Cutover, Orderly);
    SoloHop(START, COMMITTING, Orderly);
    CommitGoesOn();
    Hop(START, Solo(Onward(COMMITTING)), Run(0, Crash, true), LOST, Orderly);
  }

  lemma CommitGoesOn()
    ensures Onward(COMMITTING) ==
            Moved(COMMITTING.rec, Committed(COMMITTING.scope), COMMITTING.owner.(pc := RecordCommit))
    ensures After(Solo(Onward(COMMITTING)), Run(0, Crash, true)) == LOST
  {
  }

  lemma LostIsCanceled() returns (c: State)
    ensures Reaches(START, c, Orderly)
    ensures c == LOST.(rec := Canceled(LOST.rec), endedIn := Some(R.Commit), cancels := [Dropped])
  {
    CommittingToLost();
    HopAsk(START, LOST, true, [Ending("n1", 1, true)], Orderly);
    var a := LOST.(cancels := [Ending("n1", 1, true)]);
    var rec := Canceled(LOST.rec);
    var b := LOST.(rec := rec, endedIn := Some(R.Commit), cancels := [Looking(rec)]);
    HopCancel(START, a, End(0), b, Orderly);
    HopDrop(START, b, 0, [Dropped], Orderly);
    c := b.(cancels := [Dropped]);
  }

  /** The owner commits and dies before its record says so; a cancellation ends the record and dies
      before it looks; the next one finds the record canceled and the hold gone, and answers that. */
  lemma RepeatAfterACommit() returns (t: State)
    ensures Reaches(START, t, Orderly) && t.endedIn == Some(R.Commit) && |t.cancels| == 2
            && t.cancels[1] == Answered(true, false) && t.scope.inForce
  {
    var c := LostIsCanceled();
    var d := c.(cancels := [Dropped, LookingAgain(c.rec)]);
    HopAsk(START, c, true, [Dropped, LookingAgain(c.rec)], Orderly);
    t := c.(cancels := [Dropped, Answered(true, false)]);
    HopCancel(START, d, Look(1), t, Orderly);
  }

  /** A repeated cancellation releases the hold before the first one looks for it: the first takes the
      hold's absence for a commit, and the record says the change is in force. */
  lemma CorrectionWithoutACommit() returns (t: State)
    ensures Reaches(START, t, Orderly) && t.rec.status == R.Failed && t.rec.effect == R.Committed && !t.scope.inForce
    ensures |t.cancels| == 2 && t.cancels[0] == Answered(false, true) && t.cancels[1] == Answered(true, false)
  {
    var rec := Canceled(DRAINING.rec);
    var d := SecondCancelReleases();
    var e := d.(cancels := [Correcting, Answered(true, false)]);
    HopCancel(START, d, Look(0), e, Orderly);
    t := d.(rec := Corrected(rec), cancels := [Answered(false, true), Answered(true, false)]);
    HopCancel(START, e, Correct(0), t, Orderly);
  }

  lemma SecondCancelReleases() returns (d: State)
    ensures Reaches(START, d, Orderly)
    ensures var rec := Canceled(DRAINING.rec);
            d == Solo(DRAINING).(rec := rec, endedIn := Some(R.Drain), scope := Released(rec, ON), freed := true,
              undone := true,
                           cancels := [Looking(rec), Answered(true, false)])
  {
    var b := TwoCancelDraining();
    var rec := Canceled(DRAINING.rec);
    var c := b.(cancels := [Looking(rec), ReleasingAgain(rec)]);
    HopCancel(START, b, Look(1), c, Orderly);
    d := b.(scope := Released(rec, b.scope), freed := true, undone := true,
      cancels := [Looking(rec), Answered(true, false)]);
    HopCancel(START, c, Release(1, true), d, Orderly);
  }

  lemma OneCancelDraining() returns (a: State)
    ensures Reaches(START, a, Orderly)
    ensures var rec := Canceled(DRAINING.rec);
            a == Solo(DRAINING).(rec := rec, endedIn := Some(R.Drain), cancels := [Looking(rec)])
  {
    HoldingToDraining(R.Cutover, Orderly);
    var rec := Canceled(DRAINING.rec);
    HopAsk(START, Solo(DRAINING), false, [Ending("n1", 1, false)], Orderly);
    var asked := Solo(DRAINING).(cancels := [Ending("n1", 1, false)]);
    a := Solo(DRAINING).(rec := rec, endedIn := Some(R.Drain), cancels := [Looking(rec)]);
    HopCancel(START, asked, End(0), a, Orderly);
  }

  lemma TwoCancelDraining() returns (b: State)
    ensures Reaches(START, b, Orderly)
    ensures var rec := Canceled(DRAINING.rec);
            b == Solo(DRAINING).(rec := rec, endedIn := Some(R.Drain), cancels := [Looking(rec), LookingAgain(rec)])
  {
    var a := OneCancelDraining();
    var rec := Canceled(DRAINING.rec);
    HopAsk(START, a, false, [Looking(rec), LookingAgain(rec)], Orderly);
    b := a.(cancels := [Looking(rec), LookingAgain(rec)]);
  }

  /** A repeated cancellation's answer can be relied on, over every guarded run whose record a
      cancellation ended in this phase. */
  ghost predicate RepeatIsSound(phase: R.Phase) {
    forall run: seq<State>, steps: seq<Step>, i: nat, k: nat |
      GuardedRun(run, steps) && Initial(run[0]) && 0 <= i <= |steps| && run[i].endedIn == Some(phase)
      && 0 <= k < |run[i].cancels| && run[i].cancels[k] == Answered(true, false)
      :: !run[i].scope.inForce
  }

  /** Exactly when a repeated cancellation that answers canceled is right: when the record was not in
      its commit phase as it was ended. */
  lemma RepeatIsSoundExactly(phase: R.Phase)
    ensures RepeatIsSound(phase) <==> phase != R.Commit
  {
    if phase != R.Commit {
      forall run: seq<State>, steps: seq<Step>, i: nat, k: nat |
        GuardedRun(run, steps) && Initial(run[0]) && 0 <= i <= |steps| && run[i].endedIn == Some(phase)
        && 0 <= k < |run[i].cancels| && run[i].cancels[k] == Answered(true, false)
        ensures !run[i].scope.inForce
      {
        CanceledBeforeCommitMeansNever(run, steps, i);
      }
    } else {
      StartToHolding(R.Cutover, Orderly);
      var t := RepeatAfterACommit();
      var steps :| Plays(START, steps, t, Orderly);
      var run := PlayedIsARun(START, steps, t);
      OrderlyRunsAreGuarded(run, steps);
      assert run[|steps|] == t;
    }
  }

  /** The first owner, taken for gone, is about to write its hold; a second runs the record. */
  function Duo(m: Moved): State {
    START.(rec := m.rec, scope := m.scope, owners := [HOLDING.owner, m.owner])
  }

  function Second(m: Moved): Moved {
    m.(rec := m.rec.(node := "n2", term := 2, sequence := m.rec.sequence + 1), owner := m.owner.(term := 2))
  }

  lemma DuoHop(m: Moved)
    requires Reaches(START, Duo(m), Landing) && m.owner.pc != Stopped
    ensures Reaches(START, Duo(Onward(m)), Landing)
  {
    var s := Duo(m);
    OneMore(START, s, Run(1, Next, true), Landing);
    assert After(s, Run(1, Next, true)) == Duo(Onward(m));
  }

  lemma TwoDuoHops(m: Moved)
    requires Reaches(START, Duo(m), Landing) && m.owner.pc != Stopped
    ensures Onward(m).owner.pc != Stopped ==> Reaches(START, Duo(Onward(Onward(m))), Landing)
  {
    DuoHop(m);
    if Onward(m).owner.pc != Stopped {
      DuoHop(Onward(m));
    }
  }

  const TAKEN := Second(HOLDING.(owner := HOLDING.owner.(pc := EnterHold)))

  lemma SecondHolds()
    ensures Onward(Onward(TAKEN)) == Second(At(R.Cutover, 3, R.Hold, NoBarrier(), ON, 1, false, RecordHold))
    ensures Onward(Onward(Second(At(R.Cutover, 3, R.Hold, NoBarrier(), ON, 1, false, RecordHold)))) ==
            Second(At(R.Cutover, 4, R.Hold, HELD, ON, 1, false, EnterDrain))
  {
  }

  lemma SecondDrains()
    ensures Onward(Onward(Second(At(R.Cutover, 4, R.Hold, HELD, ON, 1, false, EnterDrain)))) ==
            Second(At(R.Cutover, 5, R.Drain, HELD, PROVEN, 1, true, EnterCommit))
    ensures Onward(Second(At(R.Cutover, 5, R.Drain, HELD, PROVEN, 1, true, EnterCommit))) == Second(COMMITTING)
  {
  }

  lemma SecondTakesOver()
    ensures Reaches(START, Duo(Second(At(R.Cutover, 3, R.Hold, NoBarrier(), ON, 1, false, RecordHold))), Landing)
  {
    StartToHolding(R.Cutover, Landing);
    Hop(START, Solo(HOLDING), TakeOver("n2"), Duo(TAKEN), Landing);
    SecondHolds();
    TwoDuoHops(TAKEN);
  }

  lemma SecondReachesCommit()
    ensures Reaches(START, Duo(Second(COMMITTING)), Landing)
  {
    SecondReachesDrain();
    SecondDrains();
    SecondGoesOn();
    TwoDuoHops(Second(At(R.Cutover, 4, R.Hold, HELD, ON, 1, false, EnterDrain)));
    DuoHop(Second(At(R.Cutover, 5, R.Drain, HELD, PROVEN, 1, true, EnterCommit)));
  }

  lemma SecondReachesDrain()
    ensures Reaches(START, Duo(Second(At(R.Cutover, 4, R.Hold, HELD, ON, 1, false, EnterDrain))), Landing)
  {
    SecondTakesOver();
    SecondHolds();
    SecondGoesOn();
    TwoDuoHops(Second(At(R.Cutover, 3, R.Hold, NoBarrier(), ON, 1, false, RecordHold)));
  }

  lemma SecondGoesOn()
    ensures Onward(Second(At(R.Cutover, 3, R.Hold, NoBarrier(), ON, 1, false, RecordHold))).owner.pc == LookCarried
    ensures Onward(Second(At(R.Cutover, 4, R.Hold, HELD, ON, 1, false, EnterDrain))).owner.pc == Drain
  {
  }

  /** Two owners of one record: the first is about to write its hold when the second takes the record
      over, drains and is about to commit; a cancellation, taking the second for gone, releases the
      hold and is answered as canceled. The change then takes force. */
  lemma CanceledThenInForce() returns (s: State)
    ensures Reaches(START, s, Landing) && |s.cancels| == 1 && s.cancels[0] == Answered(true, true) && !s.scope.inForce
    ensures CanTakeForce(s)
  {
    SecondReachesCommit();
    s := CancelTheSecond(Duo(Second(COMMITTING)));
    assert AtHold(s.owners[0]) && Poised(R.Cutover, s.owners[1]);
    CanceledTakesForceExactly(s);
  }

  lemma CancelTheSecond(d: State) returns (s: State)
    requires d == Duo(Second(COMMITTING)) && Reaches(START, d, Landing)
    ensures Reaches(START, s, Landing) && s.owners == d.owners
    ensures s.rec == Canceled(d.rec) && s.cancels == [Answered(true, true)] && !s.scope.inForce
  {
    HopAsk(START, d, true, [Ending("n2", 2, true)], Landing);
    var a := d.(cancels := [Ending("n2", 2, true)]);
    var rec := Canceled(d.rec);
    var b := d.(rec := rec, endedIn := Some(R.Commit), cancels := [Looking(rec)]);
    HopCancel(START, a, End(0), b, Landing);
    var c := b.(cancels := [Releasing(rec)]);
    HopCancel(START, b, Look(0), c, Landing);
    s := b.(scope := Released(rec, b.scope), freed := true, cancels := [Answered(true, true)]);
    HopCancel(START, c, Release(0, true), s, Landing);
  }

  // ---------------------------------------------------------------------------------------------
  // Purges whose record does not say what it should.

  const MARKED := HELD.(dispatchStarted := true)

  /** A purge about to write that its deletes may begin. */
  const DISPATCHING := At(R.PurgeSource, 6, R.Commit, HELD, PROVEN, 1, true, Dispatch)

  lemma PurgeToDispatch(how: Manner)
    ensures Initial(PURGE) && Reaches(PURGE, Solo(DISPATCHING), how)
  {
    StartToHolding(R.PurgeSource, how);
    DrainingToCommitting(R.PurgeSource, how);
    SoloHop(PURGE, Committing(R.PurgeSource), how);
    PurgeGoesOn();
  }

  lemma PurgeGoesOn()
    ensures Onward(Committing(R.PurgeSource)) == DISPATCHING
  {
  }

  /** The write did not land, and the run goes on. */
  const UNMARKED := Moved(DISPATCHING.rec, PROVEN, DISPATCHING.owner.(barrier := Some(MARKED), pc := EnterDelete))

  lemma DispatchGoesOn(lands: bool)
    ensures var m := Advance(DISPATCHING.rec, DISPATCHING.scope, DISPATCHING.owner, false, lands);
            m == if lands then At(R.PurgeSource, 7, R.Commit, MARKED, PROVEN, 1, true, EnterDelete) else UNMARKED
  {
  }

  lemma UnlandedDispatch()
    ensures Reaches(PURGE, Solo(UNMARKED), Guarded)
  {
    PurgeToDispatch(Guarded);
    DispatchGoesOn(false);
    var s := Solo(DISPATCHING);
    assert After(s, Run(0, Next, false)) == Solo(UNMARKED);
    OneMore(PURGE, s, Run(0, Next, false), Guarded);
  }

  /** A purge deleting, its record at `sequence`. */
  function DeletingAt(sequence: int): Moved {
    At(R.PurgeSource, sequence, R.Purge, MARKED, PROVEN, 1, true, Delete)
  }

  lemma DeletingGoesOn(m: Moved)
    requires m == UNMARKED || m == At(R.PurgeSource, 7, R.Commit, MARKED, PROVEN, 1, true, EnterDelete)
    ensures Onward(m) == DeletingAt(m.rec.sequence + 1)
  {
  }

  lemma DeletingIsOrdered(sequence: int)
    ensures var d := Solo(DeletingAt(sequence)); Enabled(d, Run(0, DeleteAnother, true)) && Ordered(d)
  {
  }

  /** A dispatch write that does not land is made good by the run's next write: the delete that follows
      is as it should be. */
  lemma UnlandedDispatchMayBeMadeGood()
    ensures Reaches(PURGE, Solo(UNMARKED), Guarded) && Unmarked(UNMARKED.rec, UNMARKED.owner)
    ensures var s := After(Solo(UNMARKED), Run(0, Next, true)); Enabled(s, Run(0, DeleteAnother, true)) && Ordered(s)
  {
    UnlandedDispatch();
    SoloHop(PURGE, UNMARKED, Guarded);
    DeletingGoesOn(UNMARKED);
    DeletingIsOrdered(7);
  }

  /** Unless a cancellation, taking the owner for gone, ends the record first: the run then deletes
      under a canceled record. */
  lemma DeletesUnderACanceledRecord() returns (s: State)
    ensures Reaches(PURGE, s, Guarded) && Enabled(s, Run(0, DeleteAnother, true))
    ensures s.rec.status == R.Cancelled && !DispatchRecorded(s.rec) && !Ordered(s)
  {
    var b := CancelTheUnmarked();
    s := GoesOnDeleting(b);
  }

  lemma CancelTheUnmarked() returns (b: State)
    ensures Reaches(PURGE, b, Guarded) && b.owners == [UNMARKED.owner] && b.rec == Canceled(UNMARKED.rec)
  {
    var c := Ending("n1", 1, true);
    UnlandedDispatch();
    UnmarkedIsCancelable(c);
    HopAsk(PURGE, Solo(UNMARKED), true, [c], Guarded);
    var a := Solo(UNMARKED).(cancels := [c]);
    b := AfterCancel(a, End(0));
    HopCancel(PURGE, a, End(0), b, Guarded);
  }

  lemma UnmarkedIsCancelable(c: Canceler)
    requires c == Ending("n1", 1, true)
    ensures Arrived(UNMARKED.rec, true) == c && EndedBy(c, UNMARKED.rec) == Some(Canceled(UNMARKED.rec))
  {
  }

  lemma GoesOnDeleting(b: State) returns (s: State)
    requires Reaches(PURGE, b, Guarded) && b.owners == [UNMARKED.owner] && b.rec == Canceled(UNMARKED.rec)
    ensures Reaches(PURGE, s, Guarded) && Enabled(s, Run(0, DeleteAnother, true)) && s.rec == b.rec
  {
    CanceledGoesOnDeleting(b.scope, b.reject);
    OneMore(PURGE, b, Run(0, Next, true), Guarded);
    s := After(b, Run(0, Next, true));
  }

  /** The write that its deletes begin is refused as stale, and nothing asks whether it was. */
  lemma CanceledGoesOnDeleting(scope: Scope, reject: bool)
    ensures var m := Advance(Canceled(UNMARKED.rec), scope, UNMARKED.owner, reject, true);
            m.rec == Canceled(UNMARKED.rec) && m.owner.pc == Delete
  {
  }

  /** A purge deletes and its owner crashes; the next cannot read the directory before its drain, and
      the record ends with the source held. */
  lemma PurgeEndsHeld() returns (d: State, s: State)
    ensures Reaches(PURGE, d, Orderly) && Enabled(d, Run(0, DeleteAnother, true)) && Ordered(d)
    ensures Reaches(d, s, Orderly) && |s.owners| == 2 && DispatchRecorded(s.rec)
    ensures Allowed(s, Run(1, Refused, true), Orderly)
            && EndsHeld(s, Run(1, Refused, true), After(s, Run(1, Refused, true)))
  {
    PurgeToDispatch(Orderly);
    DispatchGoesOn(true);
    SoloHop(PURGE, DISPATCHING, Orderly);
    SoloHop(PURGE, Onward(DISPATCHING), Orderly);
    DeletingGoesOn(Onward(DISPATCHING));
    DeletingIsOrdered(8);
    d := Solo(DeletingAt(8));
    s := TAKEN_PURGE;
    CrashedPurgeIsTaken();
    TakenEndsHeld();
  }

  /** The purge on its second owner, which looks at the directory first. */
  const TAKEN_PURGE :=
    var crashed := Solo(DeletingAt(8));
    crashed.(rec := R.Taken(crashed.rec, "n2"),
             owners := [crashed.owners[0].(pc := Stopped),
               Owner(2, R.Purge, Some(MARKED), false, 0, false, true, LookCarried)])

  lemma CrashedPurgeIsTaken()
    ensures Reaches(Solo(DeletingAt(8)), TAKEN_PURGE, Orderly)
  {
    var m := DeletingAt(8);
    var d, e := Solo(m), Solo(m.(owner := m.owner.(pc := Stopped)));
    ReachesItself(d, Orderly);
    assert After(d, Run(0, Crash, true)) == e;
    Hop(d, d, Run(0, Crash, true), e, Orderly);
    assert After(e, TakeOver("n2")) == TAKEN_PURGE;
    Hop(d, e, TakeOver("n2"), TAKEN_PURGE, Orderly);
  }

  lemma TakenEndsHeld()
    ensures Allowed(TAKEN_PURGE, Run(1, Refused, true), Orderly)
    ensures EndsHeld(TAKEN_PURGE, Run(1, Refused, true), After(TAKEN_PURGE, Run(1, Refused, true)))
  {
  }
}
