/** The writers of an operation record as they run (internal/control/operation.go, barrier.go,
worker.go). Between any two steps of one of them the others may write: `RecordCell.OthersWrite`
stands for that, and says only that what they add is legal. A write may also fail for a reason of
the store's own, and may then have landed or not. */
module RecordWriters {
  import opened Basics
  import opened Records
  import W = Workers

  datatype Wrote = Written | Stale | FailedWrite

  class RecordCell {
    var stored: Operation
    ghost var log: seq<Entry>

    ghost predicate Valid()
      reads this
    {
      Legal(log) && stored == Stored(log)
    }

    constructor (op: Operation)
      requires op.sequence == 1 && !op.Terminal()
      ensures Valid() && log == [Entry(op, Create)]
    {
      stored := op;
      log := [Entry(op, Create)];
    }

    /** Any number of other writers' writes land, each by its rule. Nothing more is known. */
    method OthersWrite()
      requires Valid()
      modifies this
      ensures Valid() && old(log) <= log
    {
    }

    /** Read the record; none when the store cannot be reached. */
    method Read() returns (r: Option<Operation>)
      ensures r.Some? ==> r.value == stored
    {
      if * {
        return None;
      }
      return Some(stored);
    }

    /** Replace the record if it stands at the sequence before op's. The caller shows that its rule
        allows op over the record it would replace. */
    method Update(op: Operation, ghost w: Writer) returns (r: Wrote)
      requires Valid()
      requires stored.sequence == op.sequence - 1 ==> Follows(stored, op, w)
      modifies this
      ensures Valid()
      ensures log == old(log) || (old(stored).sequence == op.sequence - 1 && log == old(log) + [Entry(op, w)])
      ensures r == Written ==> log == old(log) + [Entry(op, w)]
      ensures r == Stale ==> log == old(log)
    {
      if * {
        return FailedWrite; // never reached the store
      }
      if stored.sequence != op.sequence - 1 {
        return Stale;
      }
      LegalGrows(log, Entry(op, w));
      stored := op;
      log := log + [Entry(op, w)];
      if * {
        return FailedWrite; // it landed, and its answer was lost
      }
      return Written;
    }
  }

  /** A copy of the record as some write left it, which its holder may have edited since. What it has
      that others write is what that write left; a cancellation it knows of is on the record. */
  ghost predicate BuiltOn(log: seq<Entry>, copy: Operation) {
    && Legal(log)
    && 1 <= copy.sequence <= |log|
    && (copy.cancel.Some? ==> Stored(log).cancel == copy.cancel)
    && var base := log[copy.sequence - 1].op;
       && !base.Terminal()
       && base.node == copy.node && base.term == copy.term
       && base.kind == copy.kind && base.request == copy.request
       && base.worker == copy.worker
       && (base.cancel.Some? ==> base.cancel == copy.cancel)
  }

  lemma BuiltOnIsKept(log: seq<Entry>, more: seq<Entry>, copy: Operation)
    requires BuiltOn(log, copy) && Legal(more) && log <= more
    ensures BuiltOn(more, copy)
  {
    if copy.cancel.Some? {
      NoCancelRequestIsLost(more, |log| - 1, |more| - 1);
    }
  }

  /** A write built on the record as it stands is the owner's to make. */
  lemma OwnerMayWrite(log: seq<Entry>, copy: Operation, op: Operation)
    requires BuiltOn(log, copy) && copy.sequence == |log|
    requires op == copy.(sequence := copy.sequence + 1)
    ensures Follows(Stored(log), op, Owner(op.node, op.term))
  {
  }

  /** The copy is an owner's write in the log, made after the first `from` entries. */
  ghost predicate IsWritten(log: seq<Entry>, from: nat, op: Operation) {
    from < op.sequence <= |log| && log[op.sequence - 1] == Entry(op, Owner(op.node, op.term))
  }

  /** The write a copy was sent as: one that failed is still to be made, for all the copy knows. */
  function Sent(op: Operation, failed: bool): Operation {
    if failed then op.(sequence := op.sequence + 1) else op
  }

  ghost predicate LandedAt(log: seq<Entry>, from: nat, op: Operation, at: nat) {
    at == op.sequence - 1 && IsWritten(log, from, op)
  }

  /** What an attempt leaves: the copy is built on the record, unless it ended it; and `did` says whether
      its write landed, as an attempt answered as written did and one found stale did not. */
  ghost predicate Tried(log: seq<Entry>, from: nat, op: Operation, r: Wrote, did: bool) {
    && (r != Written || !op.Terminal() ==> BuiltOn(log, op))
    && (r == Written ==> did) && (r == Stale ==> !did)
    && (did ==> IsWritten(log, from, Sent(op, r == FailedWrite)))
  }

  /** The same but for what others write. */
  predicate SameButOthers(op: Operation, was: Operation) {
    op == was.(sequence := op.sequence, worker := op.worker, cancel := op.cancel)
  }

  datatype Going = Goes | Lost | Canceled

  /** One operation in flight on the node that owns it. */
  class Tracker {
    const cell: RecordCell
    var op: Operation
    var lost: bool

    ghost predicate Valid()
      reads this, cell
    {
      cell.Valid() && (!lost ==> BuiltOn(cell.log, op))
    }

    constructor (cell: RecordCell)
      requires cell.Valid() && !cell.stored.Terminal()
      ensures this.cell == cell && Valid() && !lost && op == cell.stored
    {
      this.cell, op, lost := cell, cell.stored, false;
    }

    /** Write the record. A write found stale is made again over what another writer left, with
        that writer's session and request, so long as the record is unfinished and still this owner's.
        `landed` is where the write stands in the log; one that failed may have landed too. */
    method Put() returns (ghost landed: Option<nat>, ghost failed: bool)
      requires Valid()
      modifies this, cell
      ensures cell.Valid() && old(cell.log) <= cell.log
      ensures !op.Terminal() ==> Valid()
      ensures SameButOthers(op, old(op))
      ensures old(lost) ==> lost && landed.None? && !failed && op == old(op) && cell.log == old(cell.log)
      ensures landed.Some? || failed || lost
      ensures landed.Some? ==> !lost && LandedAt(cell.log, |old(cell.log)|, Sent(op, failed), landed.value)
    {
      landed, failed := None, false;
      if lost {
        return;
      }
      var r;
      ghost var did;
      r, did := Attempt();
      var attempt := 0;
      while r == Stale && attempt < 16
        invariant cell.Valid() && old(cell.log) <= cell.log && !lost && SameButOthers(op, old(op))
        invariant Tried(cell.log, |old(cell.log)|, op, r, did)
      {
        var again, _ := Refetch();
        if !again {
          break;
        }
        r, did := Attempt();
        attempt := attempt + 1;
      }
      if r == Stale {
        lost := true;
      } else {
        failed := r == FailedWrite;
        landed := if did then Some(Sent(op, failed).sequence - 1) else None;
      }
    }

    /** One write over the sequence the copy was built on. A write not taken leaves the copy at that
        sequence, so the next one is still over it. */
    method Attempt() returns (r: Wrote, ghost did: bool)
      requires !lost && BuiltOn(cell.log, op) && cell.Valid()
      modifies this`op, cell
      ensures cell.Valid() && old(cell.log) <= cell.log
      ensures op == if r == Written then old(op).(sequence := old(op).sequence + 1) else old(op)
      ensures Tried(cell.log, |old(cell.log)|, op, r, did)
    {
      ghost var was := cell.log;
      cell.OthersWrite();
      BuiltOnIsKept(was, cell.log, op);
      var next := op.(sequence := op.sequence + 1);
      if cell.stored.sequence == op.sequence {
        OwnerMayWrite(cell.log, op, next);
      }
      was := cell.log;
      r := cell.Update(next, Owner(op.node, op.term));
      did := cell.log != was;
      BuiltOnIsKept(was, cell.log, op);
      if r == Written {
        op := next;
      }
    }

    /** Take the session and the request another writer left, and the sequence to write over, so long
        as the record can be read and is still this owner's to write. */
    method Refetch() returns (again: bool, ghost readable: bool)
      requires !lost && BuiltOn(cell.log, op) && cell.Valid()
      modifies this`op, cell
      ensures cell.Valid() && old(cell.log) <= cell.log
      ensures BuiltOn(cell.log, op) && SameButOthers(op, old(op))
      ensures again <==>
                readable && !cell.stored.Terminal() && cell.stored.node == op.node && cell.stored.term == op.term
      ensures again ==> op.sequence == |cell.log|
      ensures !again ==> op == old(op)
    {
      ghost var was := cell.log;
      cell.OthersWrite();
      BuiltOnIsKept(was, cell.log, op);
      var got := cell.Read();
      if got.None? || got.value.node != op.node || got.value.term != op.term || got.value.Terminal() {
        return false, got.Some?;
      }
      RequestsNeverChange(cell.log, op.sequence - 1, |cell.log| - 1);
      op := op.(worker := got.value.worker, sequence := got.value.sequence);
      if got.value.cancel.Some? {
        op := op.(cancel := got.value.cancel);
      }
      return true, true;
    }

    /** Write the phase, unless the record is in it already. */
    method SetPhase(p: Phase) returns (ghost landed: Option<nat>, ghost failed: bool)
      requires Valid() && !op.Terminal()
      modifies this, cell
      ensures Valid() && old(cell.log) <= cell.log && op.phase == p
      ensures SameButOthers(op.(phase := old(op).phase), old(op))
      ensures old(op).phase == p ==>
                op == old(op) && cell.log == old(cell.log) && lost == old(lost) && landed.None? && !failed
      ensures old(op).phase != p ==> landed.Some? || failed || lost
      ensures landed.Some? ==> !lost && LandedAt(cell.log, |old(cell.log)|, Sent(op, failed), landed.value)
    {
      landed, failed := None, false;
      if op.phase == p {
        return;
      }
      op := op.(phase := p);
      landed, failed := Put();
    }

    /** Write the barrier's state. */
    method SetBarrier(b: BarrierState) returns (ghost landed: Option<nat>, ghost failed: bool)
      requires Valid() && !op.Terminal()
      modifies this, cell
      ensures Valid() && old(cell.log) <= cell.log && op.barrier == Some(b)
      ensures SameButOthers(op.(barrier := old(op).barrier), old(op))
      ensures landed.Some? || failed || lost
      ensures landed.Some? ==> !lost && LandedAt(cell.log, |old(cell.log)|, Sent(op, failed), landed.value)
    {
      op := op.(barrier := Some(b));
      landed, failed := Put();
    }

    /** End the record as the run ended. A run that lost its record ends nothing; an end that landed is
        the owner's last write. */
    method Finish(status: Status, effect: Effect) returns (ghost landed: Option<nat>, ghost failed: bool)
      requires Valid() && !op.Terminal() && status in {Succeeded, Failed, Cancelled}
      modifies this, cell
      ensures cell.Valid() && old(cell.log) <= cell.log
      ensures landed.Some? || failed || lost
      ensures op.status == status && op.effect == effect && op.phase == Done && !op.ownerLost
              && op.barrier == old(op).barrier
      ensures landed.Some? ==>
                && !lost && LandedAt(cell.log, |old(cell.log)|, Sent(op, failed), landed.value)
                && forall k | landed.value < k < |cell.log| :: cell.log[k].writer.Correct?
    {
      op := op.(phase := Done, ownerLost := false, status := status, effect := effect);
      landed, failed := Put();
      if landed.Some? {
        EndsArePermanent(cell.log, landed.value, |cell.log| - 1);
      }
    }

    /** Whether the run goes on. It stops once a write of its own was found stale. */
    method Check() returns (going: Going)
      requires Valid()
      ensures going == Goes <==> !lost
      ensures going == Canceled ==> cell.stored.status == Cancelled
    {
      if !lost {
        return Goes;
      }
      var got := cell.Read();
      if got.Some? && got.value.status == Cancelled {
        return Canceled;
      }
      return Lost;
    }
  }

  // ---------------------------------------------------------------------------------------------
  // The other writers: read the record, build on it, write it over the sequence read.

  /** What a request makes of an unfinished record (the functions given to updateRecord). */
  datatype Edit =
    | CancelFrom(node: string, term: int, ownerGone: bool)
    | TakeFrom(node: string, term: int, taker: string)
    | AskFrom(node: string, term: int, who: string, seizer: Option<string>)
    | EndMoverNow

  function WriterOf(e: Edit): Writer {
    match e
    case CancelFrom(_, _, _) => Cancel
    case TakeFrom(_, _, taker) => TakeOver(taker)
    case AskFrom(_, _, who, seizer) => AskCancel(who, seizer)
    case EndMoverNow => EndMover
  }

  /** The record as edited, or none when the edit refuses it: its owner or term changed since the
      request read it, or it cannot be canceled any more. */
  function Edited(e: Edit, op: Operation): Option<Operation> {
    var next := op.(sequence := op.sequence + 1);
    match e
    case CancelFrom(node, term, ownerGone) =>
      if op.node != node || op.term != term || !Cancellable(op, ownerGone) then None
      else Some(next.(status := Cancelled, effect := NoEffect, phase := Done, ownerLost := false))
    case TakeFrom(node, term, taker) =>
      if op.node != node || op.term != term then None
      else Some(next.(node := taker, term := op.term + 1, status := Running, ownerLost := false))
    case AskFrom(node, term, who, seizer) =>
      if op.node != node || op.term != term then None
      else
        var asked := next.(cancel := if op.cancel.None? then Some(who) else op.cancel);
        Some(if seizer.None? then asked
          else asked.(node := seizer.value, term := op.term + 1, status := Running, ownerLost := false))
    case EndMoverNow =>
      if op.worker.None? || op.worker.value.state != W.Completed then None
      else Some(next.(status := Failed, phase := Done, ownerLost := false))
  }

  lemma EditsFollowTheirRule(e: Edit, op: Operation)
    requires !op.Terminal() && Edited(e, op).Some?
    ensures Follows(op, Edited(e, op).value, WriterOf(e))
  {
  }

  datatype Updated = Ended(op: Operation) | Changed(op: Operation) | RefusedEdit | Unavailable

  /** The entry at `at` is the edit of the record before it. */
  ghost predicate ChangedAt(log: seq<Entry>, at: nat, e: Edit, op: Operation) {
    0 < at < |log| && log[at] == Entry(op, WriterOf(e)) && Edited(e, log[at - 1].op) == Some(op)
  }

  /** The edit refuses the record as it stood at `at`. */
  ghost predicate RefusedAt(log: seq<Entry>, at: nat, e: Edit) {
    at < |log| && !log[at].op.Terminal() && Edited(e, log[at].op).None?
  }

  /** updateRecord: write an edit onto an unfinished record, over whatever others wrote meanwhile. A
      record that ended first is answered as it is. */
  method UpdateRecord(cell: RecordCell, e: Edit) returns (r: Updated, ghost at: nat)
    requires cell.Valid()
    modifies cell
    ensures cell.Valid() && old(cell.log) <= cell.log
    ensures r.Ended? ==> r.op.Terminal() && cell.stored == r.op
    ensures r.Changed? ==> |old(cell.log)| <= at && ChangedAt(cell.log, at, e, r.op)
    ensures r.RefusedEdit? ==> |old(cell.log)| <= at + 1 && RefusedAt(cell.log, at, e)
  {
    at := 0;
    for attempt := 0 to 16
      invariant cell.Valid() && old(cell.log) <= cell.log
    {
      cell.OthersWrite();
      var got := cell.Read();
      if got.None? {
        return Unavailable, 0;
      }
      if got.value.Terminal() {
        return Ended(got.value), 0;
      }
      var next := Edited(e, got.value);
      if next.None? {
        assert RefusedAt(cell.log, |cell.log| - 1, e);
        return RefusedEdit, |cell.log| - 1;
      }
      var w := WriteEdit(cell, e, got.value, next.value);
      if w == Written {
        return Changed(next.value), |cell.log| - 1;
      }
      if w == FailedWrite {
        return Unavailable, 0;
      }
    }
    return Unavailable, 0;
  }

  /** Write an edit of the record as read, others writing first. */
  method WriteEdit(cell: RecordCell, e: Edit, read: Operation, next: Operation) returns (w: Wrote)
    requires cell.Valid() && cell.stored == read && !read.Terminal() && Edited(e, read) == Some(next)
    modifies cell
    ensures cell.Valid() && old(cell.log) <= cell.log
    ensures w == Written ==> |cell.log| > |old(cell.log)| && ChangedAt(cell.log, |cell.log| - 1, e, next)
  {
    EditsFollowTheirRule(e, read);
    ghost var was := cell.log;
    cell.OthersWrite();
    SameSequenceSameRecord(was, cell.log);
    w := cell.Update(next, WriterOf(e));
  }

  /** A record read and later found at the same sequence has not changed. */
  lemma SameSequenceSameRecord(read: seq<Entry>, now: seq<Entry>)
    requires Legal(read) && Legal(now) && read <= now
    ensures Stored(now).sequence == Stored(read).sequence ==> now == read
  {
  }

  /** Write the session a heartbeat makes of the record as read, others writing first. */
  method WriteBeat(cell: RecordCell, req: W.Heartbeat, actor: string, now: int, ttl: int, read: Operation,
      worker: W.Session)
    returns (w: Wrote)
    requires cell.Valid() && cell.stored == read
    requires var answer := W.NextWorker(MoverOf(read), req, actor, now, ttl); answer.Written? && answer.worker == worker
    modifies cell
    ensures cell.Valid() && old(cell.log) <= cell.log
    ensures w == Written ==>
              && |cell.log| > |old(cell.log)| && cell.log[|cell.log| - 2].op == read
              && cell.log[|cell.log| - 1].writer == Heartbeat(req, actor, now, ttl)
              && cell.log[|cell.log| - 1].op.worker == Some(worker)
  {
    var next := read.(worker := Some(worker), sequence := read.sequence + 1);
    ghost var was := cell.log;
    assert !read.Terminal();
    cell.OthersWrite();
    SameSequenceSameRecord(was, cell.log);
    w := cell.Update(next, Heartbeat(req, actor, now, ttl));
  }

  /** The answer the session rules give the heartbeat built from a record. */
  ghost predicate AnswersFrom(build: Operation -> Option<W.Heartbeat>, op: Operation, actor: string, now: int, ttl: int,
      answer: W.Answer)
  {
    build(op).Some? && answer == W.NextWorker(MoverOf(op), build(op).value, actor, now, ttl)
  }

  /** applyWorker: apply a worker's heartbeat to the record, built anew from each reading of it. */
  method ApplyWorker(cell: RecordCell, build: Operation -> Option<W.Heartbeat>, actor: string, ttl: int)
    returns (r: Option<W.Answer>, ghost at: nat, ghost now: int)
    requires cell.Valid()
    modifies cell
    ensures cell.Valid() && old(cell.log) <= cell.log
    ensures r.Some? ==> |old(cell.log)| <= at + 1 && at < |cell.log|
    ensures r.Some? && !r.value.Written? ==> AnswersFrom(build, cell.log[at].op, actor, now, ttl, r.value)
    ensures r.Some? && r.value.Written? ==>
              && 0 < at && AnswersFrom(build, cell.log[at - 1].op, actor, now, ttl, r.value)
              && cell.log[at].writer == Heartbeat(build(cell.log[at - 1].op).value, actor, now, ttl)
              && cell.log[at].op.worker == Some(r.value.worker)
  {
    at, now := 0, 0;
    for attempt := 0 to 16
      invariant cell.Valid() && old(cell.log) <= cell.log
    {
      cell.OthersWrite();
      var got := cell.Read();
      if got.None? {
        return None, 0, 0;
      }
      var beat := build(got.value);
      if beat.None? {
        return None, 0, 0;
      }
      var time: int := *;
      var answer := W.NextWorker(MoverOf(got.value), beat.value, actor, time, ttl);
      assert AnswersFrom(build, cell.stored, actor, time, ttl, answer);
      if !answer.Written? {
        return Some(answer), |cell.log| - 1, time;
      }
      var w := WriteBeat(cell, beat.value, actor, time, ttl, got.value, answer.worker);
      if w == Written {
        return Some(answer), |cell.log| - 1, time;
      }
      if w == FailedWrite {
        return None, 0, 0;
      }
    }
    return None, 0, 0;
  }

  /** correctCommitted: say on a record a cancellation ended that its change is in force. The
      canceler's own write ended the record (`canceled` is its place in the log). */
  method CorrectCommitted(cell: RecordCell, ghost canceled: nat) returns (ok: bool)
    requires cell.Valid() && canceled < |cell.log| && cell.log[canceled].op.Terminal()
    modifies cell
    ensures cell.Valid() && old(cell.log) <= cell.log
    ensures ok ==> cell.stored.status == Failed && cell.stored.effect == Committed
    ensures cell.stored.Terminal()
  {
    EndsArePermanent(cell.log, canceled, |cell.log| - 1);
    for attempt := 0 to 16
      invariant cell.Valid() && old(cell.log) <= cell.log
      invariant cell.stored.Terminal()
    {
      cell.OthersWrite();
      EndsArePermanent(cell.log, canceled, |cell.log| - 1);
      var got := cell.Read();
      if got.None? {
        return false;
      }
      var w := WriteCorrection(cell, got.value);
      if w == Written {
        return true;
      }
      if w == FailedWrite {
        return false;
      }
    }
    return false;
  }

  /** Write the correction of an ended record as read, others writing first. */
  method WriteCorrection(cell: RecordCell, read: Operation) returns (w: Wrote)
    requires cell.Valid() && cell.stored == read && read.Terminal()
    modifies cell
    ensures cell.Valid() && old(cell.log) <= cell.log && cell.stored.Terminal()
    ensures w == Written ==> cell.stored.status == Failed && cell.stored.effect == Committed
  {
    ghost var was := cell.log;
    cell.OthersWrite();
    EndsArePermanent(cell.log, |was| - 1, |cell.log| - 1);
    SameSequenceSameRecord(was, cell.log);
    var next := read.(sequence := read.sequence + 1, status := Failed, effect := Committed,
                      barrier := if read.barrier.Some? then Some(read.barrier.value.(committed := true)) else None);
    w := cell.Update(next, Correct);
  }

  /** The sweep, on one record of this node's index: a copy of the record as some write left it, which
      may be behind. The owner's liveness has lapsed, or this node restarted. */
  method OrphanFrom(cell: RecordCell, copy: Operation) returns (w: Wrote)
    requires cell.Valid() && 1 <= copy.sequence <= |cell.log| && cell.log[copy.sequence - 1].op == copy
    requires !copy.Terminal()
    modifies cell
    ensures cell.Valid() && old(cell.log) <= cell.log
    ensures w == Written ==> cell.stored == Orphaned(copy)
  {
    cell.OthersWrite();
    assert cell.stored.sequence == copy.sequence ==> cell.stored == copy;
    w := cell.Update(Orphaned(copy), Orphan);
  }
}
