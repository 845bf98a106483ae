/** Worker sessions (internal/control/worker.go): the durable lease of an out-of-process mover.

A session that stops heartbeating is unresolved, not clean: its last backend effect may still land.
Only an operator's resolution, with an attestation, continues or closes it. A completed session is
final. */
module Workers {
  import opened Basics

  datatype WorkerState = Active | Completed | Unresolved

  datatype Session = Session(
    id: string, identity: string, generation: int, sequence: int, state: WorkerState,
    inflight: int, uncertain: int, lastSeen: int, completedAt: int, error: string,
    resolvedBy: string, attestation: string)

  datatype Heartbeat = Heartbeat(
    session: string, identity: string, generation: int, sequence: int, inflight: int, uncertain: int,
    complete: bool, error: string, resolve: bool, attestation: string)

  const MAX_WORKER_COUNT := 0x4000_0000

  /** What the route accepts before it looks at the record (workerHeartbeat). */
  predicate Acceptable(req: Heartbeat) {
    && req.sequence > 0 && req.generation > 0
    && 0 <= req.inflight <= MAX_WORKER_COUNT && 0 <= req.uncertain <= MAX_WORKER_COUNT
    && (req.complete ==> req.inflight == 0 && req.uncertain == 0)
    && (req.resolve ==> req.attestation != "")
  }

  /** The parts of a mover's record a heartbeat is checked against. `external` and `session` are the
      request's arguments, `generation` its scope's (none without a scope). */
  datatype Mover = Mover(isMover: bool, external: bool, session: string, identity: string,
                         generation: Option<int>, created: int, ended: bool, worker: Option<Session>)

  datatype Refusal =
    | NotAMover | NotEnrolled | AnotherLineage | RecordEnded | SessionCompleted | SessionExpired
    | SequenceBehind | SequenceReused | NotEnrolledYet | SessionLive

  datatype Answer = Refused(why: Refusal) | Repeated(worker: Session) | Written(worker: Session)

  function Became(req: Heartbeat): WorkerState {
    if req.complete then Completed else Active
  }

  /** sameWorker: whether req, at cur's sequence, is the heartbeat that wrote cur. */
  predicate SameWorker(cur: Session, req: Heartbeat, actor: string) {
    && cur.id == req.session && cur.identity == req.identity && cur.generation == req.generation
    && cur.state == Became(req) && cur.inflight == req.inflight && cur.uncertain == req.uncertain
       && cur.error == req.error
    && (|| (!req.resolve && cur.resolvedBy == "" && cur.attestation == "")
        || (req.resolve && cur.resolvedBy == actor && cur.attestation == req.attestation))
  }

  predicate Expired(cur: Session, now: int, ttl: int) {
    cur.state == Active && now - cur.lastSeen > ttl
  }

  /** nextWorker: the session req makes of the record's. */
  function NextWorker(op: Mover, req: Heartbeat, actor: string, now: int, ttl: int): Answer {
    if !op.isMover || op.generation.None? then Refused(NotAMover)
    else if !op.external || op.session != req.session then Refused(NotEnrolled)
    else if req.identity != op.identity || req.generation != op.generation.value then Refused(AnotherLineage)
    else
      var cur := op.worker;
      var repeats := cur.Some? && req.sequence == cur.value.sequence && SameWorker(cur.value, req, actor);
      if repeats && cur.value.state == Completed then Repeated(cur.value)
      else if op.ended then Refused(RecordEnded)
      else if cur.Some? && cur.value.state == Completed then Refused(SessionCompleted)
      else if cur.Some? && (cur.value.state == Unresolved || Expired(cur.value, now, ttl)) && !req.resolve then
        Refused(SessionExpired)
      else if cur.Some? && req.sequence < cur.value.sequence then Refused(SequenceBehind)
      else if cur.Some? && req.sequence == cur.value.sequence then
        if repeats then Repeated(cur.value) else Refused(SequenceReused)
      else
        Written(Session(req.session, req.identity, req.generation, req.sequence, Became(req), req.inflight,
          req.uncertain, now,
                        if req.complete then now else 0, req.error,
                        if req.resolve then actor else "", if req.resolve then req.attestation else ""))
  }

  /** workerResolvable: why an external mover's record cannot be resolved now, if it cannot. */
  function NotResolvable(op: Mover, now: int, ttl: int): Option<Refusal> {
    if !op.isMover || !op.external then Some(NotAMover)
    else if op.ended then Some(RecordEnded)
    else if op.worker.None? then if now - op.created <= ttl then Some(NotEnrolledYet) else None
    else if op.worker.value.state == Completed then Some(SessionCompleted)
    else if op.worker.value.state == Active && now - op.worker.value.lastSeen <= ttl then Some(SessionLive)
    else None
  }

  /** The heartbeat an operator's resolution stands for (resolveWorker's build). */
  function Resolution(op: Mover, session: string, attestation: string, who: string, error: string, now: int,
      ttl: int): Option<Heartbeat>
  {
    var w := op.worker;
    if w.Some? && w.value.state == Completed && w.value.id == session && w.value.resolvedBy == who
      && w.value.attestation == attestation then
      Some(Heartbeat(w.value.id, w.value.identity, w.value.generation, w.value.sequence, 0, 0, true, w.value.error,
        true, w.value.attestation))
    else if NotResolvable(op, now, ttl).Some? then None
    else
      Some(Heartbeat(session, op.identity, if op.generation.Some? then op.generation.value else 0,
                     if w.Some? then w.value.sequence + 1 else 1, 0, 0, true, error, true, attestation))
  }

  // ---------------------------------------------------------------------------------------------
  // Runs: heartbeats and resolutions at any clock readings, and the record's end.

  datatype Event =
    | Beat(req: Heartbeat, actor: string, now: int)
    | Resolve(session: string, attestation: string, who: string, error: string, now: int)
    | EndRecord

  /** What the routes let through: a resolution carries an attestation. */
  predicate Sent(e: Event) {
    match e
    case Beat(req, _, _) => Acceptable(req)
    case Resolve(_, attestation, _, _, _) => attestation != ""
    case EndRecord => true
  }

  function AnswerTo(op: Mover, e: Event, ttl: int): Option<Answer> {
    match e
    case Beat(req, actor, now) => Some(NextWorker(op, req, actor, now, ttl))
    case Resolve(session, attestation, who, error, now) =>
      var req := Resolution(op, session, attestation, who, error, now, ttl);
      if req.Some? then Some(NextWorker(op, req.value, who, now, ttl)) else None
    case EndRecord => None
  }

  function Next(op: Mover, e: Event, ttl: int): Mover {
    if e.EndRecord? then op.(ended := true)
    else
      var answer := AnswerTo(op, e, ttl);
      if answer.Some? && answer.value.Written? then op.(worker := Some(answer.value.worker)) else op
  }

  function Play(op: Mover, events: seq<Event>, ttl: int): Mover {
    if events == [] then op else Next(Play(op, events[..|events| - 1], ttl), events[|events| - 1], ttl)
  }

  /** What a session in the record always is: its own, numbered, and clean once completed. */
  ghost predicate WellKept(op: Mover) {
    op.worker.Some? ==>
      && op.worker.value.id == op.session && op.worker.value.identity == op.identity
         && op.generation == Some(op.worker.value.generation)
      && op.worker.value.state != Unresolved
      && (op.worker.value.state == Completed ==> op.worker.value.inflight == 0 && op.worker.value.uncertain == 0)
  }

  lemma EventKeepsSessions(op: Mover, e: Event, ttl: int)
    requires WellKept(op) && Sent(e)
    ensures WellKept(Next(op, e, ttl))
  {
  }

  /** A write raises the session's sequence; it never touches a completed session or an ended
      record; and over an expired one it is a resolution, recorded with who attested and what. */
  lemma WritesAreFenced(op: Mover, e: Event, ttl: int)
    requires WellKept(op) && Sent(e)
    requires Next(op, e, ttl).worker != op.worker
    ensures !op.ended && Next(op, e, ttl).worker.Some?
    ensures op.worker.Some? ==>
              && op.worker.value.state != Completed
              && op.worker.value.sequence < Next(op, e, ttl).worker.value.sequence
    ensures op.worker.Some? && (e.Beat? || e.Resolve?) && Expired(op.worker.value, e.now, ttl) ==>
              && Next(op, e, ttl).worker.value.attestation != ""
              && Next(op, e, ttl).worker.value.resolvedBy == (if e.Beat? then e.actor else e.who)
              && (e.Beat? ==> e.req.resolve)
  {
  }

  /** Over any run the session's sequence never falls, and rises with every change. */
  lemma {:induction false} SequencesRise(op: Mover, events: seq<Event>, ttl: int, n: nat)
    requires WellKept(op) && n <= |events| && forall e <- events :: Sent(e)
    ensures WellKept(Play(op, events, ttl))
    ensures
      var before, after := Play(op, events[..n], ttl).worker, Play(op, events, ttl).worker;
      after == before || (after.Some? && (before.Some? ==> before.value.sequence < after.value.sequence))
    decreases |events|
  {
    if events == [] {
      assert events[..n] == events;
    } else {
      var less, last := events[..|events| - 1], events[|events| - 1];
      var m := if n == |events| then n - 1 else n;
      SequencesRise(op, less, ttl, m);
      EventKeepsSessions(Play(op, less, ttl), last, ttl);
      if n == |events| {
        assert events[..n] == events;
      } else {
        assert events[..n] == less[..n];
        if Play(op, events, ttl).worker != Play(op, less, ttl).worker {
          WritesAreFenced(Play(op, less, ttl), last, ttl);
        }
      }
    }
  }

  /** A completed session, and the attestation on it, never change. */
  lemma {:induction false} CompletionIsFinal(op: Mover, events: seq<Event>, ttl: int, n: nat)
    requires WellKept(op) && n <= |events| && forall e <- events :: Sent(e)
    requires Play(op, events[..n], ttl).worker.Some? && Play(op, events[..n], ttl).worker.value.state == Completed
    ensures Play(op, events, ttl).worker == Play(op, events[..n], ttl).worker
    decreases |events|
  {
    if n == |events| {
      assert events[..n] == events;
    } else {
      var less, last := events[..|events| - 1], events[|events| - 1];
      assert events[..n] == less[..n];
      CompletionIsFinal(op, less, ttl, n);
      SequencesRise(op, less, ttl, 0);
      if Play(op, events, ttl).worker != Play(op, less, ttl).worker {
        WritesAreFenced(Play(op, less, ttl), last, ttl);
      }
    }
  }

  /** A completing heartbeat whose answer was lost may be repeated at any later time, after any other
      heartbeats and after the record ended: it writes nothing and gets the same answer. */
  lemma {:induction false} RepeatedCompletionAnswersTheSame(op: Mover, req: Heartbeat, actor: string, now: int,
      later: seq<Event>, again: int, ttl: int)
    requires WellKept(op) && Acceptable(req) && req.complete && forall e <- later :: Sent(e)
    requires NextWorker(op, req, actor, now, ttl).Written?
    ensures
      var written := NextWorker(op, req, actor, now, ttl).worker;
      var after := Play(op, [Beat(req, actor, now)] + later, ttl);
      NextWorker(after, req, actor, again, ttl) == Repeated(written)
  {
    var first := Beat(req, actor, now);
    var all := [first] + later;
    assert all[..1] == [first] && [first][..0] == [];
    assert Play(op, [], ttl) == op;
    assert Play(op, [first], ttl) == Next(op, first, ttl);
    CompletionIsFinal(op, all, ttl, 1);
    PlayKeepsTheRequest(op, all, ttl);
  }

  lemma {:induction false} PlayKeepsTheRequest(op: Mover, events: seq<Event>, ttl: int)
    ensures Play(op, events, ttl) == op.(worker := Play(op, events, ttl).worker, ended := Play(op, events, ttl).ended)
  {
    if events != [] {
      PlayKeepsTheRequest(op, events[..|events| - 1], ttl);
    }
  }

  /** An operator's resolution of an external mover's session is taken exactly when the session has
      expired or never enrolled in time, on a record that is not ended; it closes the session with
      the operator's attestation, and saying it again changes nothing. */
  lemma ResolutionCloses(op: Mover, session: string, attestation: string, who: string, error: string, now: int,
      again: int, ttl: int)
    requires WellKept(op) && op.isMover && op.external && op.generation.Some? && op.session == session
             && attestation != ""
    requires op.worker.Some? && op.worker.value.state == Completed ==>
               op.worker.value.resolvedBy != who || op.worker.value.attestation != attestation
    ensures
      var e := Resolve(session, attestation, who, error, now);
      var after := Next(op, e, ttl);
      if NotResolvable(op, now, ttl).Some? then after == op && AnswerTo(op, e, ttl).None?
      else
        && after.worker.Some? && after.worker.value.state == Completed
        && after.worker.value.resolvedBy == who && after.worker.value.attestation == attestation
        && AnswerTo(after, Resolve(session, attestation, who, error, again), ttl) == Some(Repeated(after.worker.value))
  {
  }
}
