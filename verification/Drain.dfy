/** The drain barrier end to end (internal/control/barrier.go, internal/proxy/gates.go,
internal/admission/admission.go, internal/member/member.go).

One operation guards one change to a placement's routing with a barrier. Its hold is a directory
version that carries the barrier. Any number of proxies install versions in their own time, close
and open their gates, admit requests routed by any version they have published, crash, restart from
their durable cache, and send heartbeats that arrive late, repeatedly or out of order. The owner of
the operation writes the hold, waits until every member's last heartbeat says it drained, and
commits. Owners crash and are resumed one at a time, and a cancellation may release the hold.

`DrainSafety` is the point: once the commit has landed, no member that drained for it has work left
that was routed by a version before the commit, in any of its processes, and no gate of it admits
any more. For the members the drain does not wait for, retired or joined later, what decides is the
version their processes start from (`LateStartIsSafe`, `EarlyStartAdmitsExactly`).

The system is one placement and one of its gates: a cluster barrier is this system once for every
placement it covers, since an acknowledgement that sums several gates says at least what it says of
each one. */
module Drain {
  import opened Basics
  import opened Admission
  import opened Derivation
  import opened ProxyGates
  import opened GateKeeping

  // ---------------------------------------------------------------------------------------------
  // The acknowledgement check (memberBlockers).

  datatype Blocker = InstallPending | CacheNotDurable | BackendOutcomeUnknown(count: int) | OldRequests(count: int)

  /** The barrier as the operation's record has it. */
  datatype BarrierState = BarrierState(id: string, holdVersion: int, generation: int)

  function AckOf(acks: seq<Ack>, id: string): Option<Ack> {
    if acks == [] then None
    else if acks[0].id == id then Some(acks[0])
    else AckOf(acks[1..], id)
  }

  /** What one proxy's acknowledgements say stands in the barrier's way. */
  function MemberBlockers(acks: seq<Ack>, durable: int, st: BarrierState): seq<Blocker> {
    match AckOf(acks, st.id)
    case None => [InstallPending]
    case Some(ack) =>
      if ack.generation < st.generation || !ack.closed then [InstallPending]
      else
        (if durable < st.holdVersion then [CacheNotDurable] else []) +
        (if ack.uncertain > 0 then [BackendOutcomeUnknown(ack.uncertain)] else []) +
        (if ack.inflight > 0 then [OldRequests(ack.inflight)] else [])
  }

  // ---------------------------------------------------------------------------------------------
  // The system.

  /** The barrier under study: its id, the gate it closes, and whether it is the placement's own
      (its acknowledgement then wants the gate closed by it) or a cluster's. */
  datatype Setup = Setup(id: string, kind: Kind, own: bool)

  /** What one directory version says of the placement: whether the barrier covers it, what closes
      its gates, and the generation of the barrier's scope. */
  datatype Version = Version(carries: bool, closed: Closed, generation: int)

  /** A heartbeat: the process that sent it, its acknowledgements and the version its restart cache
      holds durably. */
  datatype Report = Report(process: nat, acks: seq<Ack>, durable: nat)

  /** A heartbeat being assembled: the durable version is loaded, then the installed snapshot, then
      the gates are read. */
  datatype Beat = Idle | Loaded(durable: nat) | Snapped(durable: nat, snap: nat) | Ready(report: Report)

  /** One process of a proxy. `start` is the version it first routed by, `current` the newest it has
      published, `store` the snapshot it holds, `installed` and `served` what its gate keeper was
      last told. `out` and `unsure` are the routing versions of the work admitted through the gate:
      still out, or ended without an outcome. */
  datatype Process = Process(start: nat, current: nat, store: nat, installed: nat, served: nat,
                             gate: Gate, out: multiset<nat>, unsure: multiset<nat>, beat: Beat)

  /** A proxy: its running process and its number, its durable cache, what each ended process left
      that may still land, the heartbeats it has sent, and its member record: the unresolved
      processes, those an operator settled or that retired, the heartbeat last delivered, and the
      process that retired cleanly, while no other is heard of. */
  datatype Proxy = Proxy(number: nat, process: Process, durable: nat, left: seq<multiset<nat>>, sent: set<Report>,
                         unresolved: set<nat>, settled: set<nat>, seen: Option<Report>, retired: Option<nat>)

  datatype Phase = Before | Commit

  datatype Record = Record(hold: nat, generation: int, phase: Phase, ended: bool)

  /** Where a run of the operation stands. `drained` is the members its drain found drained; none
      when the scope no longer carried the barrier and there was nothing to drain. */
  datatype At = AtHold | AtRecordHold | AtCheck | AtDrain | AtPhase(drained: Option<set<string>>)
      | AtCommit(drained: Option<set<string>>)

  datatype Owner = Gone | Owner(hold: nat, generation: int, at: At)

  datatype State = State(
    versions: seq<Version>,     // the directory, every version of it
    proxies: map<string, Proxy>,
    record: Record,
    owner: Owner,
    held: Option<nat>,          // the version that wrote the hold
    ended: Option<nat>,         // the version that ended it: the commit, or a release
    committed: Option<set<string>> // the members drained for the commit, once it has landed
  ) {
    function Now(): int { |versions| - 1 }

    predicate Carried() { versions != [] && versions[|versions| - 1].carries }
  }

  datatype ProxyStep =
    | StoreSnapshot(v: nat)
    | Publish(v: nat)
    | KeeperServed(v: nat)
    | KeeperInstalled
    | Persist(v: nat)
    | EnterGate(v: nat)
    | LeaveGate(v: nat, outcome: Outcome)
    | LoadDurable
    | LoadSnapshot
    | ReadGate(others: Ack)
    | Send
    | Deliver(report: Report)
    | Restart
    | Retire
    | Resolve(number: nat)

  datatype Step =
    | OfProxy(p: string, step: ProxyStep)
    | Join(p: string, at: nat)
    | StartOwner
    | WriteHold(to: Version)
    | RecordHold
    | CheckCarried
    | PassDrain
    | WritePhase
    | WriteCommit(to: Version)
    | CrashOwner
    | Cancel
    | Release(to: Version)
    | OtherWrite(to: Version)

  function Kept(versions: seq<Version>, q: Process): Process
    requires q.installed < |versions| && q.served < |versions|
  {
    var c := Merged(versions[q.installed].closed, versions[q.served].closed);
    q.(gate := q.gate.Applied(c, Max(q.installed, q.served), q.served < q.installed))
  }

  /** A process as it starts to serve: its cache installed and published, its gates applied. */
  function Started(versions: seq<Version>, v: nat): Process
    requires v < |versions|
  {
    Kept(versions, Process(v, v, v, v, v, FRESH, multiset{}, multiset{}, Idle))
  }

  /** The acknowledgement of the barrier a heartbeat carries, when its snapshot has the barrier:
      this gate's counts, with whatever the barrier's other placements add. */
  function AcksFrom(c: Setup, at: Version, g: Gate, others: Ack): seq<Ack> {
    if !at.carries then []
    else
      var closed := if c.own then g.closed.At(c.kind) == c.id else g.closed.At(c.kind) != "";
      [Ack(c.id, others.scope, at.generation, others.kind, closed && others.closed,
           g.inflight.At(c.kind) + others.inflight, g.uncertain.At(c.kind) + others.uncertain)]
  }

  /** A directory write that leaves the barrier on the scope or off it. A version that carries it
      closes the gate (`SnapshotCloses`). */
  predicate MayWrite(to: Version, carries: bool, kind: Kind) {
    to.carries == carries && (to.carries ==> to.closed.At(kind) != "")
  }

  predicate ProxyEnabled(c: Setup, versions: seq<Version>, p: Proxy, step: ProxyStep) {
    var q := p.process;
    match step
    case StoreSnapshot(v) => q.installed == q.store && q.store < v < |versions| // installs are serialized
    case Publish(v) => q.current < v <= q.store
    case KeeperServed(v) => q.start <= v <= q.current // the hook runs late, and in any order
    case KeeperInstalled => true
    case Persist(v) => p.durable < v <= q.installed // once the install is done
    case EnterGate(v) => q.start <= v <= q.current && q.gate.Admits(c.kind, v)
    case LeaveGate(v, _) => v in q.out
    case LoadDurable => q.beat.Idle?
    case LoadSnapshot => q.beat.Loaded?
    case ReadGate(others) => q.beat.Snapped? && 0 <= others.inflight && 0 <= others.uncertain
    case Send => q.beat.Ready?
    case Deliver(r) => r in p.sent
    case Restart => true
    case Retire => // every outcome learned, and the record's running process
      q.out == multiset{} && q.unsure == multiset{} && p.seen.Some? && p.seen.value.process == p.number
    case Resolve(i) => i in p.unresolved // the operator attests that its work has ended
  }

  /** The versions a proxy holds exist, in the order it came by them. */
  predicate InOrder(versions: seq<Version>, p: Proxy) {
    var q := p.process;
    && q.start <= q.current <= q.store < |versions|
    && q.start <= q.installed <= q.store
    && q.served <= q.current
    && q.start <= p.durable <= q.installed
    && (q.beat.Loaded? || q.beat.Snapped? ==> q.beat.durable <= p.durable)
    && (q.beat.Snapped? ==> q.beat.snap < |versions|)
    && |p.left| == p.number
    && (forall i <- p.unresolved :: i < p.number)
    && (p.retired.Some? ==> p.retired.value < p.number)
    && (forall r <- p.sent :: r.process <= p.number && r.durable < |versions|)
    && (q.beat.Ready? ==> q.beat.report.process == p.number && q.beat.report.durable < |versions|)
  }

  function ProxyAfter(c: Setup, versions: seq<Version>, p: Proxy, step: ProxyStep): Proxy
    requires ProxyEnabled(c, versions, p, step) && InOrder(versions, p)
  {
    var q := p.process;
    match step
    case StoreSnapshot(v) => p.(process := q.(store := v))
    case Publish(v) => p.(process := q.(current := v))
    case KeeperServed(v) => p.(process := Kept(versions, q.(served := v)))
    case KeeperInstalled => p.(process := Kept(versions, q.(installed := q.store)))
    case Persist(v) => p.(durable := v)
    case EnterGate(v) => p.(process := q.(gate := q.gate.Entered(c.kind), out := q.out + multiset{v}))
    case LeaveGate(v, o) =>
      p.(process := q.(gate := q.gate.Released(c.kind, o), out := q.out - multiset{v},
                       unsure := if o == Uncertain then q.unsure + multiset{v} else q.unsure))
    case LoadDurable => p.(process := q.(beat := Loaded(p.durable)))
    case LoadSnapshot => p.(process := q.(beat := Snapped(q.beat.durable, q.store)))
    case ReadGate(others) =>
      p.(process := q.(beat := Ready(Report(p.number, AcksFrom(c, versions[q.beat.snap], q.gate, others),
        q.beat.durable))))
    case Send => p.(sent := p.sent + {q.beat.report}, process := q.(beat := Idle))
    case Deliver(r) =>
      p.(seen := Some(r), unresolved := p.unresolved + Earlier(r.process) - p.settled,
         retired := if p.retired.Some? && r.process <= p.retired.value then p.retired else None)
    case Restart =>
      p.(number := p.number + 1, left := p.left + [q.out + q.unsure], process := Started(versions, p.durable))
    case Retire =>
      p.(number := p.number + 1, left := p.left + [multiset{}], process := Started(versions, p.durable),
         unresolved := p.unresolved - {p.number}, settled := p.settled + {p.number}, retired := Some(p.number))
    case Resolve(i) => p.(left := p.left[i := multiset{}], unresolved := p.unresolved - {i}, settled := p.settled + {i})
  }

  /** The processes before the n-th: a heartbeat of a new process is recorded with every earlier one
      that is not settled (Fleet.Heartbeat). */
  function Earlier(n: nat): set<nat> {
    if n == 0 then {} else Earlier(n - 1) + {n - 1}
  }

  /** A member with nothing unresolved that retired is counted out of the drain. */
  predicate CountedOut(p: Proxy) {
    p.unresolved == {} && p.retired.Some?
  }

  predicate Passes(c: Setup, p: Proxy, hold: nat, generation: int) {
    && p.unresolved == {}
    && p.seen.Some?
    && MemberBlockers(p.seen.value.acks, p.seen.value.durable, BarrierState(c.id, hold, generation)) == []
  }

  predicate Enabled(c: Setup, s: State, step: Step) {
    match step
    case OfProxy(p, ps) => p in s.proxies && ProxyEnabled(c, s.versions, s.proxies[p], ps)
    case Join(p, at) => p !in s.proxies && at < |s.versions|
    case StartOwner => s.owner.Gone? && !s.record.ended
    case WriteHold(to) => s.owner.Owner? && s.owner.at.AtHold? && (s.Carried() || MayWrite(to, true, c.kind))
    case RecordHold => s.owner.Owner? && s.owner.at.AtRecordHold?
    case CheckCarried => s.owner.Owner? && s.owner.at.AtCheck?
    case PassDrain =>
      && s.owner.Owner? && s.owner.at.AtDrain?
      && forall p <- s.proxies :: CountedOut(s.proxies[p]) || Passes(c, s.proxies[p], s.owner.hold, s.owner.generation)
    case WritePhase => s.owner.Owner? && s.owner.at.AtPhase?
    case WriteCommit(to) => s.owner.Owner? && s.owner.at.AtCommit? && MayWrite(to, false, c.kind)
    case CrashOwner => s.owner.Owner?
    case Cancel => !s.record.ended // though its owner may be running, taken for gone
    case Release(to) => s.record.ended && s.Carried() && MayWrite(to, false, c.kind)
    case OtherWrite(to) => MayWrite(to, s.Carried(), c.kind)
  }

  predicate Sound(s: State) {
    s.versions != [] && forall p <- s.proxies :: InOrder(s.versions, s.proxies[p])
  }

  function OwnerAfter(s: State, step: Step): State
    requires s.versions != []
    requires match step
             case OfProxy(_, _) => false
             case Join(_, _) => false
             case StartOwner => true
             case WriteHold(_) => s.owner.Owner?
             case RecordHold => s.owner.Owner?
             case CheckCarried => s.owner.Owner?
             case PassDrain => s.owner.Owner?
             case WritePhase => s.owner.Owner? && s.owner.at.AtPhase?
             case WriteCommit(_) => s.owner.Owner? && s.owner.at.AtCommit?
             case _ => true
  {
    match step
    case StartOwner =>
      s.(owner := Owner(s.record.hold, s.record.generation, if s.record.hold == 0 then AtHold else AtCheck))
    case WriteHold(to) =>
      if s.Carried() then // written by an earlier run
        s.(owner := Owner(s.Now(), s.versions[s.Now()].generation, AtRecordHold))
      else
        s.(versions := s.versions + [to], held := Some(|s.versions|),
          owner := Owner(|s.versions|, to.generation, AtRecordHold))
    case RecordHold =>
      if s.record.ended then s.(owner := Gone) // the write is stale: the run stops
      else s.(record := s.record.(hold := s.owner.hold, generation := s.owner.generation),
        owner := s.owner.(at := AtCheck))
    case CheckCarried =>
      if s.Carried() then
        s.(owner := s.owner.(at := AtDrain), record := if s.record.ended then s.record else s.record.(phase := Before))
      else s.(owner := s.owner.(at := AtPhase(None)))
    case PassDrain => s.(owner := s.owner.(at := AtPhase(Some(set p | p in s.proxies && !CountedOut(s.proxies[p])))))
    case WritePhase =>
      var unwritten := s.owner.at.drained.None? && s.record.phase == Commit; // the phase it would write is there
      if s.record.ended && !unwritten then s.(owner := Gone)
      else s.(record := s.record.(phase := Commit), owner := s.owner.(at := AtCommit(s.owner.at.drained)))
    case WriteCommit(to) =>
      if !s.Carried() then s.(owner := Gone) // written by an earlier run, or released
      else s.(versions := s.versions + [to], ended := Some(|s.versions|), committed := s.owner.at.drained,
        owner := Gone)
    case CrashOwner => s.(owner := Gone)
    case Cancel => s.(record := s.record.(ended := true))
    case Release(to) => s.(versions := s.versions + [to], ended := Some(|s.versions|))
    case OtherWrite(to) => s.(versions := s.versions + [to])
  }

  /** A new member, serving from a version. */
  function Joined(versions: seq<Version>, at: nat): Proxy
    requires at < |versions|
  {
    Proxy(0, Started(versions, at), at, [], {}, {}, {}, None, None)
  }

  function After(c: Setup, s: State, step: Step): State
    requires Sound(s) && Enabled(c, s, step)
  {
    match step
    case OfProxy(p, ps) => s.(proxies := s.proxies[p := ProxyAfter(c, s.versions, s.proxies[p], ps)])
    case Join(p, at) => s.(proxies := s.proxies[p := Joined(s.versions, at)])
    case _ => OwnerAfter(s, step)
  }

  // ---------------------------------------------------------------------------------------------
  // What every step keeps.

  /** When the barrier is on the scope: from its hold to its commit or release. */
  ghost predicate Directory(c: Setup, versions: seq<Version>, held: Option<nat>, ended: Option<nat>) {
    && c.id != ""
    && versions != []
    && (held.Some? ==> 0 < held.value < |versions|)
    && (ended.Some? ==> held.Some? && held.value < ended.value < |versions|)
    && (held.None? ==> forall v | 0 <= v < |versions| :: !versions[v].carries)
    && (held.Some? ==> forall v | held.value <= v < |versions| :: versions[v].carries <==>
         ended.None? || v < ended.value)
    && (forall v | 0 <= v < |versions| :: versions[v].carries ==> versions[v].closed.At(c.kind) != "")
  }

  /** A proxy's gate counts its work, and is closed while the installed version closes it. */
  ghost predicate Counted(c: Setup, versions: seq<Version>, q: Process)
    requires q.installed < |versions|
  {
    && q.gate.inflight.At(c.kind) == |q.out|
    && q.gate.uncertain.At(c.kind) == |q.unsure|
    && (versions[q.installed].closed.At(c.kind) != "" ==> q.gate.closed.At(c.kind) != "")
  }

  /** A member record names every process before the one last heard of that may have left work. */
  ghost predicate Recorded(p: Proxy) {
    && (forall i <- p.settled :: i < |p.left| && p.left[i] == multiset{})
    && (p.retired.Some? ==>
         p.retired.value < |p.left|
           && forall i | 0 <= i <= p.retired.value && p.left[i] != multiset{} :: i in p.unresolved)
    && (p.seen.Some? ==>
          && p.seen.value in p.sent
          && (forall i | 0 <= i < p.seen.value.process && i < |p.left| && p.left[i] != multiset{} :: i in p.unresolved))
  }

  ghost predicate Faithful(c: Setup, versions: seq<Version>, p: Proxy) {
    InOrder(versions, p) && Counted(c, versions, p.process) && Recorded(p)
  }

  /** A heartbeat that lets the drain pass for a hold written at version `h` or before it. */
  ghost predicate Proof(c: Setup, h: nat, r: Report) {
    && AckOf(r.acks, c.id).Some?
    && AckOf(r.acks, c.id).value.closed
    && AckOf(r.acks, c.id).value.inflight <= 0
    && AckOf(r.acks, c.id).value.uncertain <= 0
    && h <= r.durable
  }

  /** Work routed by no version before the barrier ended; none at all while it has not. */
  ghost predicate Late(work: multiset<nat>, ended: Option<nat>) {
    forall v | v in work :: ended.Some? && ended.value <= v
  }

  /** From its `j`-th process on, the proxy has no work of the guarded routing and its gate lets
      none in. */
  ghost predicate Secure(c: Setup, h: nat, ended: Option<nat>, p: Proxy, j: nat) {
    var q := p.process;
    && j <= p.number == |p.left|
    && h <= p.durable && h <= q.installed
    && (|| q.gate.closed.At(c.kind) != ""
        || (ended.Some? && (ended.value <= q.gate.from || ended.value <= q.start)))
    && Late(q.out, ended) && Late(q.unsure, ended)
    && (forall i | j <= i < p.number :: Late(p.left[i], ended))
  }

  ghost predicate Proven(c: Setup, held: Option<nat>, ended: Option<nat>, p: Proxy) {
    held.Some? ==>
      && (forall r <- p.sent | Proof(c, held.value, r) :: Secure(c, held.value, ended, p, r.process))
      && (p.process.beat.Ready? && Proof(c, held.value, p.process.beat.report) ==>
           Secure(c, held.value, ended, p, p.number))
  }

  lemma KeeperHoldsTheGate(c: Setup, versions: seq<Version>, held: Option<nat>, ended: Option<nat>, q: Process)
    requires Directory(c, versions, held, ended)
    requires q.installed < |versions| && q.served < |versions|
    ensures
      var g := Kept(versions, q).gate;
      && g.inflight == q.gate.inflight && g.uncertain == q.gate.uncertain
      && q.gate.from <= g.from
      && (versions[q.installed].closed.At(c.kind) != "" ==> g.closed.At(c.kind) != "")
      // A gate held closed opens only once both versions are past the barrier.
      && (held.Some? && held.value <= q.installed && q.gate.closed.At(c.kind) != "" && g.closed.At(c.kind) == "" ==>
            ended.Some? && ended.value <= g.from)
  {
  }

  lemma KeptSecure(c: Setup, versions: seq<Version>, held: Option<nat>, ended: Option<nat>, p: Proxy, q: Process,
      j: nat)
    requires Directory(c, versions, held, ended) && held.Some?
    requires Secure(c, held.value, ended, p, j)
    requires q.installed < |versions| && q.served < |versions| && p.process.installed <= q.installed
    requires q == p.process.(installed := q.installed, served := q.served)
    ensures Secure(c, held.value, ended, p.(process := Kept(versions, q)), j)
  {
    KeeperHoldsTheGate(c, versions, held, ended, q);
  }

  lemma StartedSecure(c: Setup, versions: seq<Version>, held: Option<nat>, ended: Option<nat>, v: nat)
    requires Directory(c, versions, held, ended) && held.Some?
    requires held.value <= v < |versions|
    ensures
      var q := Started(versions, v);
      q.gate.closed.At(c.kind) != "" || (ended.Some? && ended.value <= q.start)
  {
  }

  lemma StepKeepsSecure(c: Setup, versions: seq<Version>, held: Option<nat>, ended: Option<nat>, p: Proxy,
      step: ProxyStep, j: nat)
    requires Directory(c, versions, held, ended) && held.Some?
    requires InOrder(versions, p) && ProxyEnabled(c, versions, p, step)
    requires Secure(c, held.value, ended, p, j)
    ensures Secure(c, held.value, ended, ProxyAfter(c, versions, p, step), j)
  {
    match step
    case KeeperServed(v) => KeptSecure(c, versions, held, ended, p, p.process.(served := v), j);
    case KeeperInstalled => KeptSecure(c, versions, held, ended, p, p.process.(installed := p.process.store), j);
    case Restart => EndingKeepsSecure(c, versions, held, ended, p, step, j);
    case Retire => EndingKeepsSecure(c, versions, held, ended, p, step, j);
    case EnterGate(_) => WorkKeepsSecure(c, versions, held, ended, p, step, j);
    case LeaveGate(_, _) => WorkKeepsSecure(c, versions, held, ended, p, step, j);
    case _ =>
  }

  /** A process ends, and the next starts from the cache. */
  lemma EndingKeepsSecure(c: Setup, versions: seq<Version>, held: Option<nat>, ended: Option<nat>, p: Proxy,
      step: ProxyStep, j: nat)
    requires Directory(c, versions, held, ended) && held.Some?
    requires InOrder(versions, p) && ProxyEnabled(c, versions, p, step) && (step.Restart? || step.Retire?)
    requires Secure(c, held.value, ended, p, j)
    ensures Secure(c, held.value, ended, ProxyAfter(c, versions, p, step), j)
  {
    StartedSecure(c, versions, held, ended, p.durable);
  }

  /** A request enters or leaves. */
  lemma WorkKeepsSecure(c: Setup, versions: seq<Version>, held: Option<nat>, ended: Option<nat>, p: Proxy,
      step: ProxyStep, j: nat)
    requires held.Some? && InOrder(versions, p) && ProxyEnabled(c, versions, p, step)
             && (step.EnterGate? || step.LeaveGate?)
    requires Secure(c, held.value, ended, p, j)
    ensures Secure(c, held.value, ended, ProxyAfter(c, versions, p, step), j)
  {
  }

  lemma ReadingProves(c: Setup, versions: seq<Version>, held: Option<nat>, ended: Option<nat>, p: Proxy, others: Ack)
    requires Directory(c, versions, held, ended) && held.Some?
    requires Faithful(c, versions, p) && ProxyEnabled(c, versions, p, ReadGate(others))
    ensures
      var after := ProxyAfter(c, versions, p, ReadGate(others));
      Proof(c, held.value, after.process.beat.report) ==> Secure(c, held.value, ended, after, after.number)
  {
  }

  lemma StepKeepsOrder(c: Setup, versions: seq<Version>, p: Proxy, step: ProxyStep)
    requires InOrder(versions, p) && ProxyEnabled(c, versions, p, step)
    ensures InOrder(versions, ProxyAfter(c, versions, p, step))
  {
    match step
    case Deliver(_) => RecordKeepsOrder(c, versions, p, step);
    case Resolve(_) => RecordKeepsOrder(c, versions, p, step);
    case Restart => EndingKeepsOrder(c, versions, p, step);
    case Retire => EndingKeepsOrder(c, versions, p, step);
    case _ =>
  }

  lemma RecordKeepsOrder(c: Setup, versions: seq<Version>, p: Proxy, step: ProxyStep)
    requires InOrder(versions, p) && ProxyEnabled(c, versions, p, step) && (step.Deliver? || step.Resolve?)
    ensures InOrder(versions, ProxyAfter(c, versions, p, step))
  {
    if step.Deliver? {
      EarlierIsAll(step.report.process);
    }
  }

  lemma EndingKeepsOrder(c: Setup, versions: seq<Version>, p: Proxy, step: ProxyStep)
    requires InOrder(versions, p) && ProxyEnabled(c, versions, p, step) && (step.Restart? || step.Retire?)
    ensures InOrder(versions, ProxyAfter(c, versions, p, step))
  {
  }

  lemma StepKeepsCounted(c: Setup, versions: seq<Version>, held: Option<nat>, ended: Option<nat>, p: Proxy,
      step: ProxyStep)
    requires Directory(c, versions, held, ended)
    requires InOrder(versions, p) && Counted(c, versions, p.process) && ProxyEnabled(c, versions, p, step)
    ensures var q := ProxyAfter(c, versions, p, step).process; q.installed < |versions| && Counted(c, versions, q)
  {
    match step
    case KeeperServed(v) => KeptIsCounted(c, versions, held, ended, p.process.(served := v));
    case KeeperInstalled => KeptIsCounted(c, versions, held, ended, p.process.(installed := p.process.store));
    case Restart => StartCounted(c, versions, held, ended, p.durable);
    case Retire => StartCounted(c, versions, held, ended, p.durable);
    case EnterGate(_) => RequestsAreCounted(c, versions, p, step);
    case LeaveGate(_, _) => RequestsAreCounted(c, versions, p, step);
    case _ => OthersChangeNoCount(c, versions, p, step);
  }

  lemma OthersChangeNoCount(c: Setup, versions: seq<Version>, p: Proxy, step: ProxyStep)
    requires InOrder(versions, p) && ProxyEnabled(c, versions, p, step)
    requires !step.KeeperServed? && !step.KeeperInstalled? && !step.Restart? && !step.Retire? && !step.EnterGate?
             && !step.LeaveGate?
    ensures var q := ProxyAfter(c, versions, p, step).process;
            q.gate == p.process.gate && q.out == p.process.out && q.unsure == p.process.unsure
              && q.installed == p.process.installed
  {
  }

  lemma KeptIsCounted(c: Setup, versions: seq<Version>, held: Option<nat>, ended: Option<nat>, q: Process)
    requires Directory(c, versions, held, ended) && q.installed < |versions| && q.served < |versions|
    requires q.gate.inflight.At(c.kind) == |q.out| && q.gate.uncertain.At(c.kind) == |q.unsure|
    ensures Counted(c, versions, Kept(versions, q))
  {
    KeeperHoldsTheGate(c, versions, held, ended, q);
  }

  lemma RequestsAreCounted(c: Setup, versions: seq<Version>, p: Proxy, step: ProxyStep)
    requires InOrder(versions, p) && Counted(c, versions, p.process) && ProxyEnabled(c, versions, p, step)
             && (step.EnterGate? || step.LeaveGate?)
    ensures var q := ProxyAfter(c, versions, p, step).process; q.installed < |versions| && Counted(c, versions, q)
  {
  }

  lemma StartCounted(c: Setup, versions: seq<Version>, held: Option<nat>, ended: Option<nat>, v: nat)
    requires Directory(c, versions, held, ended) && v < |versions|
    ensures Counted(c, versions, Started(versions, v))
  {
    KeeperHoldsTheGate(c, versions, held, ended, Process(v, v, v, v, v, FRESH, multiset{}, multiset{}, Idle));
  }

  lemma StepKeepsRecorded(c: Setup, versions: seq<Version>, p: Proxy, step: ProxyStep)
    requires InOrder(versions, p) && Recorded(p) && ProxyEnabled(c, versions, p, step)
    ensures Recorded(ProxyAfter(c, versions, p, step))
  {
    match step
    case Deliver(r) => DeliveryIsRecorded(c, versions, p, r);
    case Restart => EndingIsRecorded(c, versions, p, step);
    case Retire => EndingIsRecorded(c, versions, p, step);
    case Resolve(i) => ResolvingIsRecorded(c, versions, p, i);
    case _ => OthersChangeNoRecord(c, versions, p, step);
  }

  lemma ResolvingIsRecorded(c: Setup, versions: seq<Version>, p: Proxy, i: nat)
    requires InOrder(versions, p) && Recorded(p) && ProxyEnabled(c, versions, p, Resolve(i))
    ensures Recorded(ProxyAfter(c, versions, p, Resolve(i)))
  {
  }

  lemma OthersChangeNoRecord(c: Setup, versions: seq<Version>, p: Proxy, step: ProxyStep)
    requires InOrder(versions, p) && ProxyEnabled(c, versions, p, step)
    requires !step.Deliver? && !step.Restart? && !step.Retire? && !step.Resolve?
    ensures var q := ProxyAfter(c, versions, p, step);
            && q.settled == p.settled && q.left == p.left && q.retired == p.retired && q.unresolved == p.unresolved
            && q.seen == p.seen && p.sent <= q.sent
  {
  }

  lemma DeliveryIsRecorded(c: Setup, versions: seq<Version>, p: Proxy, r: Report)
    requires InOrder(versions, p) && Recorded(p) && ProxyEnabled(c, versions, p, Deliver(r))
    ensures Recorded(ProxyAfter(c, versions, p, Deliver(r)))
  {
    EarlierIsAll(r.process);
  }

  lemma EndingIsRecorded(c: Setup, versions: seq<Version>, p: Proxy, step: ProxyStep)
    requires InOrder(versions, p) && Recorded(p) && ProxyEnabled(c, versions, p, step)
             && (step.Restart? || step.Retire?)
    ensures Recorded(ProxyAfter(c, versions, p, step))
  {
  }

  lemma {:induction false} EarlierIsAll(n: nat)
    ensures forall i: nat :: i in Earlier(n) <==> i < n
  {
    if n > 0 {
      EarlierIsAll(n - 1);
    }
  }

  lemma StepKeepsProven(c: Setup, versions: seq<Version>, held: Option<nat>, ended: Option<nat>, p: Proxy,
      step: ProxyStep)
    requires Directory(c, versions, held, ended)
    requires Faithful(c, versions, p) && ProxyEnabled(c, versions, p, step)
    requires Proven(c, held, ended, p)
    ensures Proven(c, held, ended, ProxyAfter(c, versions, p, step))
  {
    if held.Some? {
      var after := ProxyAfter(c, versions, p, step);
      forall r | r in after.sent && Proof(c, held.value, r) ensures Secure(c, held.value, ended, after, r.process) {
        if r in p.sent {
          StepKeepsSecure(c, versions, held, ended, p, step, r.process);
        } else {
          StepKeepsSecure(c, versions, held, ended, p, step, p.number);
        }
      }
      if step.ReadGate? {
        ReadingProves(c, versions, held, ended, p, step.others);
      } else if after.process.beat.Ready? && Proof(c, held.value, after.process.beat.report) {
        StepKeepsSecure(c, versions, held, ended, p, step, p.number);
      }
    }
  }

  /** A member the drain may pass: a heartbeat of it proves the drain, and nothing is left of the
      processes before the one that sent it. */
  ghost predicate Drained(c: Setup, held: Option<nat>, p: Proxy) {
    held.Some? && exists r :: r in p.sent && Proof(c, held.value, r) && NothingBefore(p, r.process)
  }

  ghost predicate NothingBefore(p: Proxy, j: nat) {
    forall i | 0 <= i < j && i < |p.left| :: p.left[i] == multiset{}
  }

  ghost predicate AllDrained(c: Setup, s: State, members: set<string>) {
    members <= s.proxies.Keys && forall p <- members :: Drained(c, s.held, s.proxies[p])
  }

  ghost predicate Holds(s: State, hold: nat) {
    hold > 0 ==> s.held.Some? && s.held.value <= hold < |s.versions|
  }

  /** Where the operation can stand. */
  ghost predicate Steady(c: Setup, s: State) {
    && Holds(s, s.record.hold)
    && (s.ended.Some? ==> s.record.hold > 0 || (s.record.ended && s.owner.Gone?))
    && (s.record.ended && s.record.hold == 0 ==> s.owner.Gone?)
    && (s.committed.Some? ==> s.ended.Some? && AllDrained(c, s, s.committed.value))
    && (s.owner.Owner? ==>
          && Holds(s, s.owner.hold)
          && (s.owner.at.AtHold? <==> s.owner.hold == 0)
          && (s.record.hold > 0 ==> s.owner.hold > 0)
          && (!s.owner.at.AtHold? && !s.owner.at.AtRecordHold? ==> s.record.hold > 0)
          && (s.owner.at.AtPhase? || s.owner.at.AtCommit? ==>
                match s.owner.at.drained
                case None => s.ended.Some?
                case Some(members) => AllDrained(c, s, members)))
  }

  ghost predicate Inv(c: Setup, s: State) {
    && Directory(c, s.versions, s.held, s.ended)
    && (forall p <- s.proxies :: Trusted(c, s, s.proxies[p]))
    && Steady(c, s)
  }

  ghost predicate Trusted(c: Setup, s: State, p: Proxy) {
    Faithful(c, s.versions, p) && Proven(c, s.held, s.ended, p)
  }

  lemma ProxyStepKeepsDrained(c: Setup, versions: seq<Version>, held: Option<nat>, p: Proxy, step: ProxyStep)
    requires InOrder(versions, p) && ProxyEnabled(c, versions, p, step)
    requires Drained(c, held, p)
    ensures Drained(c, held, ProxyAfter(c, versions, p, step))
  {
    var r :| r in p.sent && Proof(c, held.value, r) && NothingBefore(p, r.process);
    var after := ProxyAfter(c, versions, p, step);
    assert r in after.sent && NothingBefore(after, r.process);
  }

  /** Where the operation stands depends on the proxies through what has drained alone. */
  lemma SteadyAmongProxies(c: Setup, s: State, proxies: map<string, Proxy>)
    requires Steady(c, s)
    requires s.proxies.Keys <= proxies.Keys
    requires forall p <- s.proxies | Drained(c, s.held, s.proxies[p]) :: Drained(c, s.held, proxies[p])
    ensures Steady(c, s.(proxies := proxies))
  {
    var after := s.(proxies := proxies);
    assert forall members | AllDrained(c, s, members) :: AllDrained(c, after, members);
  }

  lemma ProxyStepKeepsTrust(c: Setup, s: State, p: Proxy, step: ProxyStep)
    requires Directory(c, s.versions, s.held, s.ended)
    requires Trusted(c, s, p) && ProxyEnabled(c, s.versions, p, step)
    ensures Trusted(c, s, ProxyAfter(c, s.versions, p, step))
  {
    StepKeepsOrder(c, s.versions, p, step);
    StepKeepsCounted(c, s.versions, s.held, s.ended, p, step);
    StepKeepsRecorded(c, s.versions, p, step);
    StepKeepsProven(c, s.versions, s.held, s.ended, p, step);
  }

  lemma ProxyStepKeepsInv(c: Setup, s: State, p: string, step: ProxyStep)
    requires Inv(c, s) && Sound(s) && Enabled(c, s, OfProxy(p, step))
    ensures Inv(c, After(c, s, OfProxy(p, step)))
  {
    var was := s.proxies[p];
    var now := ProxyAfter(c, s.versions, was, step);
    ProxyStepKeepsTrust(c, s, was, step);
    if Drained(c, s.held, was) {
      ProxyStepKeepsDrained(c, s.versions, s.held, was, step);
    }
    AnotherProxyKeepsInv(c, s, p, now);
  }

  /** One proxy is replaced by another that is trusted and has drained if it had. */
  lemma AnotherProxyKeepsInv(c: Setup, s: State, p: string, now: Proxy)
    requires Inv(c, s) && Trusted(c, s, now)
    requires p in s.proxies && Drained(c, s.held, s.proxies[p]) ==> Drained(c, s.held, now)
    ensures Inv(c, s.(proxies := s.proxies[p := now]))
  {
    var after := s.(proxies := s.proxies[p := now]);
    SteadyAmongProxies(c, s, after.proxies);
    TrustIsOfTheDirectory(c, s, after);
  }

  lemma TrustIsOfTheDirectory(c: Setup, s: State, t: State)
    requires s.versions == t.versions && s.held == t.held && s.ended == t.ended
    ensures forall p :: Trusted(c, s, p) <==> Trusted(c, t, p)
  {
  }

  lemma JoinKeepsInv(c: Setup, s: State, p: string, at: nat)
    requires Inv(c, s) && Sound(s) && Enabled(c, s, Join(p, at))
    ensures Inv(c, After(c, s, Join(p, at)))
  {
    KeeperHoldsTheGate(c, s.versions, s.held, s.ended,
      Process(at, at, at, at, at, FRESH, multiset{}, multiset{}, Idle));
    AnotherProxyKeepsInv(c, s, p, Joined(s.versions, at));
  }

  /** A new version changes nothing a proxy has. When it is the first to carry the barrier, no
      heartbeat proves a drain of it yet; when it ends the barrier, the proof says more. */
  lemma NewVersionKeepsProxies(c: Setup, s: State, to: Version, held: Option<nat>, ended: Option<nat>)
    requires forall p <- s.proxies :: Trusted(c, s, s.proxies[p])
    requires (held == s.held && ended == s.ended) || (s.held.None? && held == Some(|s.versions|) && ended.None?)
          || (held == s.held && held.Some? && s.ended.None? && ended == Some(|s.versions|))
    ensures forall p <- s.proxies ::
      Faithful(c, s.versions + [to], s.proxies[p]) && Proven(c, held, ended, s.proxies[p])
  {
  }

  lemma PassingIsDrained(c: Setup, s: State, p: Proxy)
    requires Inv(c, s) && s.owner.Owner? && s.owner.hold > 0
    requires Faithful(c, s.versions, p) && Passes(c, p, s.owner.hold, s.owner.generation)
    ensures Drained(c, s.held, p)
  {
    var r := p.seen.value;
    assert MemberBlockers(r.acks, r.durable, BarrierState(c.id, s.owner.hold, s.owner.generation)) == [];
    assert Proof(c, s.held.value, r);
    assert NothingBefore(p, r.process);
  }

  /** The steps of the operation that write no directory version. */
  predicate WritesNoVersion(s: State, step: Step) {
    match step
    case OfProxy(_, _) => false
    case Join(_, _) => false
    case WriteHold(_) => s.Carried()
    case WriteCommit(_) => !s.Carried()
    case Release(_) => false
    case OtherWrite(_) => false
    case Cancel => s.owner.Gone? || s.record.hold > 0
    case _ => true
  }

  lemma RunStepKeepsSteady(c: Setup, s: State, step: Step)
    requires Inv(c, s) && Sound(s) && Enabled(c, s, step) && WritesNoVersion(s, step)
    ensures Steady(c, After(c, s, step))
  {
    if step.PassDrain? {
      forall p | p in s.proxies && !CountedOut(s.proxies[p]) ensures Drained(c, s.held, s.proxies[p]) {
        PassingIsDrained(c, s, s.proxies[p]);
      }
    }
  }

  lemma RunStepKeepsInv(c: Setup, s: State, step: Step)
    requires Inv(c, s) && Sound(s) && Enabled(c, s, step) && WritesNoVersion(s, step)
    ensures Inv(c, After(c, s, step))
  {
    RunStepKeepsSteady(c, s, step);
    TrustIsOfTheDirectory(c, s, After(c, s, step));
  }

  lemma HoldKeepsInv(c: Setup, s: State, to: Version)
    requires Inv(c, s) && Sound(s) && Enabled(c, s, WriteHold(to)) && !s.Carried()
    ensures Inv(c, After(c, s, WriteHold(to)))
  {
    var after := After(c, s, WriteHold(to));
    assert s.held.None?; // a run that has not recorded its hold finds none ended
    NewVersionKeepsProxies(c, s, to, after.held, after.ended);
  }

  lemma EndKeepsInv(c: Setup, s: State, step: Step)
    requires Inv(c, s) && Sound(s) && Enabled(c, s, step) && s.Carried() && (step.WriteCommit? || step.Release?)
    ensures Inv(c, After(c, s, step))
  {
    var after := After(c, s, step);
    NewVersionKeepsProxies(c, s, step.to, after.held, after.ended);
  }

  lemma OtherWriteKeepsInv(c: Setup, s: State, to: Version)
    requires Inv(c, s) && Sound(s) && Enabled(c, s, OtherWrite(to))
    ensures Inv(c, After(c, s, OtherWrite(to)))
  {
    NewVersionKeepsProxies(c, s, to, s.held, s.ended);
  }

  /** A cancellation took a running owner for gone before the hold was on the record. That owner may
      still write its hold, and another after it is released; it never gets to a drain. */
  ghost predicate Doomed(s: State) {
    && s.record.ended && s.record.hold == 0 && s.committed.None?
    && (s.owner.Owner? ==> s.owner.at.AtHold? || s.owner.at.AtRecordHold?)
  }

  lemma DoomedStays(c: Setup, s: State, step: Step)
    requires Doomed(s) && Sound(s) && Enabled(c, s, step)
    ensures Doomed(After(c, s, step))
  {
  }

  lemma CancelKeepsInv(c: Setup, s: State)
    requires Inv(c, s) && Sound(s) && Enabled(c, s, Cancel)
    ensures Inv(c, After(c, s, Cancel)) || Doomed(After(c, s, Cancel))
  {
    if s.owner.Gone? || s.record.hold > 0 {
      RunStepKeepsInv(c, s, Cancel);
    }
  }

  lemma {:induction false} StepKeepsOrdered(c: Setup, s: State, step: Step)
    requires Sound(s) && Enabled(c, s, step)
    ensures Sound(After(c, s, step))
  {
    if step.OfProxy? {
      StepKeepsOrder(c, s.versions, s.proxies[step.p], step.step);
    }
  }

  lemma StepKeepsInv(c: Setup, s: State, step: Step)
    requires Inv(c, s) && Sound(s) && Enabled(c, s, step)
    ensures Inv(c, After(c, s, step)) || Doomed(After(c, s, step))
  {
    match step
    case OfProxy(p, ps) => ProxyStepKeepsInv(c, s, p, ps);
    case Join(p, at) => JoinKeepsInv(c, s, p, at);
    case WriteHold(to) => if s.Carried() { RunStepKeepsInv(c, s, step); } else { HoldKeepsInv(c, s, to); }
    case WriteCommit(_) => if s.Carried() { EndKeepsInv(c, s, step); } else { RunStepKeepsInv(c, s, step); }
    case Release(_) => EndKeepsInv(c, s, step);
    case OtherWrite(to) => OtherWriteKeepsInv(c, s, to);
    case Cancel => CancelKeepsInv(c, s);
    case _ => RunStepKeepsInv(c, s, step);
  }

  // ---------------------------------------------------------------------------------------------
  // Runs.

  /** Nothing held yet, an operation with its intent on the record, and no proxies. */
  predicate Initial(s: State) {
    && |s.versions| > 0
    && (forall v <- s.versions :: !v.carries)
    && s.proxies == map[]
    && s.record == Record(0, 0, Before, false)
    && s.owner.Gone? && s.held.None? && s.ended.None? && s.committed.None?
  }

  /** A run: states, each after the one before by one enabled step. (`Sound` is what makes `After`
      defined; every state of a run has it, `RunsKeepInv`.) */
  ghost predicate IsRun(c: Setup, run: seq<State>, steps: seq<Step>) {
    && |run| == |steps| + 1
    && Initial(run[0])
    && (forall i | 0 <= i < |steps| :: StepAt(c, run, steps, i))
  }

  ghost predicate StepAt(c: Setup, run: seq<State>, steps: seq<Step>, i: nat)
    requires i < |steps| && |run| == |steps| + 1
  {
    Sound(run[i]) ==> Enabled(c, run[i], steps[i]) && run[i + 1] == After(c, run[i], steps[i])
  }

  lemma {:induction false} RunsKeepInv(c: Setup, run: seq<State>, steps: seq<Step>, n: nat)
    requires c.id != "" && IsRun(c, run, steps) && n < |run|
    ensures Sound(run[n]) && (Inv(c, run[n]) || Doomed(run[n]))
  {
    if n > 0 {
      RunsKeepInv(c, run, steps, n - 1);
      assert StepAt(c, run, steps, n - 1);
      StepKeepsOrdered(c, run[n - 1], steps[n - 1]);
      if Inv(c, run[n - 1]) {
        StepKeepsInv(c, run[n - 1], steps[n - 1]);
      } else {
        DoomedStays(c, run[n - 1], steps[n - 1]);
      }
    }
  }

  /** Everything of a proxy that may still reach a backend through the gate: the running process's
      work, out or without an outcome, and what its ended processes left. */
  ghost predicate HasWork(p: Proxy, v: nat) {
    || v in p.process.out
    || v in p.process.unsure
    || exists i :: 0 <= i < |p.left| && v in p.left[i]
  }

  /** A request routed by version `v` that the proxy's gate would admit now. */
  ghost predicate Admits(c: Setup, p: Proxy, v: nat) {
    p.process.start <= v <= p.process.current && p.process.gate.Admits(c.kind, v)
  }

  /** Drain safety. In every run, however stale the heartbeats and however often proxies and owners
      crash, once the commit has landed at a version no member that drained for it has, or admits,
      work through the gate routed by an earlier version. */
  lemma DrainSafety(c: Setup, run: seq<State>, steps: seq<Step>, n: nat, member: string, v: nat)
    requires c.id != "" && IsRun(c, run, steps) && n < |run|
    requires run[n].committed.Some? && member in run[n].committed.value
    ensures run[n].ended.Some? && member in run[n].proxies
    ensures HasWork(run[n].proxies[member], v) || Admits(c, run[n].proxies[member], v) ==> run[n].ended.value <= v
  {
    RunsKeepInv(c, run, steps, n);
    var s := run[n];
    var p := s.proxies[member];
    assert Trusted(c, s, p);
    var r :| r in p.sent && Proof(c, s.held.value, r) && NothingBefore(p, r.process);
    assert Secure(c, s.held.value, s.ended, p, r.process);
  }

  lemma {:induction false} RunsKeepRecords(c: Setup, run: seq<State>, steps: seq<Step>, n: nat, member: string)
    requires c.id != "" && IsRun(c, run, steps) && n < |run|
    ensures Sound(run[n]) && (member in run[n].proxies ==> Recorded(run[n].proxies[member]))
  {
    RunsKeepInv(c, run, steps, n);
    if n > 0 {
      RunsKeepRecords(c, run, steps, n - 1, member);
      assert StepAt(c, run, steps, n - 1);
      AnyStepKeepsRecorded(c, run[n - 1], steps[n - 1], member);
    }
  }

  lemma AnyStepKeepsRecorded(c: Setup, s: State, step: Step, member: string)
    requires Sound(s) && Enabled(c, s, step) && (member in s.proxies ==> Recorded(s.proxies[member]))
    ensures member in After(c, s, step).proxies ==> Recorded(After(c, s, step).proxies[member])
  {
    if step.OfProxy? && step.p == member {
      StepKeepsRecorded(c, s.versions, s.proxies[member], step.step);
    }
  }

  /** A member counted out of the drain as retired has nothing left of any process up to the one that
      retired. */
  lemma CountedOutLeftNothing(c: Setup, run: seq<State>, steps: seq<Step>, n: nat, member: string, i: nat)
    requires c.id != "" && IsRun(c, run, steps) && n < |run|
    requires member in run[n].proxies && CountedOut(run[n].proxies[member]) && i <= run[n].proxies[member].retired.value
    ensures i < |run[n].proxies[member].left| && run[n].proxies[member].left[i] == multiset{}
  {
    RunsKeepRecords(c, run, steps, n, member);
  }

  /** No commit without a drain. A commit that is written, whichever owner writes it and however often
      the operation was resumed, follows a drain that found every member drained, for this hold. */
  lemma NoCommitWithoutADrain(c: Setup, run: seq<State>, steps: seq<Step>, n: nat)
    requires c.id != "" && IsRun(c, run, steps) && n < |steps| && steps[n].WriteCommit? && run[n].Carried()
    ensures run[n + 1].ended == Some(|run[n].versions|) && run[n + 1].committed.Some?
    ensures AllDrained(c, run[n + 1], run[n + 1].committed.value)
  {
    RunsKeepInv(c, run, steps, n);
    RunsKeepInv(c, run, steps, n + 1);
    assert StepAt(c, run, steps, n);
  }

  // ---------------------------------------------------------------------------------------------
  // Members the drain does not wait for: counted out, or joined later. What keeps one from work of the
  // old routing is the version its process starts from.

  /** Where the last hold ended, if it has. */
  function EndOf(s: State): Option<nat> {
    if s.held.Some? && s.ended.Some? && s.held.value < s.ended.value then s.ended else None
  }

  /** A process that starts at or past the hold is secure from its start. */
  ghost predicate Sheltered(c: Setup, s: State, p: Proxy) {
    s.held.Some? && s.held.value <= p.process.start ==> Secure(c, s.held.value, EndOf(s), p, p.number)
  }

  /** As `Directory`, also where a hold was released and written again. */
  ghost predicate HeldLast(c: Setup, s: State) {
    Directory(c, s.versions, s.held, EndOf(s)) && (s.ended.Some? ==> s.ended.value < |s.versions|)
  }

  ghost predicate AllSheltered(c: Setup, s: State) {
    HeldLast(c, s) && forall p <- s.proxies :: Sheltered(c, s, s.proxies[p])
  }

  lemma ProxyStepKeepsShelter(c: Setup, s: State, p: Proxy, step: ProxyStep)
    requires Directory(c, s.versions, s.held, EndOf(s)) && InOrder(s.versions, p)
             && ProxyEnabled(c, s.versions, p, step)
    requires Sheltered(c, s, p)
    ensures Sheltered(c, s, ProxyAfter(c, s.versions, p, step))
  {
    if step.Restart? || step.Retire? {
      if s.held.Some? && s.held.value <= p.durable {
        StartedSecure(c, s.versions, s.held, EndOf(s), p.durable);
      }
    } else if s.held.Some? && s.held.value <= p.process.start {
      StepKeepsSecure(c, s.versions, s.held, EndOf(s), p, step, p.number);
    }
  }

  lemma JoinedIsSheltered(c: Setup, s: State, at: nat)
    requires Directory(c, s.versions, s.held, EndOf(s)) && at < |s.versions|
    ensures Sheltered(c, s, Joined(s.versions, at))
  {
    if s.held.Some? && s.held.value <= at {
      StartedSecure(c, s.versions, s.held, EndOf(s), at);
    }
  }

  /** A step of the operation, or another write, leaves the proxies where they are. */
  lemma DirectoryStepKeepsShelter(c: Setup, s: State, step: Step)
    requires AllSheltered(c, s) && Sound(s) && Enabled(c, s, step) && !step.OfProxy? && !step.Join?
    ensures AllSheltered(c, After(c, s, step))
  {
    var t := After(c, s, step);
    assert t.proxies == s.proxies;
    DirectoryStepKeepsHeld(c, s, step);
    forall p | p in t.proxies ensures Sheltered(c, t, t.proxies[p]) {
      assert Sheltered(c, s, s.proxies[p]) && InOrder(s.versions, s.proxies[p]);
      LaterKeepsShelter(c, s, t, s.proxies[p]);
    }
  }

  lemma DirectoryStepKeepsHeld(c: Setup, s: State, step: Step)
    requires HeldLast(c, s) && Sound(s) && Enabled(c, s, step) && !step.OfProxy? && !step.Join?
    ensures HeldLast(c, After(c, s, step)) && Later(s, After(c, s, step))
  {
  }

  /** The hold stands as it stood, or has ended at a new version; or a new version wrote another. */
  predicate Later(s: State, t: State) {
    || (t.held == s.held && (EndOf(t) == EndOf(s) || (EndOf(s).None? && EndOf(t) == Some(|s.versions|))))
    || t.held == Some(|s.versions|)
  }

  lemma LaterKeepsShelter(c: Setup, s: State, t: State, p: Proxy)
    requires Later(s, t) && InOrder(s.versions, p) && Sheltered(c, s, p)
    ensures Sheltered(c, t, p)
  {
  }

  lemma StepKeepsShelter(c: Setup, s: State, step: Step)
    requires AllSheltered(c, s) && Sound(s) && Enabled(c, s, step)
    ensures AllSheltered(c, After(c, s, step))
  {
    match step
    case OfProxy(p, ps) => ProxyStepKeepsShelter(c, s, s.proxies[p], ps);
    case Join(_, at) => JoinedIsSheltered(c, s, at);
    case _ => DirectoryStepKeepsShelter(c, s, step);
  }

  lemma {:induction false} RunsKeepShelter(c: Setup, run: seq<State>, steps: seq<Step>, n: nat)
    requires c.id != "" && IsRun(c, run, steps) && n < |run|
    ensures Sound(run[n]) && AllSheltered(c, run[n])
  {
    RunsKeepInv(c, run, steps, n);
    if n > 0 {
      RunsKeepShelter(c, run, steps, n - 1);
      assert StepAt(c, run, steps, n - 1);
      StepKeepsShelter(c, run[n - 1], steps[n - 1]);
    }
  }

  /** Work of a proxy's processes from the `j`-th on that may still reach a backend. */
  ghost predicate HasWorkFrom(p: Proxy, j: nat, v: nat) {
    || v in p.process.out
    || v in p.process.unsure
    || exists i | j <= i < |p.left| :: v in p.left[i]
  }

  /** Every step keeps a proxy that is secure for the last hold secure. */
  lemma StepKeepsMemberSecure(c: Setup, s: State, step: Step, member: string, j: nat)
    requires HeldLast(c, s) && Sound(s) && Enabled(c, s, step) && member in s.proxies
    requires s.held.Some? && Secure(c, s.held.value, EndOf(s), s.proxies[member], j)
    ensures member in After(c, s, step).proxies
    ensures var t := After(c, s, step); t.held == s.held ==> Secure(c, t.held.value, EndOf(t), t.proxies[member], j)
  {
    if step.OfProxy? {
      if step.p == member {
        StepKeepsSecure(c, s.versions, s.held, EndOf(s), s.proxies[member], step.step, j);
      }
    } else if !step.Join? {
      DirectoryStepKeepsHeld(c, s, step);
    }
  }

  lemma StepsOnlyAdd(c: Setup, s: State, step: Step)
    requires Sound(s) && Enabled(c, s, step)
    ensures var t := After(c, s, step);
            && |s.versions| <= |t.versions| && (t.held == s.held || t.held == Some(|s.versions|))
            && s.proxies.Keys <= t.proxies.Keys
  {
  }

  lemma {:induction false} VersionsGrow(c: Setup, run: seq<State>, steps: seq<Step>, m: nat, n: nat)
    requires c.id != "" && IsRun(c, run, steps) && m <= n < |run|
    ensures |run[m].versions| <= |run[n].versions|
    decreases n
  {
    if m < n {
      RunsKeepInv(c, run, steps, n - 1);
      VersionsGrow(c, run, steps, m, n - 1);
      assert StepAt(c, run, steps, n - 1);
      StepsOnlyAdd(c, run[n - 1], steps[n - 1]);
    }
  }

  lemma {:induction false} LateStartStaysSecure(c: Setup, run: seq<State>, steps: seq<Step>, m: nat, n: nat,
      member: string)
    requires c.id != "" && IsRun(c, run, steps) && m <= n < |run| && member in run[m].proxies
    requires run[n].held.Some? && run[n].held.value <= run[m].proxies[member].process.start
    ensures member in run[n].proxies
    ensures Secure(c, run[n].held.value, EndOf(run[n]), run[n].proxies[member], run[m].proxies[member].number)
    decreases n
  {
    RunsKeepShelter(c, run, steps, m);
    if m == n {
      assert Sheltered(c, run[n], run[n].proxies[member]);
    } else {
      RunsKeepShelter(c, run, steps, n - 1);
      VersionsGrow(c, run, steps, m, n - 1);
      assert StepAt(c, run, steps, n - 1) && InOrder(run[m].versions, run[m].proxies[member]);
      StepsOnlyAdd(c, run[n - 1], steps[n - 1]);
      LateStartStaysSecure(c, run, steps, m, n - 1, member);
      StepKeepsMemberSecure(c, run[n - 1], steps[n - 1], member, run[m].proxies[member].number);
    }
  }

  /** Members the drain does not wait for. In every run, once a process of any member has started at or
      past the hold, neither it nor any process after it has, leaves or admits work routed by a version
      before the one that ended the hold; none at all while it has not ended. */
  lemma LateStartIsSafe(c: Setup, run: seq<State>, steps: seq<Step>, m: nat, n: nat, member: string, v: nat)
    requires c.id != "" && IsRun(c, run, steps) && m <= n < |run| && member in run[m].proxies
    requires run[n].held.Some? && run[n].held.value <= run[m].proxies[member].process.start
    ensures member in run[n].proxies
    ensures HasWorkFrom(run[n].proxies[member], run[m].proxies[member].number, v)
            || Admits(c, run[n].proxies[member], v) ==>
              EndOf(run[n]).Some? && EndOf(run[n]).value <= v
  {
    LateStartStaysSecure(c, run, steps, m, n, member);
  }

  /** Exactly when a process that starts from version `d` admits a request routed before the hold ended:
      when `d` is before the hold and leaves the gate open. */
  lemma EarlyStartAdmitsExactly(c: Setup, run: seq<State>, steps: seq<Step>, n: nat, d: nat)
    requires c.id != "" && IsRun(c, run, steps) && n < |run| && EndOf(run[n]).Some? && d < |run[n].versions|
    ensures (exists v: nat :: v < EndOf(run[n]).value && Admits(c, Joined(run[n].versions, d), v)) <==>
            d < run[n].held.value && run[n].versions[d].closed.At(c.kind) == ""
  {
    RunsKeepShelter(c, run, steps, n);
    var s, p := run[n], Joined(run[n].versions, d);
    assert Admits(c, p, d) <==> s.versions[d].closed.At(c.kind) == "";
    assert forall v: nat | Admits(c, p, v) :: v == d;
  }

  /** So a member counted out as retired is safe if its cache was at or past the hold as it retired:
      whichever of its processes runs by then. */
  lemma CountedOutIsSafe(c: Setup, run: seq<State>, steps: seq<Step>, m: nat, n: nat, member: string, v: nat)
    requires c.id != "" && IsRun(c, run, steps) && m < n < |run| && steps[m] == OfProxy(member, Retire)
    requires member in run[m].proxies && member in run[n].proxies && CountedOut(run[n].proxies[member])
    requires run[n].proxies[member].retired == Some(run[m].proxies[member].number)
    requires run[n].held.Some? && run[n].held.value <= run[m].proxies[member].durable
    ensures HasWork(run[n].proxies[member], v) || Admits(c, run[n].proxies[member], v) ==>
              EndOf(run[n]).Some? && EndOf(run[n]).value <= v
  {
    RunsKeepInv(c, run, steps, m);
    assert StepAt(c, run, steps, m);
    var j := run[m].proxies[member].number;
    assert run[m + 1].proxies[member].process.start == run[m].proxies[member].durable;
    assert run[m + 1].proxies[member].number == j + 1;
    LateStartIsSafe(c, run, steps, m + 1, n, member, v);
    var p := run[n].proxies[member];
    if i :| 0 <= i < |p.left| && v in p.left[i] {
      if i <= j {
        CountedOutLeftNothing(c, run, steps, n, member, i);
      }
    }
  }

  // A run in which that fails.

  const OWN := Setup("b", Mutations, true)

  const V0 := Version(false, OPEN, 0)

  const V1 := Version(true, PerKind("b", ""), 1)

  const V2 := Version(false, OPEN, 2)

  const BEAT := Report(0, [], 0)

  const QUIET := State.State([V0], map[], Record(0, 0, Before, false), Gone, None, None, None)

  lemma Extend(run: seq<State>, steps: seq<Step>, step: Step, t: State) returns (run': seq<State>, steps': seq<Step>)
    requires IsRun(OWN, run, steps) && Sound(run[|steps|]) && Enabled(OWN, run[|steps|], step)
    requires t == After(OWN, run[|steps|], step)
    ensures IsRun(OWN, run', steps') && run'[|steps'|] == t && Sound(t)
  {
    run', steps' := run + [t], steps + [step];
    forall i | 0 <= i < |steps'| ensures StepAt(OWN, run', steps', i) {
      if i < |steps| {
        assert StepAt(OWN, run, steps, i) && run'[i] == run[i] && run'[i + 1] == run[i + 1];
      }
    }
    StepKeepsOrdered(OWN, run[|steps|], step);
  }

  function Member(p: Proxy): State {
    QUIET.(proxies := map["p" := p])
  }

  function Beating(beat: Beat): Proxy {
    var p := Joined([V0], 0);
    p.(process := p.process.(beat := beat))
  }

  lemma MemberMoves(run: seq<State>, steps: seq<Step>, p: Proxy, step: ProxyStep, q: Proxy)
    returns (run': seq<State>, steps': seq<Step>)
    requires IsRun(OWN, run, steps) && run[|steps|] == Member(p) && Sound(Member(p))
    requires InOrder([V0], p) && ProxyEnabled(OWN, [V0], p, step) && q == ProxyAfter(OWN, [V0], p, step)
    ensures IsRun(OWN, run', steps') && run'[|steps'|] == Member(q) && Sound(Member(q))
  {
    assert After(OWN, Member(p), OfProxy("p", step)) == Member(q);
    run', steps' := Extend(run, steps, OfProxy("p", step), Member(q));
  }

  lemma MemberBeats() returns (run: seq<State>, steps: seq<Step>)
    ensures IsRun(OWN, run, steps) && Sound(run[|steps|]) && run[|steps|] == Member(Beating(Ready(BEAT)))
  {
    run, steps := Extend([QUIET], [], Join("p", 0), Member(Beating(Idle)));
    run, steps := MemberMoves(run, steps, Beating(Idle), LoadDurable, Beating(Loaded(0)));
    run, steps := MemberMoves(run, steps, Beating(Loaded(0)), LoadSnapshot, Beating(Snapped(0, 0)));
    var others := Ack("b", "", 0, "", true, 0, 0);
    run, steps := MemberMoves(run, steps, Beating(Snapped(0, 0)), ReadGate(others), Beating(Ready(BEAT)));
  }

  const RETIRED := Proxy(1, Started([V0], 0), 0, [multiset{}], {BEAT}, {}, {0}, Some(BEAT), Some(0))

  lemma MemberRetires() returns (run: seq<State>, steps: seq<Step>)
    ensures IsRun(OWN, run, steps) && Sound(run[|steps|]) && run[|steps|] == Member(RETIRED)
  {
    run, steps := MemberBeats();
    var sent := Beating(Idle).(sent := {BEAT});
    run, steps := MemberMoves(run, steps, Beating(Ready(BEAT)), Send, sent);
    EarlierIsAll(0);
    run, steps := MemberMoves(run, steps, sent, Deliver(BEAT), sent.(seen := Some(BEAT)));
    run, steps := MemberMoves(run, steps, sent.(seen := Some(BEAT)), Retire, RETIRED);
  }

  lemma OwnerMoves(run: seq<State>, steps: seq<Step>, step: Step, t: State)
      returns (run': seq<State>, steps': seq<Step>)
    requires IsRun(OWN, run, steps) && Sound(run[|steps|]) && Enabled(OWN, run[|steps|], step)
    requires !step.OfProxy? && !step.Join? && t == OwnerAfter(run[|steps|], step)
    ensures IsRun(OWN, run', steps') && run'[|steps'|] == t && Sound(t)
  {
    run', steps' := Extend(run, steps, step, t);
  }

  const HELD := Member(RETIRED).(versions := [V0, V1], held := Some(1), record := Record(1, 1, Before, false))

  lemma OwnerHolds() returns (run: seq<State>, steps: seq<Step>)
    ensures IsRun(OWN, run, steps) && Sound(run[|steps|]) && run[|steps|] == HELD.(owner := Owner(1, 1, AtDrain))
  {
    var s := Member(RETIRED);
    run, steps := MemberRetires();
    run, steps := OwnerMoves(run, steps, StartOwner, s.(owner := Owner(0, 0, AtHold)));
    var t := s.(versions := [V0, V1], held := Some(1), owner := Owner(1, 1, AtRecordHold));
    run, steps := OwnerMoves(run, steps, WriteHold(V1), t);
    run, steps := OwnerMoves(run, steps, RecordHold, HELD.(owner := Owner(1, 1, AtCheck)));
    run, steps := OwnerMoves(run, steps, CheckCarried, HELD.(owner := Owner(1, 1, AtDrain)));
  }

  const COMMITTED := HELD.(versions := [V0, V1, V2], record := Record(1, 1, Commit, false), ended := Some(2),
    committed := Some({}))

  lemma OwnerCommits() returns (run: seq<State>, steps: seq<Step>)
    ensures IsRun(OWN, run, steps) && Sound(run[|steps|]) && run[|steps|] == COMMITTED
  {
    run, steps := OwnerHolds();
    assert (set p | p in HELD.proxies && !CountedOut(HELD.proxies[p])) == {};
    run, steps := OwnerMoves(run, steps, PassDrain, HELD.(owner := Owner(1, 1, AtPhase(Some({})))));
    var phased := HELD.(record := Record(1, 1, Commit, false));
    run, steps := OwnerMoves(run, steps, WritePhase, phased.(owner := Owner(1, 1, AtCommit(Some({})))));
    run, steps := OwnerMoves(run, steps, WriteCommit(V2), COMMITTED);
  }

  /** A member retires, its next process starts from the cache, not heard of, and the drain counts the
      member out. Once the commit has landed at version 2 the process admits a request routed by
      version 0, from before the hold. */
  lemma CountedOutAdmitsOldRouting() returns (run: seq<State>, steps: seq<Step>)
    ensures IsRun(OWN, run, steps)
    ensures var s := run[|steps|];
            && s.committed.Some? && s.ended == Some(2) && "p" in s.proxies && CountedOut(s.proxies["p"])
            && HasWork(s.proxies["p"], 0)
  {
    run, steps := OwnerCommits();
    assert RETIRED.process.gate.Admits(Mutations, 0);
    var q := ProxyAfter(OWN, COMMITTED.versions, RETIRED, EnterGate(0));
    run, steps := Extend(run, steps, OfProxy("p", EnterGate(0)), COMMITTED.(proxies := map["p" := q]));
  }

  // ---------------------------------------------------------------------------------------------
  // Where the system meets the directory, and why the durability check is there.

  /** A snapshot carries the barrier on the placement, by its own or by one of its clusters'. */
  ghost predicate CarriedBy(c: Setup, snap: Snapshot, p: nat)
    requires p < |snap.placements|
  {
    var placement := snap.placements[p].value;
    if c.own then
      placement.barrier.Some? && placement.barrier.value.id == c.id
        && KindOf(placement.barrier.value.kind) == Some(c.kind)
    else
      && c.kind == Mutations
      && exists i :: 0 <= i < |snap.clusters| && snap.clusters[i].value.Some? && snap.clusters[i].value.value.id == c.id
                  && OnCluster(placement, snap.clusters[i].name)
  }

  ghost predicate NamedBarriers(snap: Snapshot) {
    && (forall c <- snap.clusters :: c.value.Some? ==> c.value.value.id != "")
    && (forall p <- snap.placements :: p.value.barrier.Some? ==> p.value.barrier.value.id != "")
  }

  lemma {:induction false} HeldIdsAreNamed(clusters: seq<Named<Option<Barrier>>>)
    requires forall c <- clusters :: c.value.Some? ==> c.value.value.id != ""
    ensures forall name <- HeldBy(clusters) :: HeldBy(clusters)[name] != ""
  {
    if clusters != [] {
      HeldIdsAreNamed(clusters[..|clusters| - 1]);
    }
  }

  /** A directory version that carries the barrier closes the placement's gate: what `MayWrite`
      asks of a version is what the derivation gives. */
  lemma SnapshotCloses(c: Setup, snap: Snapshot, p: nat)
    requires snap.Valid() && NamedBarriers(snap)
    requires p < |snap.placements| && CarriedBy(c, snap, p)
    ensures ClosedBy(Derive(snap).closures, snap.placements[p].name).At(c.kind) != ""
  {
    var held := HeldBy(snap.clusters);
    var placement := snap.placements[p].value;
    HeldIdsAreNamed(snap.clusters);
    ClosuresAreExact(Derived(map[], map[], [], ClusterList(snap.clusters)), held, snap.placements, p);
    if !c.own {
      var i :| 0 <= i < |snap.clusters| && snap.clusters[i].value.Some? && snap.clusters[i].value.value.id == c.id
            && OnCluster(placement, snap.clusters[i].name);
      HeldByIsExact(snap.clusters, i);
      assert snap.clusters[i].name in held && OnCluster(placement, snap.clusters[i].name);
    }
    ClosedForMeaning(held, placement, c.kind);
  }

  /** A proxy may go from one state to the other, the directory standing still. */
  ghost predicate Reaches(c: Setup, versions: seq<Version>, p: Proxy, steps: seq<ProxyStep>, q: Proxy)
    decreases |steps|
  {
    if steps == [] then p == q
    else
      && InOrder(versions, p) && ProxyEnabled(c, versions, p, steps[0])
      && Reaches(c, versions, ProxyAfter(c, versions, p, steps[0]), steps[1..], q)
  }

  lemma {:induction false} ReachesOneMore(c: Setup, versions: seq<Version>, p: Proxy, steps: seq<ProxyStep>, q: Proxy,
      step: ProxyStep)
    requires Reaches(c, versions, p, steps, q)
    requires InOrder(versions, q) && ProxyEnabled(c, versions, q, step)
    ensures Reaches(c, versions, p, steps + [step], ProxyAfter(c, versions, q, step))
    decreases |steps|
  {
    if steps == [] {
      assert (steps + [step])[1..] == [];
    } else {
      ReachesOneMore(c, versions, ProxyAfter(c, versions, p, steps[0]), steps[1..], q, step);
      assert (steps + [step])[1..] == steps[1..] + [step];
    }
  }

  /** An acknowledgement alone proves nothing. Installs are backed up behind slow requests, and a
      placement that an earlier barrier closed is still closed when a snapshot with a new cluster
      barrier is stored: the heartbeat says closed, with nothing out. The version between the two
      barriers is then published, opens the gate, and a write routed before the new barrier enters.
      Only the durable version in the same heartbeat gives it away: it is before the hold. */
  lemma AcknowledgementAloneProvesNothing()
    ensures exists steps, p, r ::
      && Reaches(CLUSTER_B, TWO_BARRIERS, BACKED_UP, steps, p)
      && r in p.sent && p.seen == Some(r) && p.unresolved == {}
      && MemberBlockers(r.acks, r.durable, BarrierState("b", 3, 3)) == [CacheNotDurable]
      && 2 in p.process.out
  {
    var steps, p := Reports();
    steps, p := Then(CLUSTER_B, TWO_BARRIERS, BACKED_UP, steps, p, Publish(2));
    steps, p := Then(CLUSTER_B, TWO_BARRIERS, BACKED_UP, steps, p, KeeperServed(2));
    assert p.process.gate.closed == OPEN && p.process.gate.from == 2;
    steps, p := Then(CLUSTER_B, TWO_BARRIERS, BACKED_UP, steps, p, EnterGate(2));
    OnlyTheCacheBlocks();
    assert CLOSED_REPORT in p.sent;
  }

  const CLUSTER_B := Setup("b", Mutations, false)

  const CLOSED_REPORT := Report(0, [Ack("b", "", 3, "", true, 0, 0)], 1)

  lemma OnlyTheCacheBlocks()
    ensures MemberBlockers(CLOSED_REPORT.acks, CLOSED_REPORT.durable, BarrierState("b", 3, 3)) == [CacheNotDurable]
  {
  }

  /** Barrier x closes the placement, is gone, and then cluster barrier b covers it. */
  const TWO_BARRIERS := [Version(false, OPEN, 0), Version(false, PerKind("x", ""), 1), Version(false, OPEN, 1),
    Version(true, PerKind("b", ""), 3)]

  const CLOSED_BY_X := Gate(PerKind("x", ""), 0, PerKind(0, 0), PerKind(0, 0))

  const BACKED_UP := Proxy(0, Process(1, 1, 1, 1, 1, CLOSED_BY_X, multiset{}, multiset{}, Idle), 1, [], {}, {}, {},
    None, None)

  lemma Installs() returns (steps: seq<ProxyStep>, p: Proxy)
    ensures Reaches(CLUSTER_B, TWO_BARRIERS, BACKED_UP, steps, p) && InOrder(TWO_BARRIERS, p)
    ensures p == BACKED_UP.(process := Process(1, 1, 2, 2, 1, CLOSED_BY_X, multiset{}, multiset{}, Loaded(1)))
  {
    steps, p := [], BACKED_UP;
    assert BACKED_UP.process == Started(TWO_BARRIERS, 1); // as it would start from a cache at version 1
    steps, p := Then(CLUSTER_B, TWO_BARRIERS, BACKED_UP, steps, p, StoreSnapshot(2));
    steps, p := Then(CLUSTER_B, TWO_BARRIERS, BACKED_UP, steps, p, KeeperInstalled);
    assert p.process.gate == CLOSED_BY_X;
    steps, p := Then(CLUSTER_B, TWO_BARRIERS, BACKED_UP, steps, p, LoadDurable);
  }

  lemma Acknowledges() returns (steps: seq<ProxyStep>, p: Proxy)
    ensures Reaches(CLUSTER_B, TWO_BARRIERS, BACKED_UP, steps, p) && InOrder(TWO_BARRIERS, p)
    ensures p == BACKED_UP.(process := Process(1, 1, 3, 2, 1, CLOSED_BY_X, multiset{}, multiset{},
            Ready(CLOSED_REPORT)))
  {
    steps, p := Installs();
    steps, p := Then(CLUSTER_B, TWO_BARRIERS, BACKED_UP, steps, p, StoreSnapshot(3));
    steps, p := Then(CLUSTER_B, TWO_BARRIERS, BACKED_UP, steps, p, LoadSnapshot);
    steps, p := Then(CLUSTER_B, TWO_BARRIERS, BACKED_UP, steps, p, ReadGate(Ack("b", "", 0, "", true, 0, 0)));
  }

  lemma Reports() returns (steps: seq<ProxyStep>, p: Proxy)
    ensures Reaches(CLUSTER_B, TWO_BARRIERS, BACKED_UP, steps, p) && InOrder(TWO_BARRIERS, p)
    ensures p == BACKED_UP.(process := Process(1, 1, 3, 2, 1, CLOSED_BY_X, multiset{}, multiset{}, Idle),
            sent := {CLOSED_REPORT}, seen := Some(CLOSED_REPORT))
  {
    steps, p := Acknowledges();
    steps, p := Then(CLUSTER_B, TWO_BARRIERS, BACKED_UP, steps, p, Send);
    steps, p := Then(CLUSTER_B, TWO_BARRIERS, BACKED_UP, steps, p, Deliver(CLOSED_REPORT));
    EarlierIsAll(0);
    assert p.unresolved == {} && p.sent == {CLOSED_REPORT};
  }

  lemma Then(c: Setup, versions: seq<Version>, start: Proxy, steps: seq<ProxyStep>, p: Proxy, step: ProxyStep)
    returns (steps': seq<ProxyStep>, p': Proxy)
    requires Reaches(c, versions, start, steps, p)
    requires InOrder(versions, p) && ProxyEnabled(c, versions, p, step)
    ensures Reaches(c, versions, start, steps', p') && p' == ProxyAfter(c, versions, p, step) && InOrder(versions, p')
  {
    ReachesOneMore(c, versions, start, steps, p, step);
    StepKeepsOrder(c, versions, p, step);
    steps', p' := steps + [step], ProxyAfter(c, versions, p, step);
  }
}
