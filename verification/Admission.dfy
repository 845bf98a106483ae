/** The admission gates of one proxy (internal/admission/admission.go).

A request that changes a placement takes a token from the placement's gate before it touches a
backend and gives it back when the outcome is known. A barrier closes the gate. A gate that
reopens remembers the directory version it reopened at and refuses requests routed by an older one.

This module is the gates as values: a history of calls, the state it leads to (`Replay`), and what
every history keeps. The object a proxy holds is `ProxyGates.Gates`, each method of which is proved
to extend a history by one call. */
module Admission {
  import opened Basics

  datatype Kind = Mutations | Source

  datatype Outcome = Definitive | Uncertain

  /** One value for each of a placement's two gates (a Go array indexed by Kind). */
  datatype PerKind<T> = PerKind(mutations: T, source: T) {
    function At(k: Kind): T {
      if k == Mutations then mutations else source
    }

    function With(k: Kind, v: T): PerKind<T> {
      if k == Mutations then PerKind(v, source) else PerKind(mutations, v)
    }
  }

  /** What closes each gate of a placement: a barrier id, or "" for open. */
  type Closed = PerKind<string>

  const OPEN: Closed := PerKind("", "")

  /** The barrier Enter names when it refuses a request older than the gate's last reopening. */
  const SUPERSEDED := "(superseded)"

  datatype Gate = Gate(closed: Closed, from: int, inflight: PerKind<int>, uncertain: PerKind<int>) {
    /** gate.set: close `k` with `barrier`, or open it ("") at `version`. */
    function Set(k: Kind, barrier: string, version: int): Gate {
      var reopens := closed.At(k) != "" && barrier == "" && version > from;
      this.(from := if reopens then version else from, closed := closed.With(k, barrier))
    }

    /** What Apply does to one gate. A gate no closure lists is applied with OPEN. */
    function Applied(c: Closed, version: int, sticky: bool): Gate {
      var g := if c.mutations != "" || !sticky then Set(Mutations, c.mutations, version) else this;
      if c.source != "" || !sticky then g.Set(Source, c.source, version) else g
    }

    predicate Admits(k: Kind, version: int) {
      closed.At(k) == "" && version >= from
    }

    function Entered(k: Kind): Gate {
      this.(inflight := inflight.With(k, inflight.At(k) + 1))
    }

    function Released(k: Kind, o: Outcome): Gate {
      this.(inflight := inflight.With(k, inflight.At(k) - 1),
            uncertain := if o == Uncertain then uncertain.With(k, uncertain.At(k) + 1) else uncertain)
    }
  }

  const FRESH := Gate(OPEN, 0, PerKind(0, 0), PerKind(0, 0))

  datatype Token = NoToken | Token(key: string, kind: Kind)

  type Closures = map<string, Closed>

  // ---------------------------------------------------------------------------------------------
  // Histories: the calls made on a proxy's gates, and the state they lead to.

  datatype Call =
    | Enter(key: string, kind: Kind, version: int)
    | Release(key: string, kind: Kind, outcome: Outcome)
    | Apply(closures: Closures, version: int, sticky: bool)
    | Close(key: string, kind: Kind, barrier: string)
    | Open(key: string, kind: Kind, version: int)

  datatype State = State(gates: map<string, Gate>, uncertain: int) {
    /** The gate of a placement; one not made yet is open with nothing through it. */
    function Of(key: string): Gate {
      if key in gates then gates[key] else FRESH
    }

    function Put(key: string, g: Gate): State {
      this.(gates := gates[key := g])
    }

    function After(call: Call): State {
      match call
      case Enter(key, kind, version) =>
        Put(key, if Of(key).Admits(kind, version) then Of(key).Entered(kind) else Of(key))
      case Release(key, kind, outcome) =>
        var s := Put(key, Of(key).Released(kind, outcome));
        if outcome == Uncertain then s.(uncertain := uncertain + 1) else s
      case Apply(closures, version, sticky) =>
        this.(gates := map key | key in gates.Keys + closures.Keys ::
                Of(key).Applied(ClosedBy(closures, key), version, sticky))
      case Close(key, kind, barrier) =>
        Put(key, Of(key).(closed := Of(key).closed.With(kind, barrier)))
      case Open(key, kind, version) =>
        if key in gates then Put(key, gates[key].Set(kind, "", version)) else this
    }
  }

  const NEW := State(map[], 0)

  function ClosedBy(closures: Closures, key: string): Closed {
    if key in closures then closures[key] else OPEN
  }

  function Replay(history: seq<Call>): State {
    if history == [] then NEW else Replay(Init(history)).After(Last(history))
  }

  function Init(history: seq<Call>): seq<Call>
    requires history != []
  {
    history[..|history| - 1]
  }

  function Last(history: seq<Call>): Call
    requires history != []
  {
    history[|history| - 1]
  }

  /** Tokens handed out through a gate, counted from the history alone. */
  ghost function Granted(history: seq<Call>, key: string, kind: Kind): nat {
    if history == [] then 0
    else
      Granted(Init(history), key, kind) +
      match Last(history)
      case Enter(k, kd, v) =>
        if k == key && kd == kind && Replay(Init(history)).Of(key).Admits(kind, v) then 1 else 0
      case _ => 0
  }

  /** Tokens given back through a gate. */
  ghost function Returned(history: seq<Call>, key: string, kind: Kind): nat {
    if history == [] then 0
    else
      Returned(Init(history), key, kind) +
      match Last(history)
      case Release(k, kd, _) => if k == key && kd == kind then 1 else 0
      case _ => 0
  }

  /** Outcomes through a gate that were never learned. */
  ghost function Unlearned(history: seq<Call>, key: string, kind: Kind): nat {
    if history == [] then 0
    else
      Unlearned(Init(history), key, kind) +
      match Last(history)
      case Release(k, kd, o) => if k == key && kd == kind && o == Uncertain then 1 else 0
      case _ => 0
  }

  /** Whether the last call opened the `kind` gate of `key`, which stood closed. */
  ghost predicate Reopens(history: seq<Call>, key: string, kind: Kind)
    requires history != []
  {
    && Replay(Init(history)).Of(key).closed.At(kind) != ""
    && Replay(history).Of(key).closed.At(kind) == ""
  }

  ghost function VersionOf(call: Call): int {
    match call
    case Apply(_, v, _) => v
    case Open(_, _, v) => v
    case _ => 0
  }

  /** The largest version at which either gate of the placement ever reopened (0 when none did). */
  ghost function ReopenMark(history: seq<Call>, key: string): int {
    if history == [] then 0
    else if Reopens(history, key, Mutations) || Reopens(history, key, Source) then
      Max(ReopenMark(Init(history), key), VersionOf(Last(history)))
    else ReopenMark(Init(history), key)
  }

  /** The callers' discipline: a token is given back at most once. */
  ghost predicate Disciplined(history: seq<Call>) {
    history == [] ||
    (&& Disciplined(Init(history))
     && match Last(history)
        case Release(key, kind, _) =>
          Returned(Init(history), key, kind) < Granted(Init(history), key, kind)
        case _ => true)
  }

  // ---------------------------------------------------------------------------------------------
  // What every run keeps.

  /** What a call does to one placement's gate: the other placements do not matter. */
  function GateAfter(g: Gate, call: Call, key: string): Gate {
    match call
    case Enter(k, kind, version) => if k == key && g.Admits(kind, version) then g.Entered(kind) else g
    case Release(k, kind, outcome) => if k == key then g.Released(kind, outcome) else g
    case Apply(closures, version, sticky) => g.Applied(ClosedBy(closures, key), version, sticky)
    case Close(k, kind, barrier) => if k == key then g.(closed := g.closed.With(kind, barrier)) else g
    case Open(k, kind, version) => if k == key then g.Set(kind, "", version) else g
  }

  lemma CallsArePointwise(s: State, call: Call, key: string)
    ensures s.After(call).Of(key) == GateAfter(s.Of(key), call, key)
  {
  }

  /** The counters are the history's: in every run a gate's in-flight count is what was granted
      through it less what came back, and its uncertain count is what came back unlearned. */
  lemma {:induction false} CountersMatchHistory(history: seq<Call>, key: string, kind: Kind)
    requires Disciplined(history)
    ensures
      var g := Replay(history).Of(key);
      && g.inflight.At(kind) == Granted(history, key, kind) - Returned(history, key, kind)
      && 0 <= g.inflight.At(kind)
      && g.uncertain.At(kind) == Unlearned(history, key, kind)
  {
    if history != [] {
      CountersMatchHistory(Init(history), key, kind);
      CallsArePointwise(Replay(Init(history)), Last(history), key);
    }
  }

  /** One call raises a gate's mark to its version if it reopens either gate, and leaves it otherwise. */
  lemma MarkAfter(g: Gate, call: Call, key: string)
    requires g.from >= 0
    ensures
      var after := GateAfter(g, call, key);
      var reopens := (g.closed.mutations != "" && after.closed.mutations == "")
          || (g.closed.source != "" && after.closed.source == "");
      after.from == if reopens then Max(g.from, VersionOf(call)) else g.from
  {
  }

  /** The reopen mark is the largest version at which either of the placement's gates reopened. */
  lemma {:induction false} MarkMatchesHistory(history: seq<Call>, key: string)
    ensures Replay(history).Of(key).from == ReopenMark(history, key) >= 0
  {
    if history != [] {
      MarkMatchesHistory(Init(history), key);
      CallsArePointwise(Replay(Init(history)), Last(history), key);
      MarkAfter(Replay(Init(history)).Of(key), Last(history), key);
    }
  }

  /** The newest version any call has named (0 when none has). */
  ghost function Newest(history: seq<Call>): int {
    if history == [] then 0 else Max(Newest(Init(history)), VersionOf(Last(history)))
  }

  ghost predicate RefusesBelow(g: Gate, kind: Kind, version: int) {
    forall v | v < version :: !g.Admits(kind, v)
  }

  /** From its reopening by the m-th call on, the gate admits no request older than what the proxy had
      been told of by then. */
  ghost predicate RefusesOlder(history: seq<Call>, m: nat, key: string, kind: Kind)
    requires m <= |history|
  {
    forall n | m <= n <= |history| :: RefusesBelow(Replay(history[..n]).Of(key), kind, Newest(history[..m]))
  }

  lemma {:induction false} MarkNeverFalls(history: seq<Call>, m: nat, n: nat, key: string)
    requires m <= n <= |history|
    ensures ReopenMark(history[..m], key) <= ReopenMark(history[..n], key)
    decreases n
  {
    if m < n {
      MarkNeverFalls(history, m, n - 1, key);
      assert Init(history[..n]) == history[..n - 1];
    }
  }

  /** Exactly when a reopening shuts older requests out for good: when it is made at a version no older
      than any named before it, or the placement had reopened at such a version already. */
  lemma RefusesOlderExactly(history: seq<Call>, m: nat, key: string, kind: Kind)
    requires 0 < m <= |history| && Reopens(history[..m], key, kind)
    ensures RefusesOlder(history, m, key, kind) <==>
            Newest(history[..m]) <= Max(ReopenMark(history[..m - 1], key), VersionOf(history[m - 1]))
  {
    assert Init(history[..m]) == history[..m - 1] && Last(history[..m]) == history[m - 1];
    var mark := ReopenMark(history[..m], key);
    assert mark == Max(ReopenMark(history[..m - 1], key), VersionOf(history[m - 1]));
    MarkMatchesHistory(history[..m], key);
    if Newest(history[..m]) <= mark {
      forall n | m <= n <= |history| ensures RefusesBelow(Replay(history[..n]).Of(key), kind, Newest(history[..m])) {
        MarkNeverFalls(history, m, n, key);
        MarkMatchesHistory(history[..n], key);
      }
    } else {
      assert Replay(history[..m]).Of(key).Admits(kind, mark);
    }
  }

  /** A close that names no barrier opens a gate at no version, so it shuts out nothing unless the
      placement's last reopening did. */
  lemma EmptyCloseRefusesOlderExactly(history: seq<Call>, m: nat, key: string, kind: Kind)
    requires 0 < m <= |history| && Reopens(history[..m], key, kind) && history[m - 1].Close?
    ensures RefusesOlder(history, m, key, kind) <==> Newest(history[..m - 1]) <= ReopenMark(history[..m - 1], key)
  {
    RefusesOlderExactly(history, m, key, kind);
    assert Init(history[..m]) == history[..m - 1] && Last(history[..m]) == history[m - 1];
    MarkNeverFalls(history, 0, m - 1, key);
    assert history[..0] == [];
  }

  /** The history that shows it: a placement is closed at version 5 and reopened by an empty close, and
      a request routed by version 4 is admitted. */
  lemma CloseWithoutABarrierForgetsTheReopening()
    ensures
      var history := [Apply(map["p" := PerKind("b", "")], 5, false), Close("p", Mutations, "")];
      && Reopens(history, "p", Mutations) && Replay(history).Of("p").Admits(Mutations, 4)
      && !RefusesOlder(history, 2, "p", Mutations)
  {
    var h1 := [Apply(map["p" := PerKind("b", "")], 5, false)];
    var h2 := [Apply(map["p" := PerKind("b", "")], 5, false), Close("p", Mutations, "")];
    assert Init(h1) == [] && Init(h2) == h1 && h2[..2] == h2 && h2[..1] == h1;
    assert Replay(h1) == NEW.After(h1[0]);
    EmptyCloseRefusesOlderExactly(h2, 2, "p", Mutations);
  }

  /** A sticky apply never opens a gate. */
  lemma StickyNeverOpens(s: State, closures: Closures, version: int, key: string, kind: Kind)
    requires s.Of(key).closed.At(kind) != ""
    ensures s.After(Apply(closures, version, true)).Of(key).closed.At(kind) != ""
  {
  }

  /** No call after the first `n` opens the gate. */
  ghost predicate NeverReopens(history: seq<Call>, n: nat, key: string, kind: Kind) {
    forall m | n < m <= |history| :: !Reopens(history[..m], key, kind)
  }

  lemma ClosedGateKeepsCounts(g: Gate, call: Call, key: string, kind: Kind)
    requires g.closed.At(kind) != ""
    requires call.Release? ==> call.key != key || call.kind != kind
    ensures GateAfter(g, call, key).inflight.At(kind) == g.inflight.At(kind)
    ensures GateAfter(g, call, key).uncertain.At(kind) == g.uncertain.At(kind)
  {
  }

  /** A gate closed with nothing out through it stays closed and drained until it is reopened,
      and learns of no new uncertain outcome. */
  lemma {:induction false} ClosedAndDrainedIsStable(history: seq<Call>, n: nat, key: string, kind: Kind)
    requires Disciplined(history) && n <= |history|
    requires Replay(history[..n]).Of(key).closed.At(kind) != ""
    requires Replay(history[..n]).Of(key).inflight.At(kind) == 0
    requires NeverReopens(history, n, key, kind)
    ensures Replay(history).Of(key).closed.At(kind) != ""
    ensures Replay(history).Of(key).inflight.At(kind) == 0
    ensures Replay(history).Of(key).uncertain.At(kind) == Replay(history[..n]).Of(key).uncertain.At(kind)
    decreases |history|
  {
    if n == |history| {
      assert history[..n] == history;
    } else {
      var less := Init(history);
      assert forall m | 0 <= m <= |less| :: less[..m] == history[..m];
      ClosedAndDrainedIsStable(less, n, key, kind);
      CallsArePointwise(Replay(less), Last(history), key);
      CountersMatchHistory(less, key, kind);
      ClosedGateKeepsCounts(Replay(less).Of(key), Last(history), key, kind);
      assert !Reopens(history[..|history|], key, kind) && history[..|history|] == history;
    }
  }

  // ---------------------------------------------------------------------------------------------
  // Sums over every gate.

  datatype Counter = InFlight | Unlearnt

  function Count(c: Counter, g: Gate): int {
    match c
    case InFlight => g.inflight.mutations + g.inflight.source
    case Unlearnt => g.uncertain.mutations + g.uncertain.source
  }

  ghost function Total(keys: set<string>, s: State, c: Counter): int {
    if keys == {} then 0
    else
      var key :| key in keys;
      Count(c, s.Of(key)) + Total(keys - {key}, s, c)
  }

  lemma {:induction false} TotalPicks(keys: set<string>, s: State, c: Counter, key: string)
    requires key in keys
    ensures Total(keys, s, c) == Count(c, s.Of(key)) + Total(keys - {key}, s, c)
    decreases keys
  {
    var first :| first in keys && Total(keys, s, c) == Count(c, s.Of(first)) + Total(keys - {first}, s, c);
    if first != key {
      TotalPicks(keys - {first}, s, c, key);
      TotalPicks(keys - {key}, s, c, first);
      assert keys - {first} - {key} == keys - {key} - {first};
    }
  }

  /** A total depends on the counts alone, and gates that count zero add nothing. */
  lemma {:induction false} TotalDependsOnCounts(keys: set<string>, more: set<string>, s: State, t: State, c: Counter)
    requires keys <= more
    requires forall key <- more :: Count(c, t.Of(key)) == if key in keys then Count(c, s.Of(key)) else 0
    ensures Total(keys, s, c) == Total(more, t, c)
    decreases more
  {
    if more != {} {
      var key :| key in more;
      TotalPicks(more, t, c, key);
      if key in keys {
        TotalPicks(keys, s, c, key);
      }
      TotalDependsOnCounts(keys - {key}, more - {key}, s, t, c);
      assert key !in keys ==> keys - {key} == keys;
    }
  }

  lemma OnlyReleasesAreUnlearnt(s: State, call: Call, key: string)
    requires !call.Release?
    ensures Count(Unlearnt, s.After(call).Of(key)) == if key in s.gates then Count(Unlearnt, s.Of(key)) else 0
  {
    CallsArePointwise(s, call, key);
  }

  lemma ReleaseAddsOne(s: State, key: string, kind: Kind, o: Outcome)
    ensures
      var t := s.After(Release(key, kind, o));
      Total(t.gates.Keys, t, Unlearnt) == Total(s.gates.Keys, s, Unlearnt) + if o == Uncertain then 1 else 0
  {
    var t := s.After(Release(key, kind, o));
    var more := s.gates.Keys + {key};
    assert t.gates.Keys == more;
    TotalDependsOnCounts(s.gates.Keys, more, s, s, Unlearnt);
    TotalPicks(more, s, Unlearnt, key);
    TotalPicks(more, t, Unlearnt, key);
    TotalDependsOnCounts(more - {key}, more - {key}, s, t, Unlearnt);
  }

  /** The process-wide count of outcomes never learned is the sum of the gates' counts. */
  lemma {:induction false} UncertainIsTheSum(history: seq<Call>)
    ensures Replay(history).uncertain == Total(Replay(history).gates.Keys, Replay(history), Unlearnt)
  {
    if history != [] {
      UncertainIsTheSum(Init(history));
      var s, call := Replay(Init(history)), Last(history);
      var t := s.After(call);
      if call.Release? {
        ReleaseAddsOne(s, call.key, call.kind, call.outcome);
      } else {
        forall key ensures Count(Unlearnt, t.Of(key)) == if key in s.gates then Count(Unlearnt, s.Of(key)) else 0 {
          OnlyReleasesAreUnlearnt(s, call, key);
        }
        TotalDependsOnCounts(s.gates.Keys, t.gates.Keys, s, t, Unlearnt);
      }
    }
  }
}
