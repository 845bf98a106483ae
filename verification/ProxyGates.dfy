/** The gates object a proxy holds (type Gates of internal/admission/admission.go), and the
acknowledgements it puts in each heartbeat.

The object keeps a gate per placement, a process-wide count, and the derivations of the last two
snapshots. Its ghost history lists the calls made on it: every method is proved to append its own
call, so what `Admission` proves of histories holds of every object. */
module ProxyGates {
  import opened Basics
  import opened Admission
  import opened Derivation

  datatype Ack = Ack(id: string, scope: string, generation: int, kind: string, closed: bool, inflight: int,
      uncertain: int)

  function PlacementResource(key: string): string { "placement:" + key }

  function ClusterResource(name: string): string { "cluster:" + name }

  /** A placement barrier's acknowledgement: its own gate, closed by this very barrier. */
  function OwnAck(s: State, snap: Snapshot, ob: OwnBarrier): Ack {
    var g, res := s.Of(ob.name), PlacementResource(ob.name);
    Ack(ob.b.id, res, snap.Generation(res), ob.b.kind, g.closed.At(ob.kind) == ob.b.id, g.inflight.At(ob.kind),
      g.uncertain.At(ob.kind))
  }

  /** What one more covered placement adds to a cluster barrier's acknowledgement. Closed by any
      barrier is closed: a placement its own barrier closed first drains for both. */
  function AddGate(ack: Ack, g: Gate): Ack {
    ack.(closed := ack.closed && g.closed.mutations != "",
         inflight := ack.inflight + g.inflight.mutations,
         uncertain := ack.uncertain + g.uncertain.mutations)
  }

  function AddGates(ack: Ack, gates: seq<Gate>): Ack {
    if gates == [] then ack else AddGate(AddGates(ack, gates[..|gates| - 1]), gates[|gates| - 1])
  }

  function NoGates(snap: Snapshot, cb: OwnBarrier): Ack {
    var res := ClusterResource(cb.name);
    Ack(cb.b.id, res, snap.Generation(res), cb.b.kind, true, 0, 0)
  }

  function ClusterAck(s: State, snap: Snapshot, cb: OwnBarrier, keys: seq<string>): Ack {
    AddGates(NoGates(snap, cb), seq(|keys|, i requires 0 <= i < |keys| => s.Of(keys[i])))
  }

  /** Every barrier of the snapshot with this proxy's counts through the gates it closes. */
  function AcksOf(s: State, snap: Snapshot): seq<Ack> {
    var dv := Derive(snap);
    seq(|dv.own|, i requires 0 <= i < |dv.own| => OwnAck(s, snap, dv.own[i])) +
    seq(|dv.clusters|, i requires 0 <= i < |dv.clusters| =>
      ClusterAck(s, snap, dv.clusters[i], Covered(dv.covered, dv.clusters[i].b.id)))
  }

  /** The gates once the closures of `done` are applied. */
  ghost function Listed(s: State, closures: Closures, done: set<string>, version: int, sticky: bool): map<string, Gate>
    requires done <= closures.Keys
  {
    map key | key in s.gates.Keys + done ::
      if key in done then s.Of(key).Applied(closures[key], version, sticky) else s.Of(key)
  }

  /** The gates once those of `done` that no closure lists are opened. */
  ghost function Unlisted(gates: map<string, Gate>, closures: Closures, done: set<string>,
      version: int): map<string, Gate>
  {
    map key | key in gates ::
      if key in done && key !in closures then gates[key].Set(Mutations, "", version).Set(Source, "", version)
        else gates[key]
  }

  lemma ListedOneMore(s: State, closures: Closures, done: set<string>, key: string, version: int, sticky: bool)
    requires done <= closures.Keys && key in closures && key !in done
    ensures Listed(s, closures, done + {key}, version, sticky)
         == Listed(s, closures, done, version, sticky)[key := s.Of(key).Applied(closures[key], version, sticky)]
  {
  }

  lemma TwoLoopsApply(s: State, closures: Closures, version: int, sticky: bool)
    ensures
      var listed := Listed(s, closures, closures.Keys, version, sticky);
      s.After(Call.Apply(closures, version, sticky)).gates
      == if sticky then listed else Unlisted(listed, closures, listed.Keys, version)
  {
    var listed := Listed(s, closures, closures.Keys, version, sticky);
    var end := if sticky then listed else Unlisted(listed, closures, listed.Keys, version);
    var want := s.After(Call.Apply(closures, version, sticky)).gates;
    assert end.Keys == want.Keys;
    forall key | key in want ensures end[key] == want[key] {
      assert want[key] == s.Of(key).Applied(ClosedBy(closures, key), version, sticky);
    }
  }

  datatype Cached = Cached(snap: Snapshot, dv: Derived)

  class Gates {
    var gates: map<string, Gate>
    var uncertain: int
    var newest: Option<Cached>
    var older: Option<Cached>
    ghost var history: seq<Call>

    ghost predicate Valid()
      reads this
    {
      && Replay(history) == View()
      && (newest.Some? ==> newest.value.dv == Derive(newest.value.snap))
      && (older.Some? ==> older.value.dv == Derive(older.value.snap))
    }

    function View(): State
      reads this
    {
      State(gates, uncertain)
    }

    constructor ()
      ensures Valid() && history == []
    {
      gates, uncertain, newest, older, history := map[], 0, None, None, [];
    }

    /** Take a token, or say which barrier refuses it. */
    method Enter(key: string, kind: Kind, version: int) returns (t: Token, barrier: string, ok: bool)
      requires Valid()
      modifies this`gates, this`history
      ensures Valid()
      ensures history == old(history) + [Call.Enter(key, kind, version)]
      ensures ok == old(View()).Of(key).Admits(kind, version)
      ensures t == if ok then Token(key, kind) else NoToken
      ensures barrier == if ok then ""
              else if old(View()).Of(key).closed.At(kind) != "" then old(View()).Of(key).closed.At(kind) else SUPERSEDED
    {
      Appended(Call.Enter(key, kind, version));
      var gt := GateFor(key);
      gates := gates[key := gt];
      if gt.closed.At(kind) != "" {
        return NoToken, gt.closed.At(kind), false;
      }
      if version < gt.from {
        return NoToken, SUPERSEDED, false;
      }
      gates := gates[key := gt.(inflight := gt.inflight.With(kind, gt.inflight.At(kind) + 1))];
      return Token(key, kind), "", true;
    }

    /** Give a token back with how its work ended. */
    method Release(t: Token, o: Outcome)
      requires Valid()
      modifies this`gates, this`uncertain, this`history
      ensures Valid()
      ensures history == if t.NoToken? then old(history) else old(history) + [Call.Release(t.key, t.kind, o)]
    {
      if t.NoToken? {
        return;
      }
      ghost var after := View().After(Call.Release(t.key, t.kind, o));
      var gt := GateFor(t.key);
      gt := gt.(inflight := gt.inflight.With(t.kind, gt.inflight.At(t.kind) - 1));
      if o == Uncertain {
        gt := gt.(uncertain := gt.uncertain.With(t.kind, gt.uncertain.At(t.kind) + 1));
      }
      gates := gates[t.key := gt];
      if o == Uncertain {
        uncertain := uncertain + 1;
      }
      assert View() == after;
      Appended(Call.Release(t.key, t.kind, o));
    }

    /** Close a gate for a barrier. */
    method Close(key: string, kind: Kind, barrier: string)
      requires Valid()
      modifies this`gates, this`history
      ensures Valid() && history == old(history) + [Call.Close(key, kind, barrier)]
    {
      Appended(Call.Close(key, kind, barrier));
      var gt := GateFor(key);
      gates := gates[key := gt.(closed := gt.closed.With(kind, barrier))];
    }

    /** Open a gate at a directory version. */
    method Open(key: string, kind: Kind, version: int)
      requires Valid()
      modifies this`gates, this`history
      ensures Valid() && history == old(history) + [Call.Open(key, kind, version)]
    {
      Appended(Call.Open(key, kind, version));
      if key in gates {
        gates := gates[key := gates[key].Set(kind, "", version)];
      }
    }

    /** Make the gates match the closures derived from a directory version. */
    method Apply(closures: Closures, version: int, sticky: bool)
      requires Valid()
      modifies this`gates, this`history
      ensures Valid() && history == old(history) + [Call.Apply(closures, version, sticky)]
    {
      Appended(Call.Apply(closures, version, sticky));
      TwoLoopsApply(View(), closures, version, sticky);
      ApplyListed(closures, version, sticky);
      if !sticky {
        OpenUnlisted(closures, version);
      }
    }

    method ApplyListed(closures: Closures, version: int, sticky: bool)
      modifies this`gates
      ensures gates == Listed(old(View()), closures, closures.Keys, version, sticky)
    {
      ghost var s := View();
      var todo := closures.Keys;
      while todo != {}
        invariant todo <= closures.Keys
        invariant gates == Listed(s, closures, closures.Keys - todo, version, sticky)
      {
        var key :| key in todo;
        var gt, c := GateFor(key), closures[key];
        if c.mutations != "" || !sticky {
          gt := gt.Set(Mutations, c.mutations, version);
        }
        if c.source != "" || !sticky {
          gt := gt.Set(Source, c.source, version);
        }
        gates := gates[key := gt];
        ListedOneMore(s, closures, closures.Keys - todo, key, version, sticky);
        assert closures.Keys - todo + {key} == closures.Keys - (todo - {key});
        todo := todo - {key};
      }
    }

    method OpenUnlisted(closures: Closures, version: int)
      modifies this`gates
      ensures gates == Unlisted(old(gates), closures, old(gates).Keys, version)
    {
      ghost var was := gates;
      var todo := gates.Keys;
      while todo != {}
        invariant todo <= gates.Keys == was.Keys
        invariant gates == Unlisted(was, closures, was.Keys - todo, version)
      {
        var key :| key in todo;
        todo := todo - {key};
        if key in closures {
          continue;
        }
        gates := gates[key := gates[key].Set(Mutations, "", version).Set(Source, "", version)];
      }
    }

    /** Tokens out, every gate and kind together. */
    method Inflight() returns (n: int)
      ensures n == Total(gates.Keys, View(), InFlight)
    {
      n := 0;
      var todo := gates.Keys;
      while todo != {}
        invariant todo <= gates.Keys
        invariant n + Total(todo, View(), InFlight) == Total(gates.Keys, View(), InFlight)
      {
        var key :| key in todo;
        TotalPicks(todo, View(), InFlight, key);
        n := n + gates[key].inflight.mutations + gates[key].inflight.source;
        todo := todo - {key};
      }
    }

    /** A snapshot's derivation, from the cache when it is one of the last two derived. */
    method DerivationOf(snap: Snapshot) returns (dv: Derived)
      requires Valid()
      modifies this`newest, this`older
      ensures Valid()
      ensures dv == Derive(snap)
    {
      if newest.Some? && newest.value.snap == snap {
        return newest.value.dv;
      }
      if older.Some? && older.value.snap == snap {
        return older.value.dv;
      }
      dv := Scan(snap);
      newest, older := Some(Cached(snap, dv)), newest;
    }

    /** The heartbeat's acknowledgements. */
    method Acks(snap: Snapshot) returns (out: seq<Ack>)
      requires Valid()
      modifies this`newest, this`older
      ensures Valid()
      ensures out == AcksOf(View(), snap)
    {
      var dv := DerivationOf(snap);
      out := [];
      for i := 0 to |dv.own|
        modifies {}
        invariant out == AcksOf(View(), snap)[..i]
      {
        var ob := dv.own[i];
        var st, res := GateFor(ob.name), PlacementResource(ob.name);
        out := out + [Ack(ob.b.id, res, snap.Generation(res), ob.b.kind, st.closed.At(ob.kind) == ob.b.id,
                          st.inflight.At(ob.kind), st.uncertain.At(ob.kind))];
      }
      for i := 0 to |dv.clusters|
        modifies {}
        invariant out == AcksOf(View(), snap)[..|dv.own| + i]
      {
        var ack := AckForCluster(snap, dv.clusters[i], Covered(dv.covered, dv.clusters[i].b.id));
        out := out + [ack];
      }
    }

    method AckForCluster(snap: Snapshot, cb: OwnBarrier, keys: seq<string>) returns (ack: Ack)
      ensures ack == ClusterAck(View(), snap, cb, keys)
    {
      var res := ClusterResource(cb.name);
      ack := Ack(cb.b.id, res, snap.Generation(res), cb.b.kind, true, 0, 0);
      ghost var s := View();
      ghost var read := seq(|keys|, i requires 0 <= i < |keys| => s.Of(keys[i]));
      for i := 0 to |keys|
        invariant ack == AddGates(NoGates(snap, cb), read[..i])
      {
        var st := GateFor(keys[i]);
        ack := ack.(closed := ack.closed && st.closed.mutations != "",
                    inflight := ack.inflight + st.inflight.mutations,
                    uncertain := ack.uncertain + st.uncertain.mutations);
        assert read[..i + 1][..i] == read[..i];
      }
      assert read[..|keys|] == read;
    }

    /** The gate of a placement, made on first use. */
    function GateFor(key: string): (gt: Gate)
      reads this
      ensures gt == View().Of(key)
    {
      if key in gates then gates[key] else FRESH
    }

    ghost method Appended(call: Call)
      modifies this`history
      ensures history == old(history) + [call]
      ensures Replay(history) == Replay(old(history)).After(call)
    {
      history := history + [call];
      assert Init(history) == old(history);
    }
  }

  // ---------------------------------------------------------------------------------------------
  // A cluster acknowledgement proves its drain, though the gates are read one at a time.

  /** The gates as read: the i-th placement's after the first `times[i]` calls of the history. */
  ghost function ReadGates(history: seq<Call>, keys: seq<string>, times: seq<nat>): seq<Gate>
    requires |times| == |keys|
    requires forall i | 0 <= i < |times| :: times[i] <= |history|
  {
    seq(|keys|, i requires 0 <= i < |keys| => Replay(history[..times[i]]).Of(keys[i]))
  }

  lemma {:induction false} DisciplinedPrefix(history: seq<Call>, n: nat)
    requires Disciplined(history) && n <= |history|
    ensures Disciplined(history[..n])
    decreases |history|
  {
    if n == |history| {
      assert history[..n] == history;
    } else {
      DisciplinedPrefix(Admission.Init(history), n);
      assert Admission.Init(history)[..n] == history[..n];
    }
  }

  lemma {:induction false} AckReadsEveryGate(ack: Ack, gates: seq<Gate>, i: nat)
    requires forall j | 0 <= j < |gates| :: 0 <= gates[j].inflight.mutations && 0 <= gates[j].uncertain.mutations
    requires i < |gates|
    ensures AddGates(ack, gates).closed ==> gates[i].closed.mutations != ""
    ensures ack.inflight + gates[i].inflight.mutations <= AddGates(ack, gates).inflight
    ensures ack.uncertain + gates[i].uncertain.mutations <= AddGates(ack, gates).uncertain
  {
    var less := gates[..|gates| - 1];
    AddGatesGrows(ack, less);
    if i < |gates| - 1 {
      AckReadsEveryGate(ack, less, i);
    }
  }

  lemma {:induction false} AddGatesGrows(ack: Ack, gates: seq<Gate>)
    requires forall j | 0 <= j < |gates| :: 0 <= gates[j].inflight.mutations && 0 <= gates[j].uncertain.mutations
    ensures ack.inflight <= AddGates(ack, gates).inflight && ack.uncertain <= AddGates(ack, gates).uncertain
  {
    if gates != [] {
      AddGatesGrows(ack, gates[..|gates| - 1]);
    }
  }

  /** Read one at a time while other calls go on, an acknowledgement that says closed with nothing
      out and nothing unlearned is true of every covered placement at the end of the read, so long
      as none of their gates reopened after it was read. */
  lemma ClusterAckIsSound(history: seq<Call>, snap: Snapshot, cb: OwnBarrier, keys: seq<string>, times: seq<nat>,
      i: nat)
    requires Disciplined(history)
    requires |times| == |keys| && forall j | 0 <= j < |times| :: times[j] <= |history|
    requires forall j | 0 <= j < |keys| :: NeverReopens(history, times[j], keys[j], Mutations)
    requires
      var ack := AddGates(NoGates(snap, cb), ReadGates(history, keys, times));
      ack.closed && ack.inflight == 0 && ack.uncertain == 0
    requires i < |keys|
    ensures
      var g := Replay(history).Of(keys[i]);
      g.closed.mutations != "" && g.inflight.mutations == 0 && g.uncertain.mutations == 0
  {
    ReadCountsAreCounts(history, keys, times);
    AckReadsEveryGate(NoGates(snap, cb), ReadGates(history, keys, times), i);
    ClosedAndDrainedIsStable(history, times[i], keys[i], Mutations);
  }

  lemma ReadCountsAreCounts(history: seq<Call>, keys: seq<string>, times: seq<nat>)
    requires Disciplined(history)
    requires |times| == |keys| && forall j | 0 <= j < |times| :: times[j] <= |history|
    ensures forall g <- ReadGates(history, keys, times) :: 0 <= g.inflight.mutations && 0 <= g.uncertain.mutations
  {
    forall j | 0 <= j < |keys|
      ensures var g := Replay(history[..times[j]]).Of(keys[j]); 0 <= g.inflight.mutations && 0 <= g.uncertain.mutations
    {
      DisciplinedPrefix(history, times[j]);
      CountersMatchHistory(history[..times[j]], keys[j], Mutations);
    }
  }

  lemma {:induction false} HeldByIsExact(clusters: seq<Named<Option<Barrier>>>, i: nat)
    requires i < |clusters| && clusters[i].value.Some?
    requires forall a, b | 0 <= a < b < |clusters| :: clusters[a].name != clusters[b].name
    ensures clusters[i].name in HeldBy(clusters) && HeldBy(clusters)[clusters[i].name] == clusters[i].value.value.id
  {
    if i < |clusters| - 1 {
      HeldByIsExact(clusters[..|clusters| - 1], i);
    }
  }

  /** Every placement with a bucket on the cluster is among the placements its acknowledgement
      reads, whichever barrier closed it first. */
  lemma ClusterAckCoversItsPlacements(snap: Snapshot, c: nat, p: nat)
    requires snap.Valid()
    requires c < |snap.clusters| && snap.clusters[c].value.Some?
    requires p < |snap.placements| && OnCluster(snap.placements[p].value, snap.clusters[c].name)
    ensures snap.placements[p].name in Covered(Derive(snap).covered, snap.clusters[c].value.value.id)
  {
    var held := HeldBy(snap.clusters);
    HeldByIsExact(snap.clusters, c);
    var id := snap.clusters[c].value.value.id;
    assert snap.clusters[c].name in held && held[snap.clusters[c].name] == id;
    assert Names(held, snap.placements[p].value, id);
    CoveredIsExact(Derived(map[], map[], [], ClusterList(snap.clusters)), held, snap.placements, id,
      snap.placements[p].name);
  }

  /** The two together: a cluster's acknowledgement that says closed with nothing out and nothing
      unlearned, its gates read one at a time, is true of every placement with a bucket on the cluster
      at the end of the read, if none of those it read reopened after it was read. */
  lemma ClusterAckMeansDrained(history: seq<Call>, snap: Snapshot, cb: OwnBarrier, c: nat, p: nat, times: seq<nat>)
    requires Disciplined(history) && snap.Valid()
    requires c < |snap.clusters| && snap.clusters[c].value.Some?
    requires p < |snap.placements| && OnCluster(snap.placements[p].value, snap.clusters[c].name)
    requires
      var keys := Covered(Derive(snap).covered, snap.clusters[c].value.value.id);
      && |times| == |keys| && (forall j | 0 <= j < |times| :: times[j] <= |history|)
      && (forall j | 0 <= j < |keys| :: NeverReopens(history, times[j], keys[j], Mutations))
      && var ack := AddGates(NoGates(snap, cb), ReadGates(history, keys, times));
         ack.closed && ack.inflight == 0 && ack.uncertain == 0
    ensures
      var g := Replay(history).Of(snap.placements[p].name);
      g.closed.mutations != "" && g.inflight.mutations == 0 && g.uncertain.mutations == 0
  {
    var keys := Covered(Derive(snap).covered, snap.clusters[c].value.value.id);
    ClusterAckCoversItsPlacements(snap, c, p);
    var i :| 0 <= i < |keys| && keys[i] == snap.placements[p].name;
    ClusterAckIsSound(history, snap, cb, keys, times, i);
  }
}
