/** What a directory's barriers close (derive, Barriers and Acks of internal/admission/admission.go).

A placement's own barrier closes the gate it names on that placement. A cluster's barrier closes
the mutations gate of every placement with a bucket on the cluster. */
module Derivation {
  import opened Basics
  import opened Admission

  datatype Barrier = Barrier(id: string, kind: string)

  /** A placement as the scan reads it: its barrier, and the clusters it has a bucket on
      (PlacementClusters: its roles and legs, each cluster once). */
  datatype Placement = Placement(barrier: Option<Barrier>, clusters: seq<string>)

  datatype Named<T> = Named(name: string, value: T)

  datatype Snapshot = Snapshot(
    version: int,
    generations: map<string, int>,
    clusters: seq<Named<Option<Barrier>>>,
    placements: seq<Named<Placement>>
  ) {
    /** Clusters and placements are keyed by name in the directory: no name is listed twice. */
    ghost predicate Valid() {
      && (forall i, j | 0 <= i < j < |clusters| :: clusters[i].name != clusters[j].name)
      && (forall i, j | 0 <= i < j < |placements| :: placements[i].name != placements[j].name)
    }

    function Generation(resource: string): int {
      if resource in generations then generations[resource] else 0
    }
  }

  datatype OwnBarrier = OwnBarrier(name: string, b: Barrier, kind: Kind)

  datatype Derived = Derived(
    closures: Closures,
    covered: map<string, seq<string>>, // barrier id -> the placements it closes
    own: seq<OwnBarrier>,
    clusters: seq<OwnBarrier>
  )

  function KindOf(kind: string): Option<Kind> {
    if kind == "mutations" then Some(Mutations)
    else if kind == "source" then Some(Source)
    else None
  }

  function Covered(covered: map<string, seq<string>>, id: string): seq<string> {
    if id in covered then covered[id] else []
  }

  // ---------------------------------------------------------------------------------------------
  // The scan, one step of each loop at a time.

  function HeldBy(clusters: seq<Named<Option<Barrier>>>): map<string, string> {
    if clusters == [] then map[]
    else
      var held, c := HeldBy(clusters[..|clusters| - 1]), clusters[|clusters| - 1];
      if c.value.Some? then held[c.name := c.value.value.id] else held
  }

  function ClusterList(clusters: seq<Named<Option<Barrier>>>): seq<OwnBarrier> {
    if clusters == [] then []
    else
      var list, c := ClusterList(clusters[..|clusters| - 1]), clusters[|clusters| - 1];
      if c.value.Some? then list + [OwnBarrier(c.name, c.value.value, Mutations)] else list
  }

  function AddOwn(dv: Derived, key: string, p: Placement): Derived {
    if p.barrier.Some? && KindOf(p.barrier.value.kind).Some? then
      var b, k := p.barrier.value, KindOf(p.barrier.value.kind).value;
      dv.(closures := dv.closures[key := ClosedBy(dv.closures, key).With(k, b.id)],
          covered := dv.covered[b.id := Covered(dv.covered, b.id) + [key]],
          own := dv.own + [OwnBarrier(key, b, k)])
    else dv
  }

  function AddCluster(dv: Derived, held: map<string, string>, key: string, name: string): Derived {
    if name in held then
      var c := ClosedBy(dv.closures, key);
      dv.(closures := dv.closures[key := if c.mutations == "" then c.With(Mutations, held[name]) else c],
          covered := dv.covered[held[name] := Covered(dv.covered, held[name]) + [key]])
    else dv
  }

  function AddClusters(dv: Derived, held: map<string, string>, key: string, names: seq<string>): Derived {
    if names == [] then dv
    else AddCluster(AddClusters(dv, held, key, names[..|names| - 1]), held, key, names[|names| - 1])
  }

  function AddPlacement(dv: Derived, held: map<string, string>, p: Named<Placement>): Derived {
    AddClusters(AddOwn(dv, p.name, p.value), held, p.name, p.value.clusters)
  }

  function AddPlacements(dv: Derived, held: map<string, string>, ps: seq<Named<Placement>>): Derived {
    if ps == [] then dv
    else AddPlacement(AddPlacements(dv, held, ps[..|ps| - 1]), held, ps[|ps| - 1])
  }

  function Derive(snap: Snapshot): Derived {
    AddPlacements(Derived(map[], map[], [], ClusterList(snap.clusters)), HeldBy(snap.clusters), snap.placements)
  }

  /** derive: one scan of the clusters, then one of the placements. */
  method Scan(snap: Snapshot) returns (dv: Derived)
    ensures dv == Derive(snap)
  {
    var held: map<string, string> := map[];
    dv := Derived(map[], map[], [], []);
    for i := 0 to |snap.clusters|
      invariant held == HeldBy(snap.clusters[..i])
      invariant dv == Derived(map[], map[], [], ClusterList(snap.clusters[..i]))
    {
      assert snap.clusters[..i + 1][..i] == snap.clusters[..i];
      var c := snap.clusters[i];
      if c.value.Some? {
        held := held[c.name := c.value.value.id];
        dv := dv.(clusters := dv.clusters + [OwnBarrier(c.name, c.value.value, Mutations)]);
      }
    }
    assert snap.clusters[..|snap.clusters|] == snap.clusters;
    ghost var start := dv;
    for i := 0 to |snap.placements|
      invariant dv == AddPlacements(start, held, snap.placements[..i])
    {
      assert snap.placements[..i + 1][..i] == snap.placements[..i];
      ghost var before := dv;
      var key, p := snap.placements[i].name, snap.placements[i].value;
      if p.barrier.Some? {
        var k := KindOf(p.barrier.value.kind);
        if k.Some? {
          var b := p.barrier.value;
          dv := dv.(closures := dv.closures[key := ClosedBy(dv.closures, key).With(k.value, b.id)],
                    covered := dv.covered[b.id := Covered(dv.covered, b.id) + [key]],
                    own := dv.own + [OwnBarrier(key, b, k.value)]);
        }
      }
      assert dv == AddOwn(before, key, p);
      if |held| == 0 {
        NothingHeldAddsNothing(dv, held, key, p.clusters);
        continue;
      }
      ghost var owned := dv;
      for j := 0 to |p.clusters|
        invariant dv == AddClusters(owned, held, key, p.clusters[..j])
      {
        assert p.clusters[..j + 1][..j] == p.clusters[..j];
        var name := p.clusters[j];
        if name !in held {
          continue;
        }
        var cl := ClosedBy(dv.closures, key);
        if cl.mutations == "" {
          cl := cl.With(Mutations, held[name]);
        }
        dv := dv.(closures := dv.closures[key := cl],
                  covered := dv.covered[held[name] := Covered(dv.covered, held[name]) + [key]]);
      }
      assert p.clusters[..|p.clusters|] == p.clusters;
    }
    assert snap.placements[..|snap.placements|] == snap.placements;
  }

  lemma {:induction false} NothingHeldAddsNothing(dv: Derived, held: map<string, string>, key: string,
      names: seq<string>)
    requires |held| == 0
    ensures AddClusters(dv, held, key, names) == dv
  {
    assert held.Keys == {};
    if names != [] {
      NothingHeldAddsNothing(dv, held, key, names[..|names| - 1]);
    }
  }

  // ---------------------------------------------------------------------------------------------
  // What the scan means.

  ghost predicate OnCluster(p: Placement, name: string) {
    name in p.clusters
  }

  /** Whether barrier `id` is one that closes a gate of placement `p`. */
  ghost predicate Names(held: map<string, string>, p: Placement, id: string) {
    || (p.barrier.Some? && KindOf(p.barrier.value.kind).Some? && p.barrier.value.id == id)
    || (exists name :: name in held && OnCluster(p, name) && held[name] == id)
  }

  /** The mutations gate is closed by the first barrier found: the placement's own, else that of the
      first of its clusters that carries one. */
  function FirstHeld(held: map<string, string>, names: seq<string>): string {
    if names == [] then ""
    else if FirstHeld(held, names[..|names| - 1]) != "" then FirstHeld(held, names[..|names| - 1])
    else if names[|names| - 1] in held then held[names[|names| - 1]]
    else ""
  }

  function ClosedFor(held: map<string, string>, p: Placement): Closed {
    var own := if p.barrier.Some? && KindOf(p.barrier.value.kind).Some?
               then OPEN.With(KindOf(p.barrier.value.kind).value, p.barrier.value.id) else OPEN;
    if own.mutations == "" then own.With(Mutations, FirstHeld(held, p.clusters)) else own
  }

  lemma {:induction false} ClustersClose(dv: Derived, held: map<string, string>, key: string, names: seq<string>)
    ensures
      var after := AddClusters(dv, held, key, names);
      var c := ClosedBy(dv.closures, key);
      && ClosedBy(after.closures, key)
         == (if c.mutations == "" then c.With(Mutations, FirstHeld(held, names)) else c)
      && (forall other | other != key :: ClosedBy(after.closures, other) == ClosedBy(dv.closures, other))
      && after.own == dv.own && after.clusters == dv.clusters
  {
    if names != [] {
      ClustersClose(dv, held, key, names[..|names| - 1]);
    }
  }

  lemma {:induction false} ClustersCover(dv: Derived, held: map<string, string>, key: string, names: seq<string>,
      id: string, k: string)
    ensures k in Covered(AddClusters(dv, held, key, names).covered, id) <==>
            || k in Covered(dv.covered, id)
            || (k == key && exists name :: name in held && name in names && held[name] == id)
  {
    if names != [] {
      var less, name := names[..|names| - 1], names[|names| - 1];
      ClustersCover(dv, held, key, less, id, k);
      assert forall n :: n in names <==> n in less || n == name;
    }
  }

  /** Every placement's gates are closed exactly as its own barrier and its clusters' ask. */
  lemma {:induction false} ClosuresAreExact(dv: Derived, held: map<string, string>, ps: seq<Named<Placement>>, i: nat)
    requires dv.closures == map[]
    requires i < |ps|
    requires forall a, b | 0 <= a < b < |ps| :: ps[a].name != ps[b].name
    ensures ClosedBy(AddPlacements(dv, held, ps).closures, ps[i].name) == ClosedFor(held, ps[i].value)
    decreases |ps|
  {
    var less, p := ps[..|ps| - 1], ps[|ps| - 1];
    var before := AddPlacements(dv, held, less);
    ClustersClose(AddOwn(before, p.name, p.value), held, p.name, p.value.clusters);
    if i < |ps| - 1 {
      ClosuresAreExact(dv, held, less, i);
    } else {
      UnlistedIsOpen(dv, held, less, p.name);
    }
  }

  lemma {:induction false} UnlistedIsOpen(dv: Derived, held: map<string, string>, ps: seq<Named<Placement>>,
      key: string)
    requires dv.closures == map[]
    requires forall i | 0 <= i < |ps| :: ps[i].name != key
    ensures ClosedBy(AddPlacements(dv, held, ps).closures, key) == OPEN
  {
    if ps != [] {
      var less, p := ps[..|ps| - 1], ps[|ps| - 1];
      UnlistedIsOpen(dv, held, less, key);
      ClustersClose(AddOwn(AddPlacements(dv, held, less), p.name, p.value), held, p.name, p.value.clusters);
    }
  }

  /** A barrier's covered placements are exactly those it closes a gate of. */
  lemma {:induction false} CoveredIsExact(dv: Derived, held: map<string, string>, ps: seq<Named<Placement>>, id: string,
      key: string)
    requires dv.covered == map[]
    ensures key in Covered(AddPlacements(dv, held, ps).covered, id)
       <==> exists i :: 0 <= i < |ps| && ps[i].name == key && Names(held, ps[i].value, id)
  {
    if ps != [] {
      var less, p := ps[..|ps| - 1], ps[|ps| - 1];
      CoveredIsExact(dv, held, less, id, key);
      ClustersCover(AddOwn(AddPlacements(dv, held, less), p.name, p.value), held, p.name, p.value.clusters, id, key);
      assert (exists name :: name in held && name in p.value.clusters && held[name] == id)
        <==> (exists name :: name in held && OnCluster(p.value, name) && held[name] == id);
      assert forall i | 0 <= i < |less| :: ps[i] == less[i];
    }
  }

  /** A gate is closed by the directory exactly when some barrier of its kind covers it. */
  lemma ClosedForMeaning(held: map<string, string>, p: Placement, kind: Kind)
    requires p.barrier.Some? ==> p.barrier.value.id != ""
    requires forall name | name in held :: held[name] != ""
    ensures ClosedFor(held, p).At(kind) != "" <==>
            || (p.barrier.Some? && KindOf(p.barrier.value.kind) == Some(kind))
            || (kind == Mutations && exists name :: name in held && OnCluster(p, name))
  {
    FirstHeldMeaning(held, p.clusters);
  }

  lemma {:induction false} FirstHeldMeaning(held: map<string, string>, names: seq<string>)
    requires forall name | name in held :: held[name] != ""
    ensures FirstHeld(held, names) != "" <==> exists name :: name in held && name in names
  {
    if names != [] {
      FirstHeldMeaning(held, names[..|names| - 1]);
      assert forall n :: n in names <==> n in names[..|names| - 1] || n == names[|names| - 1];
    }
  }
}
