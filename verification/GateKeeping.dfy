/** How a proxy keeps its gates in step with its directory (internal/proxy/gates.go).

The keeper is told two versions: the one installed, and the one new requests route by. A gate is
closed while either closes it, and is not opened while requests still route by an older version
than the installed one. */
module GateKeeping {
  import opened Basics
  import opened Admission
  import opened Derivation
  import opened ProxyGates

  /** Two closures of one placement together: the first one's barrier where it has one. */
  function Merged(a: Closed, b: Closed): Closed {
    PerKind(if a.mutations != "" then a.mutations else b.mutations, if a.source != "" then a.source else b.source)
  }

  function ClosuresOf(s: Option<Snapshot>): Closures {
    if s.None? then map[] else Derive(s.value).closures
  }

  function SnapshotVersion(s: Option<Snapshot>): int {
    if s.None? then 0 else Max(0, s.value.version)
  }

  predicate Behind(installed: Option<Snapshot>, served: Option<Snapshot>) {
    installed.Some? && served.Some? && served.value.version < installed.value.version
  }

  class GateKeeper {
    const gates: Gates
    var installed: Option<Snapshot>
    var served: Option<Snapshot>

    constructor (gates: Gates)
      ensures this.gates == gates && installed.None? && served.None?
    {
      this.gates, installed, served := gates, None, None;
    }

    /** The closures the keeper's two versions ask for together are applied, at the newer of the
        two, sticky while requests are behind the installed one. */
    ghost predicate AppliedLast(closures: Closures)
      reads this, gates
    {
      && gates.history != []
      && gates.history[|gates.history| - 1] ==
         Call.Apply(closures, Max(SnapshotVersion(installed), SnapshotVersion(served)), Behind(installed, served))
      && forall key ::
           ClosedBy(closures, key) == Merged(ClosedBy(ClosuresOf(installed), key), ClosedBy(ClosuresOf(served), key))
    }

    method Installed(s: Snapshot) returns (ghost closures: Closures)
      requires gates.Valid()
      modifies this`installed, gates
      ensures gates.Valid() && |gates.history| == |old(gates.history)| + 1 && old(gates.history) <= gates.history
      ensures installed == Some(s) && AppliedLast(closures)
    {
      installed := Some(s);
      closures := ApplyLocked();
    }

    method Served(s: Snapshot) returns (ghost closures: Closures)
      requires gates.Valid()
      modifies this`served, gates
      ensures gates.Valid() && |gates.history| == |old(gates.history)| + 1 && old(gates.history) <= gates.history
      ensures served == Some(s) && AppliedLast(closures)
    {
      served := Some(s);
      closures := ApplyLocked();
    }

    method ApplyLocked() returns (ghost applied: Closures)
      requires gates.Valid()
      modifies gates
      ensures gates.Valid() && |gates.history| == |old(gates.history)| + 1 && old(gates.history) <= gates.history
      ensures AppliedLast(applied)
    {
      var closures := MergeBoth();
      var sticky := installed.Some? && served.Some? && served.value.version < installed.value.version;
      var version := 0;
      if installed.Some? && installed.value.version > version {
        version := installed.value.version;
      }
      if served.Some? && served.value.version > version {
        version := served.value.version;
      }
      gates.Apply(closures, version, sticky);
      applied := closures;
    }

    /** What the two versions close together. */
    method MergeBoth() returns (closures: Closures)
      requires gates.Valid()
      modifies gates`newest, gates`older
      ensures gates.Valid()
      ensures forall key ::
                ClosedBy(closures, key) ==
                  Merged(ClosedBy(ClosuresOf(installed), key), ClosedBy(ClosuresOf(served), key))
    {
      closures := map[];
      closures := MergeIn(closures, installed);
      closures := MergeIn(closures, served);
    }

    /** Add a snapshot's closures to those gathered, which keep their own barriers. */
    method MergeIn(have: Closures, snap: Option<Snapshot>) returns (closures: Closures)
      requires gates.Valid()
      modifies gates`newest, gates`older
      ensures gates.Valid()
      ensures forall key :: ClosedBy(closures, key) == Merged(ClosedBy(have, key), ClosedBy(ClosuresOf(snap), key))
    {
      closures := have;
      if snap.None? {
        return;
      }
      var dv := gates.DerivationOf(snap.value);
      var todo := dv.closures.Keys;
      while todo != {}
        modifies {}
        invariant todo <= dv.closures.Keys
        invariant forall key :: ClosedBy(closures, key) ==
                    if key in todo then ClosedBy(have, key) else Merged(ClosedBy(have, key), ClosedBy(dv.closures, key))
      {
        var key :| key in todo;
        var c, closed := ClosedBy(closures, key), dv.closures[key];
        if c.mutations == "" {
          c := c.With(Mutations, closed.mutations);
        }
        if c.source == "" {
          c := c.With(Source, closed.source);
        }
        closures := closures[key := c];
        todo := todo - {key};
      }
    }
  }
}
