/** The event stream (internal/control/events.go): a ring of the last events, subscribers that are
replayed what they missed, and the directory's changes as events. The ring refines the log of every
event ever published. */
module Events {
  import opened Basics

  const RING := 4096      // events kept by default
  const BUFFER := 256     // events a subscriber may fall behind
  const STREAMS := 64     // streams open at once

  datatype Kind = ClusterRecord | TenantRecord | PlacementRecord

  datatype Data =
    | Put(version: int, kind: Kind, key: string, record: string)
    | Delete(version: int, kind: Kind, key: string)
    | Version(version: int)
    | Other(text: string)      // an operation's, or the fleet's

  /** An event, and its place in the log, from 1. */
  datatype Event = Event(id: nat, data: Data)

  /** The directory, as far as its events tell. */
  datatype Snapshot = Snapshot(version: int, clusters: map<string, string>, tenants: map<string, string>,
      placements: map<string, string>)

  /** A client's Last-Event-ID. */
  datatype LastId = NoId | Malformed | Id(epoch: string, last: nat)

  /** A subscriber: where in the log its stream starts, how many events it has taken, and those that
      wait for it. */
  datatype Sub = Sub(start: nat, taken: nat, queue: seq<Event>)

  /** A stream gets the log from its start, without gap or repeat, up to an end. */
  ghost predicate Follows(sub: Sub, log: seq<Event>, end: nat) {
    sub.start + sub.taken <= end <= |log| && sub.queue == log[sub.start + sub.taken..end] && |sub.queue| <= BUFFER
  }

  lemma FollowsLonger(sub: Sub, log: seq<Event>, more: seq<Event>, end: nat)
    requires Follows(sub, log, end) && log <= more
    ensures Follows(sub, more, end)
  {
    assert more[..end] == log[..end];
    assert more[sub.start + sub.taken..end] == log[sub.start + sub.taken..end];
  }

  lemma FollowsOneMore(sub: Sub, log: seq<Event>, ev: Event)
    requires Follows(sub, log, |log|) && |sub.queue| < BUFFER
    ensures Follows(sub.(queue := sub.queue + [ev]), log + [ev], |log| + 1)
  {
    var n := sub.start + sub.taken;
    assert (log + [ev])[n..|log| + 1] == log[n..|log|] + [ev];
  }

  ghost predicate Numbered(log: seq<Event>) {
    forall i | 0 <= i < |log| :: log[i].id == i + 1
  }

  /** The i-th event is in its slot. */
  ghost predicate InSlot(slots: seq<Event>, log: seq<Event>, i: nat)
    requires slots != [] && i < |log|
  {
    slots[(i + 1) % |slots|] == log[i]
  }

  /** The ring has the last events of the log, as many as it has slots. */
  ghost predicate Retained(slots: seq<Event>, log: seq<Event>)
    requires slots != []
  {
    forall i | 0 <= i < |log| && |log| - |slots| <= i :: InSlot(slots, log, i)
  }

  lemma RetainsOneMore(slots: seq<Event>, log: seq<Event>, ev: Event)
    requires slots != [] && Retained(slots, log)
    ensures Retained(slots[(|log| + 1) % |slots| := ev], log + [ev])
  {
    var slots', log' := slots[(|log| + 1) % |slots| := ev], log + [ev];
    forall i | 0 <= i < |log'| && |log'| - |slots'| <= i ensures InSlot(slots', log', i) {
      if i < |log| {
        assert InSlot(slots, log, i);
        if (i + 1) % |slots| == (|log| + 1) % |slots| {
          SharedSlot(i + 1, |log| + 1, |slots|);
        }
      }
    }
  }

  /** Two events share a slot of the ring only a whole turn apart. */
  lemma SharedSlot(a: nat, b: nat, size: nat)
    requires size > 0 && a <= b && a % size == b % size
    ensures b == a || b >= a + size
  {
    var k := b / size - a / size;
    assert b - a == size * k;
    if k >= 1 {
      assert size * k >= size;
    }
  }

  /** A stream served a publish: handed the event, or dropped for being a whole buffer behind. */
  ghost predicate Served(was: map<nat, Sub>, gone: map<nat, Sub>, ev: Event, subs: map<nat, Sub>,
      dropped: map<nat, Sub>, left: set<nat>)
  {
    && left <= subs.Keys && (forall id | id in left :: id in was && subs[id] == was[id])
    && subs.Keys <= was.Keys && dropped.Keys == gone.Keys + (was.Keys - subs.Keys)
    && (forall id | id in subs && id !in left ::
         |was[id].queue| < BUFFER && subs[id] == was[id].(queue := was[id].queue + [ev]))
    && (forall id | id in was && id !in subs :: |was[id].queue| >= BUFFER && dropped[id] == was[id])
    && (forall id | id in gone && id !in was :: dropped[id] == gone[id])
  }

  /** Every stream, open or dropped, follows the log. */
  ghost predicate AllFollow(subs: map<nat, Sub>, dropped: map<nat, Sub>, nextSub: nat, log: seq<Event>) {
    && (forall id | id in subs :: id < nextSub && Follows(subs[id], log, |log|))
    && (forall id | id in dropped :: id < nextSub && FollowsSome(dropped[id], log))
    && subs.Keys !! dropped.Keys
  }

  ghost predicate FollowsSome(sub: Sub, log: seq<Event>) {
    exists end: nat :: Follows(sub, log, end)
  }

  lemma ServedFollow(log: seq<Event>, ev: Event, was: map<nat, Sub>, gone: map<nat, Sub>, subs: map<nat, Sub>,
      dropped: map<nat, Sub>, nextSub: nat)
    requires Served(was, gone, ev, subs, dropped, {}) && AllFollow(was, gone, nextSub, log)
    ensures AllFollow(subs, dropped, nextSub, log + [ev])
  {
    var more := log + [ev];
    forall id | id in subs ensures Follows(subs[id], more, |more|) {
      FollowsOneMore(was[id], log, ev);
    }
    forall id | id in dropped ensures FollowsSome(dropped[id], more) {
      if id in was {
        FollowsLonger(was[id], log, more, |log|);
      } else {
        StillFollows(gone[id], log, more);
      }
    }
  }

  lemma StillFollows(sub: Sub, log: seq<Event>, more: seq<Event>)
    requires FollowsSome(sub, log) && log <= more
    ensures FollowsSome(sub, more)
  {
    var end: nat :| Follows(sub, log, end);
    FollowsLonger(sub, log, more, end);
  }

  // ---------------------------------------------------------------------------------------------
  // The directory's events.

  /** One event, taken by a client that keeps the records of a kind. */
  function Applied(records: map<string, string>, kind: Kind, data: Data): map<string, string> {
    match data
    case Put(_, k, key, record) => if k == kind then records[key := record] else records
    case Delete(_, k, key) => if k == kind then map l | l in records && l != key :: records[l] else records
    case _ => records
  }

  function Fold(records: map<string, string>, kind: Kind, changes: seq<Data>): map<string, string> {
    if changes == [] then records
    else
      var n := |changes| - 1;
      Applied(Fold(records, kind, changes[..n]), kind, changes[n])
  }

  lemma {:induction false} FoldJoins(records: map<string, string>, kind: Kind, a: seq<Data>, b: seq<Data>)
    ensures Fold(records, kind, a + b) == Fold(Fold(records, kind, a), kind, b)
    decreases |b|
  {
    if b == [] {
      assert a + b == a;
    } else {
      var n := |b| - 1;
      FoldJoins(records, kind, a, b[..n]);
      assert (a + b)[..|a| + n] == a + b[..n];
    }
  }

  lemma FoldOneMore(records: map<string, string>, kind: Kind, a: seq<Data>, data: Data)
    ensures Fold(records, kind, a + [data]) == Applied(Fold(records, kind, a), kind, data)
  {
    assert (a + [data])[..|a|] == a;
  }

  /** Whether an event changes the records of a kind. */
  predicate Concerns(data: Data, kind: Kind) {
    (data.Put? || data.Delete?) && data.kind == kind
  }

  lemma {:induction false} FoldIgnores(records: map<string, string>, kind: Kind, changes: seq<Data>)
    requires forall d | d in changes :: !Concerns(d, kind)
    ensures Fold(records, kind, changes) == records
    decreases |changes|
  {
    if changes != [] {
      var n := |changes| - 1;
      FoldIgnores(records, kind, changes[..n]);
      assert changes[n] in changes;
    }
  }

  /** The directory's own events among these. */
  function Directed(events: seq<Event>): seq<Data> {
    if events == [] then []
    else
      var n := |events| - 1;
      Directed(events[..n]) + (if events[n].data.Other? then [] else [events[n].data])
  }

  lemma {:induction false} DirectedJoins(a: seq<Event>, b: seq<Event>)
    ensures Directed(a + b) == Directed(a) + Directed(b)
    decreases |b|
  {
    if b == [] {
      assert a + b == a;
    } else {
      var n := |b| - 1;
      DirectedJoins(a, b[..n]);
      assert (a + b)[..|a| + n] == a + b[..n];
      var last := if b[n].data.Other? then [] else [b[n].data];
      assert Directed(a + b) == Directed(a + b[..n]) + last;
      assert Directed(a) + Directed(b[..n]) + last == Directed(a) + (Directed(b[..n]) + last);
    }
  }

  lemma {:induction false} OthersAreNotDirected(events: seq<Event>)
    requires forall e | e in events :: e.data.Other?
    ensures Directed(events) == []
    decreases |events|
  {
    if events != [] {
      OthersAreNotDirected(events[..|events| - 1]);
      assert events[|events| - 1] in events;
    }
  }

  function RecordsOf(snap: Snapshot, kind: Kind): map<string, string> {
    match kind
    case ClusterRecord => snap.clusters
    case TenantRecord => snap.tenants
    case PlacementRecord => snap.placements
  }

  /** The records of these keys that are new or changed. */
  function PutsFor(keys: seq<string>, kind: Kind, before: map<string, string>, after: map<string, string>,
      version: int): seq<Data>
    requires forall k | k in keys :: k in after
  {
    if keys == [] then []
    else
      var n := |keys| - 1;
      var k := keys[n];
      PutsFor(keys[..n], kind, before, after, version)
        + (if k !in before || before[k] != after[k] then [Put(version, kind, k, after[k])] else [])
  }

  /** The records of these keys that are gone. */
  function DeletesFor(keys: seq<string>, kind: Kind, after: map<string, string>, version: int): seq<Data> {
    if keys == [] then []
    else
      var n := |keys| - 1;
      DeletesFor(keys[..n], kind, after, version) + (if keys[n] !in after then [Delete(version, kind, keys[n])] else [])
  }

  lemma {:induction false} PutsFold(keys: seq<string>, kind: Kind, before: map<string, string>,
      after: map<string, string>, version: int, k: string)
    requires forall x | x in keys :: x in after
    ensures var now := Fold(before, kind, PutsFor(keys, kind, before, after, version));
            && (k in now <==> k in before || k in keys)
            && (k in keys ==> now[k] == after[k]) && (k in before && k !in keys ==> now[k] == before[k])
    decreases |keys|
  {
    if keys != [] {
      var n := |keys| - 1;
      var l := keys[n];
      PutsFold(keys[..n], kind, before, after, version, k);
      PutsFold(keys[..n], kind, before, after, version, l);
      FoldOneMore(before, kind, PutsFor(keys[..n], kind, before, after, version), Put(version, kind, l, after[l]));
      assert keys == keys[..n] + [l];
      assert PutsFor(keys[..n], kind, before, after, version) + [] == PutsFor(keys[..n], kind, before, after, version);
    }
  }

  lemma {:induction false} DeletesFold(keys: seq<string>, kind: Kind, records: map<string, string>,
      after: map<string, string>, version: int, k: string)
    ensures var now := Fold(records, kind, DeletesFor(keys, kind, after, version));
            && (k in now <==> k in records && (k in after || k !in keys))
            && (k in now ==> now[k] == records[k])
    decreases |keys|
  {
    if keys != [] {
      var n := |keys| - 1;
      var l, earlier := keys[n], keys[..n];
      assert keys == earlier + [l];
      DeletesFold(earlier, kind, records, after, version, k);
      var deletes := DeletesFor(earlier, kind, after, version);
      if l in after {
        assert DeletesFor(keys, kind, after, version) == deletes;
      } else {
        assert DeletesFor(keys, kind, after, version) == deletes + [Delete(version, kind, l)];
        DeleteOneFold(records, kind, deletes, version, l, k);
      }
    }
  }

  lemma DeleteOneFold(records: map<string, string>, kind: Kind, changes: seq<Data>, version: int, l: string, k: string)
    ensures var before, now := Fold(records, kind, changes), Fold(records, kind, changes + [Delete(version, kind, l)]);
            (k in now <==> k in before && k != l) && (k in now ==> now[k] == before[k])
  {
    FoldOneMore(records, kind, changes, Delete(version, kind, l));
  }

  /** An event a change of this kind calls for. */
  predicate Needed(d: Data, kind: Kind, before: map<string, string>, after: map<string, string>, version: int) {
    match d
    case Put(v, k, key, record) =>
      v == version && k == kind && key in after && record == after[key] && (key !in before || before[key] != record)
    case Delete(v, k, key) => v == version && k == kind && key in before && key !in after
    case _ => false
  }

  lemma {:induction false} PutsAreNeeded(keys: seq<string>, kind: Kind, before: map<string, string>,
      after: map<string, string>, version: int)
    requires forall x | x in keys :: x in after
    ensures forall d | d in PutsFor(keys, kind, before, after, version) :: Needed(d, kind, before, after, version)
    decreases |keys|
  {
    if keys != [] {
      PutsAreNeeded(keys[..|keys| - 1], kind, before, after, version);
    }
  }

  lemma {:induction false} DeletesAreNeeded(keys: seq<string>, kind: Kind, before: map<string, string>,
      after: map<string, string>, version: int)
    requires forall x | x in keys :: x in before
    ensures forall d | d in DeletesFor(keys, kind, after, version) :: Needed(d, kind, before, after, version)
    decreases |keys|
  {
    if keys != [] {
      DeletesAreNeeded(keys[..|keys| - 1], kind, before, after, version);
    }
  }

  function KeyOf(d: Data): string {
    match d
    case Put(_, _, key, _) => key
    case Delete(_, _, key) => key
    case _ => ""
  }

  /** No two tell of one record. */
  ghost predicate Once(changes: seq<Data>) {
    forall i, j | 0 <= i < j < |changes| :: KeyOf(changes[i]) != KeyOf(changes[j])
  }

  ghost predicate Unique(keys: seq<string>) {
    forall i, j | 0 <= i < j < |keys| :: keys[i] != keys[j]
  }

  lemma {:induction false} PutsAreOnce(keys: seq<string>, kind: Kind, before: map<string, string>,
      after: map<string, string>, version: int)
    requires Unique(keys) && forall x | x in keys :: x in after
    ensures Once(PutsFor(keys, kind, before, after, version))
    ensures forall d | d in PutsFor(keys, kind, before, after, version) :: KeyOf(d) in keys
    decreases |keys|
  {
    if keys != [] {
      PutsAreOnce(keys[..|keys| - 1], kind, before, after, version);
    }
  }

  lemma {:induction false} DeletesAreOnce(keys: seq<string>, kind: Kind, after: map<string, string>, version: int)
    requires Unique(keys)
    ensures Once(DeletesFor(keys, kind, after, version))
    ensures forall d | d in DeletesFor(keys, kind, after, version) :: KeyOf(d) in keys && KeyOf(d) !in after
    decreases |keys|
  {
    if keys != [] {
      DeletesAreOnce(keys[..|keys| - 1], kind, after, version);
    }
  }

  /** The events of a kind that take its records from before to after, one for each that differs, and
      no others. */
  ghost predicate Changes(changes: seq<Data>, kind: Kind, before: map<string, string>, after: map<string, string>,
      version: int)
  {
    && Fold(before, kind, changes) == after
    && (forall d | d in changes :: Needed(d, kind, before, after, version))
    && Once(changes)
  }

  lemma PutsThenDeletesAreOnce(puts: seq<string>, deletes: seq<string>, kind: Kind, before: map<string, string>,
      after: map<string, string>, version: int)
    requires Unique(puts) && Unique(deletes) && forall k | k in puts :: k in after
    ensures Once(PutsFor(puts, kind, before, after, version) + DeletesFor(deletes, kind, after, version))
  {
    PutsAreOnce(puts, kind, before, after, version);
    DeletesAreOnce(deletes, kind, after, version);
  }

  lemma PutsThenDeletes(puts: seq<string>, deletes: seq<string>, kind: Kind, before: map<string, string>,
      after: map<string, string>, version: int)
    requires (forall k :: k in puts <==> k in after) && (forall k :: k in deletes <==> k in before) && Unique(puts)
             && Unique(deletes)
    ensures Changes(PutsFor(puts, kind, before, after, version) + DeletesFor(deletes, kind, after, version), kind,
            before, after, version)
  {
    PutsThenDeletesFold(puts, deletes, kind, before, after, version);
    PutsAreNeeded(puts, kind, before, after, version);
    DeletesAreNeeded(deletes, kind, before, after, version);
    PutsThenDeletesAreOnce(puts, deletes, kind, before, after, version);
  }

  lemma PutsThenDeletesFold(puts: seq<string>, deletes: seq<string>, kind: Kind, before: map<string, string>,
      after: map<string, string>, version: int)
    requires (forall k :: k in puts <==> k in after) && (forall k :: k in deletes <==> k in before)
    ensures Fold(before, kind,
            PutsFor(puts, kind, before, after, version) + DeletesFor(deletes, kind, after, version)) == after
  {
    var p, d := PutsFor(puts, kind, before, after, version), DeletesFor(deletes, kind, after, version);
    var mid := Fold(before, kind, p);
    FoldJoins(before, kind, p, d);
    var now := Fold(mid, kind, d);
    forall k ensures (k in now <==> k in after) && (k in now ==> now[k] == after[k]) {
      PutsThenDeletesAt(puts, deletes, kind, before, after, version, k);
    }
  }

  lemma PutsThenDeletesAt(puts: seq<string>, deletes: seq<string>, kind: Kind, before: map<string, string>,
      after: map<string, string>, version: int, k: string)
    requires (forall x :: x in puts <==> x in after) && (forall x :: x in deletes <==> x in before)
    ensures var now := Fold(Fold(before, kind, PutsFor(puts, kind, before, after, version)), kind,
            DeletesFor(deletes, kind, after, version));
            (k in now <==> k in after) && (k in now ==> now[k] == after[k])
  {
    PutsFold(puts, kind, before, after, version, k);
    DeletesFold(deletes, kind, Fold(before, kind, PutsFor(puts, kind, before, after, version)), after, version, k);
  }

  /** The keys of a map, in some order. */
  method KeysOf(records: map<string, string>) returns (keys: seq<string>)
    ensures Unique(keys) && forall k :: k in keys <==> k in records
  {
    keys := [];
    var left := records.Keys;
    while left != {}
      invariant Unique(keys) && left <= records.Keys && forall k :: k in keys <==> k in records && k !in left
      decreases |left|
    {
      var k :| k in left;
      keys := keys + [k];
      left := left - {k};
    }
  }

  /** One event per record of a kind that differs: those put, then those deleted. */
  method ChangesOf(kind: Kind, before: map<string, string>, after: map<string, string>, version: int)
      returns (changes: seq<Data>)
    ensures Changes(changes, kind, before, after, version)
  {
    var keys := KeysOf(after);
    var gone := KeysOf(before);
    var puts := Puts(keys, kind, before, after, version);
    var deletes := Deletes(gone, kind, after, version);
    PutsThenDeletes(keys, gone, kind, before, after, version);
    changes := puts + deletes;
  }

  method Puts(keys: seq<string>, kind: Kind, before: map<string, string>, after: map<string, string>, version: int)
      returns (changes: seq<Data>)
    requires forall k | k in keys :: k in after
    ensures changes == PutsFor(keys, kind, before, after, version)
  {
    changes := [];
    for i := 0 to |keys|
      invariant changes == PutsFor(keys[..i], kind, before, after, version)
    {
      assert keys[..i + 1][..i] == keys[..i];
      var k := keys[i];
      if k !in before || before[k] != after[k] {
        changes := changes + [Put(version, kind, k, after[k])];
      }
    }
    assert keys[..|keys|] == keys;
  }

  method Deletes(keys: seq<string>, kind: Kind, after: map<string, string>, version: int) returns (changes: seq<Data>)
    ensures changes == DeletesFor(keys, kind, after, version)
  {
    changes := [];
    for i := 0 to |keys|
      invariant changes == DeletesFor(keys[..i], kind, after, version)
    {
      assert keys[..i + 1][..i] == keys[..i];
      if keys[i] !in after {
        changes := changes + [Delete(version, kind, keys[i])];
      }
    }
    assert keys[..|keys|] == keys;
  }

  /** Events that take a client from one directory to another: every kind's records, then the version. */
  ghost predicate Tells(changes: seq<Data>, before: Snapshot, after: Snapshot) {
    && changes != [] && changes[|changes| - 1] == Version(after.version)
    && (forall kind :: Fold(RecordsOf(before, kind), kind, changes) == RecordsOf(after, kind))
    && (forall d | d in changes :: !d.Other? && d.version == after.version)
  }

  lemma ThreeKindsTell(c: seq<Data>, t: seq<Data>, p: seq<Data>, before: Snapshot, after: Snapshot)
    requires Changes(c, ClusterRecord, before.clusters, after.clusters, after.version)
    requires Changes(t, TenantRecord, before.tenants, after.tenants, after.version)
    requires Changes(p, PlacementRecord, before.placements, after.placements, after.version)
    ensures Tells(c + t + p + [Version(after.version)], before, after)
  {
    forall kind ensures Fold(RecordsOf(before, kind), kind, c + t + p + [Version(after.version)]) ==
      RecordsOf(after, kind) {
      var m := RecordsOf(before, kind);
      FoldJoins(m, kind, c + t + p, [Version(after.version)]);
      FoldJoins(m, kind, c + t, p);
      FoldJoins(m, kind, c, t);
      FoldIgnores(RecordsOf(after, kind), kind, [Version(after.version)]);
      match kind
      case ClusterRecord =>
        FoldIgnores(after.clusters, kind, t);
        FoldIgnores(after.clusters, kind, p);
      case TenantRecord =>
        FoldIgnores(m, kind, c);
        FoldIgnores(after.tenants, kind, p);
      case PlacementRecord =>
        FoldIgnores(m, kind, c);
        FoldIgnores(m, kind, t);
    }
  }

  class Broker {
    const epoch: string
    const ring: array<Event>
    var seqNo: nat
    var subs: map<nat, Sub>       // open streams
    var dropped: map<nat, Sub>    // closed ones, with what they may still take
    var nextSub: nat
    var prev: Option<Snapshot>
    ghost var log: seq<Event>

    ghost predicate RingHolds()
      reads this, ring
    {
      ring.Length > 0 && seqNo == |log| && Numbered(log) && Retained(ring[..], log)
    }

    ghost predicate Valid()
      reads this, ring
    {
      RingHolds() && AllFollow(subs, dropped, nextSub, log)
    }

    constructor (size: int, epoch: string)
      ensures Valid() && fresh(ring) && log == [] && subs == map[] && prev.None? && ring.Length == if size <= 0 then
              RING else size
    {
      this.epoch := epoch;
      ring := new Event[if size <= 0 then RING else size](_ => Event(0, Other("")));
      seqNo, subs, dropped, nextSub, prev, log := 0, map[], map[], 0, None, [];
    }
  
    /** Hand an event to every stream, dropping those a whole buffer behind. */
    method Serve(ev: Event)
      requires subs.Keys !! dropped.Keys
      modifies this`subs, this`dropped
      ensures Served(old(subs), old(dropped), ev, subs, dropped, {})
    {
      var left := subs.Keys;
      while left != {}
        invariant Served(old(subs), old(dropped), ev, subs, dropped, left)
        decreases |left|
      {
        var id :| id in left;
        var sub := subs[id];
        if |sub.queue| < BUFFER {
          subs := subs[id := sub.(queue := sub.queue + [ev])];
        } else {
          subs, dropped := subs - {id}, dropped[id := sub];
        }
        left := left - {id};
      }
    }

    /** Put an event in the place of the oldest. */
    method Append(ev: Event)
      requires RingHolds() && ev.id == |log| + 1
      modifies this`seqNo, this`log, ring
      ensures RingHolds() && log == old(log) + [ev]
    {
      ghost var was, slots := log, ring[..];
      seqNo := seqNo + 1;
      ring[seqNo % ring.Length] := ev;
      log := log + [ev];
      RetainsOneMore(slots, was, ev);
      assert ring[..] == slots[seqNo % ring.Length := ev];
    }

    /** Publish: append to the log, and to the ring, and hand the event to every stream. */
    method Publish(data: Data)
      requires Valid()
      modifies this`seqNo, this`subs, this`dropped, this`log, ring
      ensures Valid() && log == old(log) + [Event(|old(log)| + 1, data)]
      ensures Served(old(subs), old(dropped), Event(|old(log)| + 1, data), subs, dropped, {})
    {
      var ev := Event(seqNo + 1, data);
      ghost var was, subs0, dropped0 := log, subs, dropped;
      Append(ev);
      Serve(ev);
      ServedFollow(was, ev, subs0, dropped0, subs, dropped, nextSub);
    }

    /** The next event a stream takes; none when it has nothing waiting. */
    method Take(id: nat) returns (ev: Option<Event>)
      requires Valid() && (id in subs || id in dropped)
      modifies this`subs, this`dropped
      ensures Valid()
      ensures var sub := if id in old(subs) then old(subs)[id] else old(dropped)[id];
              var next := if sub.queue == [] then sub else sub.(taken := sub.taken + 1, queue := sub.queue[1..]);
              && (ev.None? <==> sub.queue == [])
              && (ev.Some? ==> sub.start + sub.taken < |log| && ev.value == log[sub.start + sub.taken])
              && subs == (if id in old(subs) then old(subs)[id := next] else old(subs))
              && dropped == (if id in old(subs) then old(dropped) else old(dropped)[id := next])
    {
      var sub := if id in subs then subs[id] else dropped[id];
      if sub.queue == [] {
        assert id in subs ==> subs[id := sub] == subs;
        assert id !in subs ==> dropped[id := sub] == dropped;
        return None;
      }
      ev := Some(sub.queue[0]);
      var next := sub.(taken := sub.taken + 1, queue := sub.queue[1..]);
      if id in subs {
        assert next.queue == log[next.start + next.taken..|log|];
        subs := subs[id := next];
      } else {
        ghost var end: nat :| Follows(sub, log, end);
        assert next.queue == log[next.start + next.taken..end];
        assert Follows(next, log, end);
        dropped := dropped[id := next];
      }
    }

    /** Subscribe. A stream that names an event the ring still covers is replayed the log after it; one
        that names another must reload. */
    method Subscribe(lastId: LastId) returns (replay: seq<Event>, reset: bool, id: Option<nat>)
      requires Valid()
      modifies this`subs, this`nextSub
      ensures Valid() && (id.None? <==> |old(subs)| >= STREAMS)
      ensures id.None? ==> subs == old(subs) && replay == [] && !reset
      ensures id.Some? ==>
                id.value !in old(subs) && id.value !in dropped && subs == old(subs)[id.value := Sub(|log|, 0, [])]
      ensures id.Some? ==>
                (reset <==>
                  !lastId.NoId? && !(lastId.Id? && lastId.epoch == epoch
                    && |log| - ring.Length <= lastId.last <= |log|))
      ensures id.Some? ==> replay == if lastId.Id? && !reset then log[lastId.last..] else []
    {
      replay, reset := [], false;
      if |subs| >= STREAMS {
        return replay, reset, None;
      }
      id := Some(nextSub);
      subs, nextSub := subs[nextSub := Sub(seqNo, 0, [])], nextSub + 1;
      if lastId.NoId? {
        return;
      }
      var oldest := if seqNo > ring.Length then seqNo - ring.Length + 1 else 1;
      if lastId.Malformed? || lastId.epoch != epoch || lastId.last > seqNo || lastId.last + 1 < oldest {
        reset := true;
        return;
      }
      var i := lastId.last + 1;
      while i <= seqNo
        invariant lastId.last + 1 <= i <= seqNo + 1
        invariant replay == log[lastId.last..i - 1]
      {
        assert log[lastId.last..i] == log[lastId.last..i - 1] + [log[i - 1]];
        assert InSlot(ring[..], log, i - 1);
        replay := replay + [ring[i % ring.Length]];
        i := i + 1;
      }
      assert log[lastId.last..|log|] == log[lastId.last..];
    }

    /** A client closes its stream. */
    method Cancel(id: nat)
      requires Valid()
      modifies this`subs, this`dropped
      ensures Valid() && subs == old(subs) - {id}
      ensures dropped == if id in old(subs) then old(dropped)[id := old(subs)[id]] else old(dropped)
    {
      if id in subs {
        assert Follows(subs[id], log, |log|);
        subs, dropped := subs - {id}, dropped[id := subs[id]];
      }
    }
  
    /** Operations and the fleet publish between any two of the directory's events. */
    method OthersPublish()
      requires Valid()
      modifies this`seqNo, this`subs, this`dropped, this`log, ring
      ensures Valid() && old(log) <= log && forall i | |old(log)| <= i < |log| :: log[i].data.Other?
    {
    }

    /** Publish the directory's events in turn. */
    method PublishAll(changes: seq<Data>)
      requires Valid() && forall d | d in changes :: !d.Other?
      modifies this`seqNo, this`subs, this`dropped, this`log, ring
      ensures Valid() && old(log) <= log && Directed(log[|old(log)|..]) == changes
    {
      ghost var n := |log|;
      assert log[n..] == [];
      for i := 0 to |changes|
        invariant Valid() && n <= |log| && old(log) <= log && Directed(log[n..]) == changes[..i]
      {
        ghost var was := log;
        OthersPublish();
        DirectedMore(was, log, n);
        was := log;
        Publish(changes[i]);
        DirectedOne(was, log[|log| - 1], n);
        assert changes[..i + 1] == changes[..i] + [changes[i]];
      }
      assert changes[..|changes|] == changes;
    }

    /** The directory's hook: what it published tells a client of the previous directory the new one.
        The first snapshot, and a version already seen, publish nothing. */
    method Directory(snap: Snapshot)
      requires Valid()
      modifies this, ring
      ensures Valid() && old(log) <= log
      ensures var stale := old(prev).Some? && snap.version <= old(prev).value.version;
              && prev == (if stale then old(prev) else Some(snap))
              && (stale || old(prev).None? ==> log == old(log))
              && (!stale && old(prev).Some? ==> Tells(Directed(log[|old(log)|..]), old(prev).value, snap))
    {
      var before := prev;
      if before.Some? && snap.version <= before.value.version {
        return;
      }
      prev := Some(snap);
      if before.None? {
        return;
      }
      var c := ChangesOf(ClusterRecord, before.value.clusters, snap.clusters, snap.version);
      var t := ChangesOf(TenantRecord, before.value.tenants, snap.tenants, snap.version);
      var p := ChangesOf(PlacementRecord, before.value.placements, snap.placements, snap.version);
      ThreeKindsTell(c, t, p, before.value, snap);
      PublishAll(c + t + p + [Version(snap.version)]);
    }
  }

  lemma DirectedMore(log: seq<Event>, more: seq<Event>, n: nat)
    requires n <= |log| && log <= more && forall i | |log| <= i < |more| :: more[i].data.Other?
    ensures Directed(more[n..]) == Directed(log[n..])
  {
    assert more[n..] == log[n..] + more[|log|..];
    DirectedJoins(log[n..], more[|log|..]);
    OthersAreNotDirected(more[|log|..]);
  }

  lemma DirectedOne(log: seq<Event>, ev: Event, n: nat)
    requires n <= |log| && !ev.data.Other?
    ensures Directed((log + [ev])[n..]) == Directed(log[n..]) + [ev.data]
  {
    assert (log + [ev])[n..] == log[n..] + [ev];
    assert (log[n..] + [ev])[..|log[n..]|] == log[n..];
  }

  /** What a client gets: its replay, then what it takes from its stream, are the log after the event it
      named, with no gap and no repeat. */
  lemma ReplayThenLive(log: seq<Event>, more: seq<Event>, last: nat, sub: Sub, end: nat)
    requires last <= |log| && log <= more && sub.start == |log| && Follows(sub, more, end)
    ensures log[last..] + more[sub.start..sub.start + sub.taken] + sub.queue == more[last..end]
  {
    assert more[last..end] == more[last..|log|] + more[|log|..end];
    assert more[last..|log|] == log[last..];
    assert more[|log|..end] == more[|log|..sub.start + sub.taken] + more[sub.start + sub.taken..end];
  }
}
