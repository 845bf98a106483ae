/** Scope reservation and the lab's store of operation records (internal/control/scope.go): at most one
unfinished operation owns a scope, an idempotency key names one record, and history is trimmed from
the oldest record whose end is known. */
module Scopes {
  import opened Basics

  datatype Resource = Placement(key: string) | Cluster(name: string) | Members

  /** What an operation reserves. A placement's also names the clusters it touches. */
  datatype Scope = Scope(resource: Resource, generation: int, clusters: seq<string>)

  /** An idempotency key, bound to the directory epoch and the actor that used it. */
  datatype Key = Key(epoch: string, actor: string, request: string)

  datatype Op = Op(id: string, scope: Option<Scope>, terminal: bool, uncertain: bool, key: Option<Key>, digest: string,
                   identity: Option<string>, sequence: int, updated: int)

  const RETENTION: int := 7 * 24 * 3600

  predicate Touches(sc: Scope, cluster: string) {
    !sc.resource.Cluster? && cluster in sc.clusters
  }

  /** Two scopes that no two unfinished operations may own at once. */
  predicate Clash(a: Scope, b: Scope) {
    || a.resource == b.resource
    || (a.resource.Cluster? && Touches(b, a.resource.name))
    || (b.resource.Cluster? && Touches(a, b.resource.name))
  }

  lemma ClashIsSymmetric(a: Scope, b: Scope)
    ensures Clash(a, b) == Clash(b, a)
  {
  }

  /** The refusal of a scope an unfinished operation is in the way of. */
  datatype Busy = Busy(resource: Resource, owner: string, held: Option<Resource>)

  /** What one record refuses of scope sc. */
  function InTheWay(sc: Scope, o: Op): Option<Busy> {
    if o.scope.None? || o.terminal then None
    else
      var os := o.scope.value;
      if os.resource == sc.resource then Some(Busy(sc.resource, o.id, None))
      else if sc.resource.Cluster? then
        if Touches(os, sc.resource.name) then Some(Busy(sc.resource, o.id, Some(os.resource))) else None
      else if os.resource.Cluster? && os.resource.name in sc.clusters then
        Some(Busy(sc.resource, o.id, Some(os.resource)))
      else None
  }

  /** conflict: the first of these records in the way. */
  function Conflict(sc: Scope, live: seq<Op>): (r: Option<Busy>)
    ensures r.None? <==> forall o | o in live && o.scope.Some? && !o.terminal :: !Clash(sc, o.scope.value)
    ensures r.Some? ==>
              exists o | o in live :: o.scope.Some? && !o.terminal && Clash(sc, o.scope.value) && r.value.owner == o.id
  {
    if live == [] then None
    else
      assert live == [live[0]] + live[1..];
      var first := InTheWay(sc, live[0]);
      if first.Some? then first else Conflict(sc, live[1..])
  }

  /** Whether the history limit may drop a record: an ended operation whose effect is known and whose
      idempotency key has run out. */
  predicate Prunable(o: Op, now: int) {
    o.terminal && !o.uncertain && (o.key.None? || now - o.updated >= RETENTION)
  }

  // ---------------------------------------------------------------------------------------------
  // Trimming.

  /** Without the first n records that may be dropped. */
  function DropFirst(order: seq<string>, byId: map<string, Op>, now: int, n: nat): seq<string>
    requires forall id | id in order :: id in byId
  {
    if order == [] || n == 0 then order
    else if Prunable(byId[order[0]], now) then DropFirst(order[1..], byId, now, n - 1)
    else [order[0]] + DropFirst(order[1..], byId, now, n)
  }

  function Excess(order: seq<string>, limit: nat): nat {
    if |order| > limit then |order| - limit else 0
  }

  ghost predicate Unique(order: seq<string>) {
    forall i, j | 0 <= i < j < |order| :: order[i] != order[j]
  }

  /** `part` is `whole` with some left out. */
  ghost predicate Within(part: seq<string>, whole: seq<string>) {
    if part == [] then true
    else if whole == [] then false
    else if part[0] == whole[0] then Within(part[1..], whole[1..])
    else Within(part, whole[1..])
  }

  lemma {:induction false} AllWithin(s: seq<string>)
    ensures Within(s, s)
  {
    if s != [] {
      AllWithin(s[1..]);
    }
  }

  /** What is kept is kept in order, and is all that may not be dropped; what is dropped may be. */
  lemma {:induction false} TrimKeeps(order: seq<string>, byId: map<string, Op>, now: int, n: nat)
    requires Unique(order) && forall id | id in order :: id in byId
    ensures var kept := DropFirst(order, byId, now, n);
            && Unique(kept)
            && Within(kept, order)
            && (forall id | id in kept :: id in order)
            && (forall id | id in order && id !in kept :: Prunable(byId[id], now))
  {
    if order == [] || n == 0 {
      AllWithin(order);
    } else {
      assert order == [order[0]] + order[1..];
      TrimKeeps(order[1..], byId, now, if Prunable(byId[order[0]], now) then n - 1 else n);
      if !Prunable(byId[order[0]], now) {
        assert DropFirst(order, byId, now, n)[1..] == DropFirst(order[1..], byId, now, n);
      } else {
        var kept := DropFirst(order, byId, now, n);
        assert kept != [] ==> kept[0] in order[1..] && kept[0] != order[0];
      }
    }
  }

  ghost predicate NonePrunable(order: seq<string>, byId: map<string, Op>, now: int)
    requires forall id | id in order :: id in byId
  {
    forall id | id in order :: !Prunable(byId[id], now)
  }

  /** As many are dropped as asked, or all that may be. */
  lemma {:induction false} TrimIsEnough(order: seq<string>, byId: map<string, Op>, now: int, n: nat)
    requires Unique(order) && (forall id | id in order :: id in byId) && n <= |order|
    ensures var kept := DropFirst(order, byId, now, n);
            (forall id | id in kept :: id in byId)
            && |order| - n <= |kept| <= |order|
            && (|kept| == |order| - n || NonePrunable(kept, byId, now))
  {
    if order != [] && n > 0 {
      assert order == [order[0]] + order[1..];
      if Prunable(byId[order[0]], now) {
        TrimIsEnough(order[1..], byId, now, n - 1);
      } else if n <= |order| - 1 {
        TrimIsEnough(order[1..], byId, now, n);
      } else {
        DropMore(order[1..], byId, now, n);
        TrimIsEnough(order[1..], byId, now, n - 1);
      }
    }
  }

  /** Asking for more than there are records drops no more. */
  lemma {:induction false} DropMore(order: seq<string>, byId: map<string, Op>, now: int, n: nat)
    requires (forall id | id in order :: id in byId) && n > |order|
    ensures DropFirst(order, byId, now, n) == DropFirst(order, byId, now, n - 1)
    ensures forall id | id in DropFirst(order, byId, now, n) :: id in order && !Prunable(byId[id], now)
  {
    if order != [] {
      if Prunable(byId[order[0]], now) {
        DropMore(order[1..], byId, now, n - 1);
      } else {
        DropMore(order[1..], byId, now, n);
      }
    }
  }

  /** The oldest go first: of two records that may be dropped, the newer is kept whenever the older is. */
  lemma {:induction false} TrimDropsTheOldest(order: seq<string>, byId: map<string, Op>, now: int, n: nat, i: nat,
      j: nat)
    requires Unique(order) && forall id | id in order :: id in byId
    requires i < j < |order| && Prunable(byId[order[i]], now) && Prunable(byId[order[j]], now)
    requires order[i] in DropFirst(order, byId, now, n)
    ensures order[j] in DropFirst(order, byId, now, n)
  {
    if n > 0 {
      var rest := order[1..];
      assert order == [order[0]] + rest;
      var m := if Prunable(byId[order[0]], now) then n - 1 else n;
      if i == 0 {
        TrimKeeps(rest, byId, now, n - 1);
      } else {
        assert order[i] == rest[i - 1] && order[j] == rest[j - 1];
        TrimDropsTheOldest(rest, byId, now, m, i - 1, j - 1);
      }
    }
  }

  // ---------------------------------------------------------------------------------------------
  // The store.

  /** The directory as a create checks it: its identity, and each resource's generation. */
  datatype Directory = Directory(identity: string, generations: map<Resource, int>)

  function GenerationOf(dir: Directory, r: Resource): int {
    if r in dir.generations then dir.generations[r] else 0
  }

  datatype Outcome =
    | Created
    | Exists                              // the id is taken
    | Replayed(existing: Op)              // the same request, accepted before
    | KeyReused(owner: string)            // the key, used for another request
    | Full(limit: nat)
    | OtherLineage
    | Moved(expected: int, current: int)  // the resource's generation is another
    | Refused(busy: Busy)

  function Replay(op: Op, existing: Op): Outcome {
    if existing.digest != op.digest then KeyReused(existing.id) else Replayed(existing)
  }

  function CheckScope(dir: Option<Directory>, op: Op, sc: Scope): Option<Outcome> {
    if dir.None? then None
    else if op.identity.Some? && op.identity.value != dir.value.identity then Some(OtherLineage)
    else
      var current := GenerationOf(dir.value, sc.resource);
      if current != sc.generation then Some(Moved(sc.generation, current)) else None
  }

  /** What an update keeps of its record: every writer builds on the record it read, and an end is
      permanent. */
  predicate Continues(was: Op, op: Op) {
    op.id == was.id && op.scope == was.scope && op.key == was.key && (was.terminal ==> op.terminal)
  }

  /** No two unfinished operations own scopes that clash. */
  ghost predicate Apart(byId: map<string, Op>) {
    forall a, b | a in byId && b in byId && a != b && Unfinished(byId[a]) && Unfinished(byId[b]) ::
      !Clash(byId[a].scope.value, byId[b].scope.value)
  }

  predicate Unfinished(o: Op) {
    o.scope.Some? && !o.terminal
  }

  /** Each key of the index names the one record kept that used it. */
  ghost predicate IndexIsExact(byId: map<string, Op>, idem: map<Key, string>) {
    && (forall k | k in idem :: idem[k] in byId && byId[idem[k]].key == Some(k))
    && (forall id | id in byId && byId[id].key.Some? :: byId[id].key.value in idem && idem[byId[id].key.value] == id)
  }

  ghost predicate Ordered(order: seq<string>, byId: map<string, Op>) {
    && Unique(order)
    && (forall id :: id in order <==> id in byId)
    && (forall id | id in byId :: byId[id].id == id)
  }

  /** The records named by order. */
  function Only(order: seq<string>, byId: map<string, Op>): map<string, Op> {
    map id | id in byId && id in order :: byId[id]
  }

  /** Neither the id nor the idempotency key was used by a record kept. */
  predicate IsNew(op: Op, byId: map<string, Op>, idem: map<Key, string>) {
    op.id !in byId && (op.key.Some? ==> op.key.value !in idem)
  }

  predicate AtCapacity(byId: map<string, Op>, capacity: nat) {
    |set id | id in byId && !byId[id].terminal| >= capacity
  }

  class MemOperations {
    const limit: int
    const capacity: int
    var order: seq<string>
    var byId: map<string, Op>
    var idem: map<Key, string>

    ghost predicate Valid()
      reads this
    {
      Ordered(order, byId) && IndexIsExact(byId, idem) && Apart(byId)
    }

    constructor (limit: int, capacity: int)
      ensures Valid() && order == [] && this.limit == limit && this.capacity == capacity
    {
      this.limit, this.capacity := limit, capacity;
      order, byId, idem := [], map[], map[];
    }

    function Limit(): nat {
      if limit <= 0 then 1000 else limit
    }

    function Capacity(): nat {
      if capacity <= 0 then 256 else capacity
    }

    /** Drop the oldest records that may be dropped, down to the limit. */
    method Trim(now: int)
      requires Ordered(order, byId)
      modifies this
      ensures Ordered(order, byId) && (old(IndexIsExact(byId, idem)) ==> IndexIsExact(byId, idem))
      ensures order == DropFirst(old(order), old(byId), now, Excess(old(order), Limit()))
      ensures byId == Only(order, old(byId))
      ensures |order| <= Limit() || NonePrunable(order, byId, now)
    {
      ghost var order0, byId0, exact := order, byId, IndexIsExact(byId, idem);
      TrimStarts(order, byId, now, Limit());
      var i := 0;
      while |order| > Limit() && i < |order|
        invariant Trimming(order, byId, i, order0, byId0, now, Limit()) && (exact ==> IndexIsExact(byId, idem))
        decreases |order| - i
      {
        var op := byId[order[i]];
        if Prunable(op, now) {
          TrimDropsOne(order, byId, i, order0, byId0, now, Limit());
          if exact {
            DroppingKeepsIndex(order, byId, idem, i);
          }
          Drop(i);
        } else {
          TrimSkipsOne(order, byId, i, order0, byId0, now, Limit());
          i := i + 1;
        }
      }
      TrimEnds(order, byId, i, order0, byId0, now, Limit());
    }

    /** Drop one record, with its key. */
    method Drop(i: nat)
      requires i < |order| && order[i] in byId
      modifies this
      ensures var op := old(byId)[old(order)[i]]; idem == if op.key.Some? then old(idem) - {op.key.value} else old(idem)
      ensures byId == old(byId) - {old(order)[i]} && order == old(order)[..i] + old(order)[i + 1..]
    {
      var op := byId[order[i]];
      if op.key.Some? {
        idem := idem - {op.key.value};
      }
      byId := byId - {order[i]};
      order := order[..i] + order[i + 1..];
    }

    /** The unfinished operations. */
    method Count() returns (n: nat)
      ensures n == |set id | id in byId && !byId[id].terminal|
    {
      n := 0;
      var rest := byId.Keys;
      ghost var all := set id | id in byId && !byId[id].terminal;
      while rest != {}
        invariant rest <= byId.Keys && n + |set id | id in rest && !byId[id].terminal| == |all|
        decreases |rest|
      {
        var id :| id in rest;
        ghost var before := set x | x in rest && !byId[x].terminal;
        ghost var after := set x | x in rest - {id} && !byId[x].terminal;
        if !byId[id].terminal {
          assert before == after + {id};
          n := n + 1;
        } else {
          assert before == after;
        }
        rest := rest - {id};
      }
    }

    /** The records, in any order. */
    method Records() returns (live: seq<Op>)
      requires Valid()
      ensures forall o :: o in live <==> o.id in byId && byId[o.id] == o
    {
      live := [];
      var rest := byId.Keys;
      while rest != {}
        invariant rest <= byId.Keys
        invariant forall o :: o in live <==> o.id in byId && o.id !in rest && byId[o.id] == o
        decreases |rest|
      {
        var id :| id in rest;
        live := live + [byId[id]];
        rest := rest - {id};
      }
    }

    /** Create a record and, for a scoped operation, its reservation, in one step under the lock. */
    method Create(op: Op, dir: Option<Directory>, now: int) returns (r: Outcome)
      requires Valid()
      modifies this
      ensures Valid()
      ensures !r.Created? ==> order == old(order) && byId == old(byId) && idem == old(idem)
      ensures r.Exists? <==> op.id in old(byId)
      ensures op.id !in old(byId) && op.key.Some? && op.key.value in old(idem) ==>
                r == Replay(op, old(byId[idem[op.key.value]]))
      ensures r.Replayed? || r.KeyReused? ==> op.key.Some? && op.key.value in old(idem)
      ensures r.Created? ==>
                && op.id !in old(byId) && (op.key.Some? ==> op.key.value !in old(idem))
                && (op.scope.Some? ==>
                      && !AtCapacity(old(byId), Capacity())
                      && CheckScope(dir, op, op.scope.value).None?
                      && (forall id | id in old(byId) && Unfinished(old(byId)[id]) ::
                           !Clash(op.scope.value, old(byId)[id].scope.value)))
                && order == DropFirst(old(order) + [op.id], old(byId)[op.id := op], now,
                   Excess(old(order) + [op.id], Limit()))
                && byId == Only(order, old(byId)[op.id := op])
      ensures r.Full? <==> IsNew(op, old(byId), old(idem)) && op.scope.Some? && AtCapacity(old(byId), Capacity())
      ensures r.Full? ==> r.limit == Capacity()
      ensures r.OtherLineage? || r.Moved? ==> op.scope.Some? && CheckScope(dir, op, op.scope.value) == Some(r)
      ensures IsNew(op, old(byId), old(idem)) && op.scope.Some? && !AtCapacity(old(byId), Capacity()) ==>
                (CheckScope(dir, op, op.scope.value).Some? ==> r == CheckScope(dir, op, op.scope.value).value)
      ensures r.Refused? ==>
                && op.scope.Some? && r.busy.owner in old(byId) && Unfinished(old(byId)[r.busy.owner])
                && Clash(op.scope.value, old(byId)[r.busy.owner].scope.value)
                && CheckScope(dir, op, op.scope.value).None?
    {
      if op.id in byId {
        return Exists;
      }
      if op.key.Some? && op.key.value in idem {
        return Replay(op, byId[idem[op.key.value]]);
      }
      if op.scope.Some? {
        var n := Count();
        if n >= Capacity() {
          return Full(Capacity());
        }
        var checked := CheckScope(dir, op, op.scope.value);
        if checked.Some? {
          return checked.value;
        }
        var live := Records();
        var busy := Conflict(op.scope.value, live);
        if busy.Some? {
          return Refused(busy.value);
        }
        assert forall id | id in byId && Unfinished(byId[id]) :: byId[id] in live;
      }
      Adding(order, byId, idem, op);
      order := order + [op.id];
      byId := byId[op.id := op];
      idem := if op.key.Some? then idem[op.key.value := op.id] else idem;
      ghost var all := byId;
      Trim(now);
      KeptAreApart(all, order);
      return Created;
    }

    /** Replace the record at the sequence before op's. A terminal status frees its scope. */
    method Update(op: Op, now: int) returns (r: Updated)
      requires Valid()
      modifies this
      ensures Ordered(order, byId)
      ensures r == Unknown <==> op.id !in old(byId)
      ensures r == Stale <==> op.id in old(byId) && old(byId)[op.id].sequence != op.sequence - 1
      ensures (r == Done ==> Continues(old(byId)[op.id], op)) ==> Valid()
      ensures r != Done ==> order == old(order) && byId == old(byId) && idem == old(idem)
      ensures r == Done ==>
                && order == DropFirst(old(order), old(byId)[op.id := op], now, Excess(old(order), Limit()))
                && byId == Only(order, old(byId)[op.id := op])
    {
      if op.id !in byId {
        return Unknown;
      }
      if byId[op.id].sequence != op.sequence - 1 {
        return Stale;
      }
      ContinuingKeeps(order, byId, idem, op);
      byId := byId[op.id := op];
      ghost var all := byId;
      Trim(now);
      if Apart(all) {
        KeptAreApart(all, order);
      }
      return Done;
    }
  }

  /** The trim's loop: what is left to do is what is left of the whole. */
  ghost predicate Trimming(order: seq<string>, byId: map<string, Op>, i: int, order0: seq<string>,
      byId0: map<string, Op>, now: int, limit: nat)
  {
    && 0 <= i <= |order| && Ordered(order, byId) && Ordered(order0, byId0)
    && (forall id | id in byId :: id in byId0 && byId[id] == byId0[id])
    && DropFirst(order0, byId0, now, Excess(order0, limit)) ==
       order[..i] + DropFirst(order[i..], byId0, now, Excess(order, limit))
  }

  lemma TrimStarts(order: seq<string>, byId: map<string, Op>, now: int, limit: nat)
    requires Ordered(order, byId)
    ensures Trimming(order, byId, 0, order, byId, now, limit)
  {
    assert order[..0] + order[0..] == order;
  }

  lemma TrimDropsOne(order: seq<string>, byId: map<string, Op>, i: nat, order0: seq<string>, byId0: map<string, Op>,
      now: int, limit: nat)
    requires Trimming(order, byId, i, order0, byId0, now, limit) && i < |order| && |order| > limit
             && Prunable(byId[order[i]], now)
    ensures Trimming(order[..i] + order[i + 1..], byId - {order[i]}, i, order0, byId0, now, limit)
  {
    Dropping(order, byId, i);
    DropsTheNext(order, byId0, i, now, limit);
  }

  lemma DropsTheNext(order: seq<string>, byId: map<string, Op>, i: nat, now: int, limit: nat)
    requires i < |order| && |order| > limit && (forall id | id in order :: id in byId) && Prunable(byId[order[i]], now)
    ensures var order' := order[..i] + order[i + 1..];
            order[..i] + DropFirst(order[i..], byId, now, Excess(order, limit)) ==
            order'[..i] + DropFirst(order'[i..], byId, now, Excess(order', limit))
  {
    var order' := order[..i] + order[i + 1..];
    assert order'[..i] == order[..i] && order'[i..] == order[i + 1..] == order[i..][1..];
  }

  lemma TrimSkipsOne(order: seq<string>, byId: map<string, Op>, i: nat, order0: seq<string>, byId0: map<string, Op>,
      now: int, limit: nat)
    requires Trimming(order, byId, i, order0, byId0, now, limit) && i < |order| && |order| > limit
             && !Prunable(byId[order[i]], now)
    ensures Trimming(order, byId, i + 1, order0, byId0, now, limit)
  {
    assert order[..i + 1] == order[..i] + [order[i]] && order[i + 1..] == order[i..][1..];
  }

  lemma TrimEnds(order: seq<string>, byId: map<string, Op>, i: nat, order0: seq<string>, byId0: map<string, Op>,
      now: int, limit: nat)
    requires Trimming(order, byId, i, order0, byId0, now, limit) && (|order| <= limit || i == |order|)
    ensures order == DropFirst(order0, byId0, now, Excess(order0, limit)) && byId == Only(order, byId0)
    ensures |order| <= limit || NonePrunable(order, byId, now)
  {
    assert order[..i] + order[i..] == order;
    TrimIsEnough(order0, byId0, now, Excess(order0, limit));
  }

  datatype Updated = Done | Unknown | Stale

  lemma DroppingKeepsIndex(order: seq<string>, byId: map<string, Op>, idem: map<Key, string>, i: nat)
    requires Ordered(order, byId) && IndexIsExact(byId, idem) && i < |order|
    ensures var op := byId[order[i]];
            IndexIsExact(byId - {order[i]}, if op.key.Some? then idem - {op.key.value} else idem)
  {
  }

  lemma KeptAreApart(byId: map<string, Op>, order: seq<string>)
    requires Apart(byId)
    ensures Apart(Only(order, byId))
  {
  }

  lemma ContinuingKeeps(order: seq<string>, byId: map<string, Op>, idem: map<Key, string>, op: Op)
    requires Ordered(order, byId) && op.id in byId
    ensures Ordered(order, byId[op.id := op])
    ensures IndexIsExact(byId, idem) && Apart(byId) && Continues(byId[op.id], op) ==>
              IndexIsExact(byId[op.id := op], idem) && Apart(byId[op.id := op])
  {
  }

  lemma Dropping(order: seq<string>, byId: map<string, Op>, i: nat)
    requires Ordered(order, byId) && i < |order|
    ensures Ordered(order[..i] + order[i + 1..], byId - {order[i]})
  {
    var order' := order[..i] + order[i + 1..];
    forall id ensures id in order' <==> id in byId - {order[i]} {
      if id in order {
        var j :| 0 <= j < |order| && order[j] == id;
        if j < i {
          assert order'[j] == id;
        } else if j > i {
          assert order'[j - 1] == id;
        }
      }
    }
  }

  lemma Adding(order: seq<string>, byId: map<string, Op>, idem: map<Key, string>, op: Op)
    requires Ordered(order, byId) && IndexIsExact(byId, idem) && Apart(byId) && op.id !in byId
    requires op.key.Some? ==> op.key.value !in idem
    requires op.scope.Some? ==>
               forall id | id in byId && Unfinished(byId[id]) :: !Clash(op.scope.value, byId[id].scope.value)
    ensures var byId' := byId[op.id := op];
            && Ordered(order + [op.id], byId')
            && IndexIsExact(byId', if op.key.Some? then idem[op.key.value := op.id] else idem)
            && Apart(byId')
  {
  }
}
