/** The etcd store's reservations (internal/cp/ops.go) against the locked store's (`Scopes`). A create
reads, then writes in one transaction guarded by what it compares: its idempotency key is free, and so
is its scope's key; for a placement, so are the keys of the clusters it touches; for a cluster, no
placement was reserved since it read the placements reserved (`scopeRev`). Reads, transactions, ends,
releases, reaps and trims of any number of creates interleave in any way. A trim deletes a record and
then, in the same transaction or a later one, its idempotency key, whoever the key names by then. */
module Reservation {
  import opened Basics
  import opened Scopes

  /** A reservation key: the operation it names, and the revision it was made at. */
  datatype Held = Held(id: string, created: nat)

  datatype Store = Store(rev: nat, keys: map<Resource, Held>, scopeRev: nat, recs: map<string, Op>,
      idem: map<Key, string>)

  /** A create in flight. */
  datatype Create =
    | Preparing(op: Op)
    | Listed(op: Op, at: nat, todo: set<string>)          // a cluster's: the placements' owners read at a revision
    | Blocked(op: Op, resource: Resource, owner: string)  // its transaction failed, and read back who holds a key
    | Finished(op: Op, refused: Option<string>)           // answered: created or unknown, or refused for an owner

  /** A record that a trim deleted, and its key. */
  datatype Dropped = Dropped(id: string, key: Key)

  datatype State = State(store: Store, creates: seq<Create>, used: set<string>, ended: set<string>,
      dropped: set<Dropped>)

  datatype Step =
    | Begin(op: Op)
    | List(k: nat)
    | Inspect(k: nat, id: string)
    | Commit(k: nat, others: bool)   // others: the compares of the identity and the generation hold
    | Judge(k: nat)                  // a blocked create reads the owner
    | Update(op: Op)
    | Release(resource: Resource, id: string)
    | Trim(id: string)
    | TrimKey(d: Dropped)            // of a trim, on any node, that had the record in its index
    | Abandon(k: nat)

  /** Only a placement's scope names clusters. */
  predicate WellScoped(op: Op) {
    op.scope.Some? && op.scope.value.clusters != [] ==> op.scope.value.resource.Placement?
  }

  predicate IsEnded(store: Store, id: string) {
    id !in store.recs || store.recs[id].terminal
  }

  /** What `reserve` asks of a placement's reservation, for a create on a cluster. */
  predicate InItsWay(store: Store, id: string, cluster: string) {
    && !IsEnded(store, id) && store.recs[id].scope.Some?
    && cluster in store.recs[id].scope.value.clusters
  }

  function PlacementOwners(store: Store): set<string> {
    set r | r in store.keys && r.Placement? :: store.keys[r].id
  }

  /** The keys a create compares to be free. */
  function Compared(sc: Scope): set<Resource> {
    if sc.resource.Cluster? then {sc.resource}
    else {sc.resource} + set c | c in sc.clusters :: Cluster(c)
  }

  /** The create's transaction goes through. */
  predicate Passes(store: Store, c: Create) {
    && (c.Preparing? || c.Listed?)
    && c.op.id !in store.recs
    && (c.op.key.Some? ==> c.op.key.value !in store.idem)
    && (c.op.scope.Some? ==>
          && Compared(c.op.scope.value) !! store.keys.Keys
          && (c.Listed? ==> store.scopeRev <= c.at))
  }

  /** A create has read all it must before its transaction. */
  predicate Prepared(c: Create) {
    if c.Listed? then c.todo == {} else c.Preparing? && (c.op.scope.Some? ==> !c.op.scope.value.resource.Cluster?)
  }

  function Written(store: Store, op: Op): Store {
    var rev := store.rev + 1;
    var idem := if op.key.Some? then store.idem[op.key.value := op.id] else store.idem;
    var with := store.(rev := rev, recs := store.recs[op.id := op], idem := idem);
    if op.scope.None? then with
    else
      var r := op.scope.value.resource;
      var keyed := with.(keys := store.keys[r := Held(op.id, rev)]);
      if r.Cluster? then keyed else keyed.(scopeRev := rev)
  }

  function Updated(store: Store, op: Op): Store {
    var next := store.(rev := store.rev + 1, recs := store.recs[op.id := op]);
    if op.terminal && op.scope.Some? then Freed(next, op.scope.value.resource, op.id) else next
  }

  /** Delete a key, and only that owner's. */
  function Freed(store: Store, r: Resource, id: string): Store {
    if r in store.keys && store.keys[r].id == id then store.(keys := store.keys - {r}) else store
  }

  predicate Enabled(s: State, step: Step) {
    match step
    case Begin(op) => op.id !in s.used && WellScoped(op)
    case List(k) =>
      k < |s.creates| && s.creates[k].Preparing? && s.creates[k].op.scope.Some?
        && s.creates[k].op.scope.value.resource.Cluster?
    case Inspect(k, id) => k < |s.creates| && s.creates[k].Listed? && id in s.creates[k].todo
    case Commit(k, _) => k < |s.creates| && Prepared(s.creates[k])
    case Judge(k) => k < |s.creates| && s.creates[k].Blocked?
    case Update(op) =>
      op.id in s.store.recs && s.store.recs[op.id].sequence == op.sequence - 1 && Continues(s.store.recs[op.id], op)
    case Release(_, id) => id in s.ended
    case Trim(id) => id in s.store.recs && s.store.recs[id].terminal
    case TrimKey(d) => d in s.dropped
    case Abandon(k) => k < |s.creates| && !s.creates[k].Finished?
  }

  /** The key names a record that is there: the create is answered with it. */
  predicate Replays(store: Store, op: Op) {
    op.key.Some? && op.key.value in store.idem && store.idem[op.key.value] in store.recs
  }

  /** Which of its compared keys a failed create finds held: its own, or the first of its clusters'. */
  function FirstHeld(sc: Scope, keys: map<Resource, Held>, others: bool): Option<Resource> {
    if sc.resource in keys then Some(sc.resource)
    else if !others || sc.resource.Cluster? then None
    else HeldCluster(sc.clusters, keys)
  }

  function HeldCluster(clusters: seq<string>, keys: map<Resource, Held>): (r: Option<Resource>)
    ensures r.Some? ==> r.value in keys && r.value.Cluster? && r.value.name in clusters
    ensures r.None? ==> forall c | c in clusters :: Cluster(c) !in keys
  {
    if clusters == [] then None
    else if Cluster(clusters[0]) in keys then Some(Cluster(clusters[0]))
    else HeldCluster(clusters[1..], keys)
  }

  function After(s: State, step: Step): State
    requires Enabled(s, step)
  {
    match step
    case Begin(op) => s.(creates := s.creates + [Preparing(op)], used := s.used + {op.id})
    case List(k) => s.(creates := s.creates[k := Listed(s.creates[k].op, s.store.rev, PlacementOwners(s.store))])
    case Inspect(k, id) =>
      var c := s.creates[k];
      var cluster := if c.op.scope.Some? && c.op.scope.value.resource.Cluster? then c.op.scope.value.resource.name
          else "";
      s.(creates := s.creates[k := if InItsWay(s.store, id, cluster) then Finished(c.op, Some(id))
        else c.(todo := c.todo - {id})])
    case Commit(k, others) =>
      var c := s.creates[k];
      if others && Passes(s.store, c) then
        s.(store := Written(s.store, c.op), creates := s.creates[k := Finished(c.op, None)])
      else
        var held := if c.op.scope.Some? && !Replays(s.store, c.op) then
            FirstHeld(c.op.scope.value, s.store.keys, others) else None;
        var next := if held.Some? then Blocked(c.op, held.value, s.store.keys[held.value].id)
                    else if others && c.op.scope.Some? && !Replays(s.store, c.op) then Preparing(c.op)
                    else Finished(c.op, None);
        s.(creates := s.creates[k := next])
    case Judge(k) =>
      var c := s.creates[k];
      if IsEnded(s.store, c.owner) then s.(creates := s.creates[k := Preparing(c.op)], ended := s.ended + {c.owner})
      else s.(creates := s.creates[k := Finished(c.op, Some(c.owner))])
    case Update(op) => s.(store := Updated(s.store, op))
    case Release(r, id) => s.(store := Freed(s.store.(rev := s.store.rev + 1), r, id))
    case Trim(id) =>
      var key := s.store.recs[id].key;
      s.(store := s.store.(rev := s.store.rev + 1, recs := s.store.recs - {id}),
         dropped := if key.Some? then s.dropped + {Dropped(id, key.value)} else s.dropped)
    case TrimKey(d) => s.(store := s.store.(rev := s.store.rev + 1, idem := s.store.idem - {d.key}))
    case Abandon(k) => s.(creates := s.creates[k := Finished(s.creates[k].op, None)])
  }

  // ---------------------------------------------------------------------------------------------
  // The invariant.

  ghost predicate Keyed(store: Store) {
    && (forall id | id in store.recs && Unfinished(store.recs[id]) ::
          var r := store.recs[id].scope.value.resource; r in store.keys && store.keys[r].id == id)
    && (forall id | id in store.recs :: store.recs[id].id == id && WellScoped(store.recs[id]))
    && (forall r | r in store.keys ::
         store.keys[r].created <= store.rev && (!r.Cluster? ==> store.keys[r].created <= store.scopeRev))
    && (forall r | r in store.keys && store.keys[r].id in store.recs ::
          var op := store.recs[store.keys[r].id]; op.scope.Some? && op.scope.value.resource == r)
    && store.scopeRev <= store.rev
  }

  /** The id names no record that may still be created. */
  ghost predicate Made(s: State, id: string) {
    id in s.used && forall c | c in s.creates && c.op.id == id :: c.Finished?
  }

  ghost predicate Ids(s: State) {
    && (forall id | id in s.store.recs :: Made(s, id))
    && (forall r | r in s.store.keys :: Made(s, s.store.keys[r].id))
    && (forall id | id in s.ended :: Made(s, id) && IsEnded(s.store, id))
    && (forall d | d in s.dropped :: Made(s, d.id) && d.id !in s.store.recs)
    && (forall c | c in s.creates :: c.op.id in s.used && WellScoped(c.op) && (c.Blocked? ==> Made(s, c.owner)))
    && (forall j, k | 0 <= j < k < |s.creates| :: s.creates[j].op.id != s.creates[k].op.id)
  }

  /** A create's reads, against the store now. */
  ghost predicate Sees(store: Store, c: Create) {
    match c
    case Listed(op, at, todo) =>
      && op.scope.Some? && op.scope.value.resource.Cluster? && at <= store.rev
      && forall r | r in store.keys && r.Placement? && store.keys[r].created <= at ::
           store.keys[r].id in todo || !InItsWay(store, store.keys[r].id, op.scope.value.resource.name)
    case Blocked(op, r, owner) =>
      && op.scope.Some? && r in Compared(op.scope.value)
      && (owner in store.recs ==> store.recs[owner].scope.Some? && store.recs[owner].scope.value.resource == r)
    case _ => true
  }

  ghost predicate Inv(s: State) {
    Keyed(s.store) && Ids(s) && Apart(s.store.recs) && forall c | c in s.creates :: Sees(s.store, c)
  }

  ghost predicate Initial(s: State) {
    s == State(Store(0, map[], 0, map[], map[]), [], {}, {}, {})
  }

  /** A create whose transaction passes is one the locked store would take at that instant. */
  lemma PassingIsApart(s: State, c: Create)
    requires Inv(s) && c in s.creates && Prepared(c) && Passes(s.store, c) && c.op.scope.Some?
    ensures forall id | id in s.store.recs && Unfinished(s.store.recs[id]) ::
              !Clash(c.op.scope.value, s.store.recs[id].scope.value)
  {
    var sc := c.op.scope.value;
    forall id | id in s.store.recs && Unfinished(s.store.recs[id]) ensures !Clash(sc, s.store.recs[id].scope.value) {
      var os := s.store.recs[id].scope.value;
      assert os.resource in s.store.keys && s.store.keys[os.resource].id == id;
      assert os.resource !in Compared(sc);
      if sc.resource.Cluster? && Touches(os, sc.resource.name) {
        assert os.resource.Placement?;
        assert Sees(s.store, c) && InItsWay(s.store, id, sc.resource.name);
        assert false;
      }
    }
  }

  // ---------------------------------------------------------------------------------------------
  // Every step keeps it.

  /** A step of one create that leaves the store alone. */
  lemma MovingOnKeepsInv(s: State, k: nat, c: Create, ended: set<string>)
    requires Inv(s) && k < |s.creates| && c.op == s.creates[k].op && Sees(s.store, c) && !s.creates[k].Finished?
    requires c.Blocked? ==> Made(s, c.owner)
    requires s.ended <= ended && forall id | id in ended :: Made(s, id) && IsEnded(s.store, id)
    ensures Inv(s.(creates := s.creates[k := c], ended := ended))
  {
    var t := s.(creates := s.creates[k := c], ended := ended);
    assert s.creates[k] in s.creates;
    assert forall d | d in t.creates :: d == c || d in s.creates;
    forall id | Made(s, id) ensures Made(t, id) {
    }
  }

  lemma BeginKeepsInv(s: State, op: Op)
    requires Inv(s) && Enabled(s, Begin(op))
    ensures Inv(After(s, Begin(op)))
  {
    var t := After(s, Begin(op));
    forall id | Made(s, id) ensures Made(t, id) {
    }
  }

  /** A change of the store that frees keys, ends records or drops ended ones. */
  ghost predicate Loosens(store: Store, next: Store) {
    && store.rev <= next.rev && next.scopeRev == store.scopeRev
    && next.keys.Keys <= store.keys.Keys && (forall r | r in next.keys :: next.keys[r] == store.keys[r])
    && next.recs.Keys <= store.recs.Keys
    && (forall id | id in next.recs :: Continues(store.recs[id], next.recs[id]))
    && (forall id | id in next.recs && Unfinished(next.recs[id]) ::
          var r := next.recs[id].scope.value.resource; r in store.keys && store.keys[r].id == id ==> r in next.keys)
  }

  lemma LooseningKeepsKeyed(store: Store, next: Store)
    requires Keyed(store) && Loosens(store, next) && Apart(store.recs)
    ensures Keyed(next) && Apart(next.recs)
  {
  }

  lemma LooseningKeepsSight(store: Store, next: Store, c: Create)
    requires Loosens(store, next) && Sees(store, c)
    ensures Sees(next, c)
  {
  }

  lemma LooseningKeepsInv(s: State, next: Store)
    requires Inv(s) && Loosens(s.store, next)
    ensures Inv(s.(store := next))
  {
    LooseningKeepsKeyed(s.store, next);
    forall c | c in s.creates ensures Sees(next, c) {
      LooseningKeepsSight(s.store, next, c);
    }
    var t := s.(store := next);
    assert forall id :: Made(s, id) ==> Made(t, id);
  }

  lemma UpdateLoosens(s: State, op: Op)
    requires Inv(s) && Enabled(s, Update(op))
    ensures Loosens(s.store, After(s, Update(op)).store)
  {
  }

  lemma ReleaseLoosens(s: State, r: Resource, id: string)
    requires Inv(s) && Enabled(s, Release(r, id))
    ensures Loosens(s.store, After(s, Release(r, id)).store)
  {
  }

  lemma TrimLoosens(s: State, id: string)
    requires Inv(s) && Enabled(s, Trim(id))
    ensures Loosens(s.store, After(s, Trim(id)).store)
  {
  }

  lemma WritingKeepsKeyed(s: State, c: Create)
    requires Inv(s) && c in s.creates && Prepared(c) && Passes(s.store, c)
    ensures Keyed(Written(s.store, c.op)) && Apart(Written(s.store, c.op).recs)
  {
    if c.op.scope.Some? {
      PassingIsApart(s, c);
    }
    NoKeyNamesIt(s, c);
    WrittenIsKeyed(s.store, c.op);
    WrittenIsApart(s.store, c.op);
  }

  lemma NoKeyNamesIt(s: State, c: Create)
    requires Ids(s) && c in s.creates && !c.Finished?
    ensures forall r | r in s.store.keys :: s.store.keys[r].id != c.op.id
  {
    assert forall r | r in s.store.keys :: Made(s, s.store.keys[r].id);
  }

  lemma WrittenIsApart(store: Store, op: Op)
    requires Apart(store.recs) && op.id !in store.recs
    requires op.scope.Some? ==>
               forall id | id in store.recs && Unfinished(store.recs[id]) ::
                 !Clash(op.scope.value, store.recs[id].scope.value)
    ensures Apart(Written(store, op).recs)
  {
  }

  lemma WrittenIsKeyed(store: Store, op: Op)
    requires Keyed(store) && WellScoped(op) && op.id !in store.recs
             && forall r | r in store.keys :: store.keys[r].id != op.id
    requires op.scope.Some? ==> op.scope.value.resource !in store.keys
    ensures Keyed(Written(store, op))
  {
    if op.scope.Some? {
      ScopedIsKeyed(store, op);
    }
  }

  lemma ScopedIsKeyed(store: Store, op: Op)
    requires Keyed(store) && WellScoped(op) && op.id !in store.recs
             && forall r | r in store.keys :: store.keys[r].id != op.id
    requires op.scope.Some? && op.scope.value.resource !in store.keys
    ensures Keyed(Written(store, op))
  {
  }

  lemma WritingKeepsSight(s: State, c: Create, d: Create)
    requires Inv(s) && c in s.creates && Prepared(c) && Passes(s.store, c) && d in s.creates
    ensures Sees(Written(s.store, c.op), d)
  {
    assert d.Blocked? ==> d.owner != c.op.id;
  }

  lemma WritingKeepsIds(s: State, k: nat)
    requires Ids(s) && k < |s.creates| && !s.creates[k].Finished?
    ensures var op := s.creates[k].op;
            Ids(s.(store := Written(s.store, op), creates := s.creates[k := Finished(op, None)]))
  {
    var c := s.creates[k];
    var t := s.(store := Written(s.store, c.op), creates := s.creates[k := Finished(c.op, None)]);
    assert c in s.creates;
    assert forall d | d in t.creates :: d == t.creates[k] || d in s.creates;
    forall id | Made(s, id) ensures Made(t, id) {
    }
    OnlyOneMakes(s, k);
  }

  /** Its one create finished, the id is made. */
  lemma OnlyOneMakes(s: State, k: nat)
    requires Ids(s) && k < |s.creates|
    ensures var op := s.creates[k].op;
            Made(s.(store := Written(s.store, op), creates := s.creates[k := Finished(op, None)]), op.id)
  {
    assert s.creates[k] in s.creates;
  }

  lemma CommitKeepsInv(s: State, k: nat)
    requires Inv(s) && k < |s.creates| && Prepared(s.creates[k]) && Passes(s.store, s.creates[k])
    ensures Inv(After(s, Commit(k, true)))
  {
    var c, t := s.creates[k], After(s, Commit(k, true));
    assert c in s.creates;
    WritingKeepsKeyed(s, c);
    WritingKeepsIds(s, k);
    forall d | d in t.creates ensures Sees(t.store, d) {
      if d in s.creates {
        WritingKeepsSight(s, c, d);
      }
    }
  }

  lemma CreateStepKeepsInv(s: State, step: Step)
    requires Inv(s) && Enabled(s, step) && (step.List? || step.Inspect? || step.Commit? || step.Judge? || step.Abandon?)
    requires step.Commit? ==> !(step.others && Passes(s.store, s.creates[step.k]))
    ensures Inv(After(s, step))
  {
    var t := After(s, step);
    var c := s.creates[step.k];
    assert c in s.creates && Sees(s.store, c);
    MovingOnKeepsInv(s, step.k, t.creates[step.k], t.ended);
    assert t == s.(creates := s.creates[step.k := t.creates[step.k]], ended := t.ended);
  }

  lemma StoreStepKeepsInv(s: State, step: Step)
    requires Inv(s) && Enabled(s, step) && (step.Update? || step.Release? || step.Trim? || step.TrimKey?)
    ensures Inv(After(s, step))
  {
    match step {
      case Update(op) => UpdateLoosens(s, op);
      case Release(r, id) => ReleaseLoosens(s, r, id);
      case Trim(id) => TrimLoosens(s, id);
      case TrimKey(_) =>
    }
    LooseningKeepsInv(s, After(s, step).store);
    if step.Trim? {
      DroppingKeepsInv(s.(store := After(s, step).store), After(s, step).dropped);
    }
  }

  lemma DroppingKeepsInv(s: State, dropped: set<Dropped>)
    requires Inv(s) && forall d | d in dropped :: Made(s, d.id) && d.id !in s.store.recs
    ensures Inv(s.(dropped := dropped))
  {
    var t := s.(dropped := dropped);
    assert forall id :: Made(s, id) ==> Made(t, id);
  }

  lemma StepKeepsInv(s: State, step: Step)
    requires Inv(s) && Enabled(s, step)
    ensures Inv(After(s, step))
  {
    match step
    case Begin(op) => BeginKeepsInv(s, op);
    case Update(_) => StoreStepKeepsInv(s, step);
    case Release(_, _) => StoreStepKeepsInv(s, step);
    case Trim(_) => StoreStepKeepsInv(s, step);
    case TrimKey(_) => StoreStepKeepsInv(s, step);
    case Commit(k, others) =>
      if others && Passes(s.store, s.creates[k]) {
        CommitKeepsInv(s, k);
      } else {
        CreateStepKeepsInv(s, step);
      }
    case _ => CreateStepKeepsInv(s, step);
  }

  ghost predicate IsRun(run: seq<State>, steps: seq<Step>) {
    && |run| == |steps| + 1
    && forall i | 0 <= i < |steps| :: Enabled(run[i], steps[i]) && run[i + 1] == After(run[i], steps[i])
  }

  lemma {:induction false} RunsKeepInv(run: seq<State>, steps: seq<Step>, n: nat)
    requires IsRun(run, steps) && Initial(run[0]) && n <= |steps|
    ensures Inv(run[n])
  {
    if n > 0 {
      RunsKeepInv(run, steps, n - 1);
      StepKeepsInv(run[n - 1], steps[n - 1]);
    }
  }

  /** However creates, ends, releases, reaps and trims interleave, no two unfinished operations own
      scopes that clash. */
  lemma ReservationsNeverClash(run: seq<State>, steps: seq<Step>, n: nat)
    requires IsRun(run, steps) && Initial(run[0]) && n <= |steps|
    ensures Apart(run[n].store.recs)
  {
    RunsKeepInv(run, steps, n);
  }

  // ---------------------------------------------------------------------------------------------
  // Idempotency keys.

  /** Each key used by a record kept names it. */
  ghost predicate Indexed(store: Store) {
    forall id | id in store.recs && store.recs[id].key.Some? :: Names(store, store.recs[id].key.value, id)
  }

  predicate Names(store: Store, key: Key, id: string) {
    key in store.idem && store.idem[key] == id
  }

  /** No two records kept used one key. */
  ghost predicate NoneShare(recs: map<string, Op>) {
    forall a, b | a in recs && b in recs && a != b && recs[a].key.Some? :: recs[a].key != recs[b].key
  }

  lemma IndexedShareNone(store: Store)
    requires Indexed(store)
    ensures NoneShare(store.recs)
  {
    forall a, b | a in store.recs && b in store.recs && a != b && store.recs[a].key.Some?
      ensures store.recs[a].key != store.recs[b].key
    {
      assert Names(store, store.recs[a].key.value, a);
      if store.recs[b].key.Some? {
        assert Names(store, store.recs[b].key.value, b);
      }
    }
  }

  /** A trim deletes a key that still names the record it dropped, or none. */
  predicate Timely(s: State, step: Step) {
    step.TrimKey? && step.d.key in s.store.idem ==> s.store.idem[step.d.key] == step.d.id
  }

  /** Exactly when deleting a key loses a record kept: when the key names one that used it. */
  lemma TrimKeepsIndexExactly(s: State, d: Dropped)
    requires Inv(s) && Indexed(s.store) && Enabled(s, TrimKey(d))
    ensures Indexed(After(s, TrimKey(d)).store) <==>
            !(exists id | id in s.store.recs :: s.store.recs[id].key == Some(d.key))
    ensures Timely(s, TrimKey(d)) ==> Indexed(After(s, TrimKey(d)).store)
  {
    var t := After(s, TrimKey(d)).store;
    if id :| id in s.store.recs && s.store.recs[id].key == Some(d.key) {
      assert Names(s.store, d.key, id) && !Names(t, d.key, id) && id in t.recs;
    } else {
      forall id | id in t.recs && t.recs[id].key.Some? ensures Names(t, t.recs[id].key.value, id) {
        assert Names(s.store, s.store.recs[id].key.value, id);
      }
    }
  }

  lemma StepKeepsIndexed(s: State, step: Step)
    requires Inv(s) && Indexed(s.store) && Enabled(s, step) && Timely(s, step)
    ensures Indexed(After(s, step).store)
  {
    match step
    case TrimKey(d) => TrimKeepsIndexExactly(s, d);
    case Commit(k, others) =>
      if others && Passes(s.store, s.creates[k]) {
        WritingKeepsIndexed(s.store, s.creates[k].op);
      }
    case Update(op) => KeepingKeysKeepsIndexed(s.store, After(s, step).store);
    case Release(_, _) => KeepingKeysKeepsIndexed(s.store, After(s, step).store);
    case Trim(_) => KeepingKeysKeepsIndexed(s.store, After(s, step).store);
    case _ =>
  }

  lemma WritingKeepsIndexed(store: Store, op: Op)
    requires Indexed(store) && op.id !in store.recs && (op.key.Some? ==> op.key.value !in store.idem)
    ensures Indexed(Written(store, op))
  {
    var t := Written(store, op);
    forall id | id in t.recs && t.recs[id].key.Some? ensures Names(t, t.recs[id].key.value, id) {
      if id in store.recs {
        assert Names(store, store.recs[id].key.value, id);
      }
    }
  }

  lemma KeepingKeysKeepsIndexed(store: Store, t: Store)
    requires Indexed(store) && t.idem == store.idem && t.recs.Keys <= store.recs.Keys
    requires forall id | id in t.recs :: t.recs[id].key == store.recs[id].key
    ensures Indexed(t)
  {
    forall id | id in t.recs && t.recs[id].key.Some? ensures Names(t, t.recs[id].key.value, id) {
      assert Names(store, store.recs[id].key.value, id);
    }
  }

  ghost predicate TimelyRun(run: seq<State>, steps: seq<Step>) {
    IsRun(run, steps) && forall i | 0 <= i < |steps| :: Timely(run[i], steps[i])
  }

  lemma {:induction false} RunsKeepIndexed(run: seq<State>, steps: seq<Step>, n: nat)
    requires TimelyRun(run, steps) && Initial(run[0]) && n <= |steps|
    ensures Indexed(run[n].store)
  {
    if n > 0 {
      RunsKeepIndexed(run, steps, n - 1);
      RunsKeepInv(run, steps, n - 1);
      assert Timely(run[n - 1], steps[n - 1]);
      StepKeepsIndexed(run[n - 1], steps[n - 1]);
    }
  }

  /** However creates, ends, reaps and trims interleave, no two records kept used one idempotency key, so
      long as no trim deletes a key that has come to name another record. */
  lemma KeysAreUsedOnce(run: seq<State>, steps: seq<Step>, n: nat)
    requires TimelyRun(run, steps) && Initial(run[0]) && n <= |steps|
    ensures NoneShare(run[n].store.recs)
  {
    RunsKeepIndexed(run, steps, n);
    IndexedShareNone(run[n].store);
  }

  /** A key that was lost is taken again: the next operation that brings it is created, beside the record
      that used it. */
  lemma LostKeyIsTakenAgain(s: State, id: string, op: Op)
    requires Inv(s) && id in s.store.recs && op.key.Some? && s.store.recs[id].key == op.key
    requires op.key.value !in s.store.idem && op.scope.None? && op.id !in s.used
    ensures Enabled(s, Begin(op)) && Enabled(After(s, Begin(op)), Commit(|s.creates|, true))
    ensures !NoneShare(After(After(s, Begin(op)), Commit(|s.creates|, true)).store.recs)
  {
    var t := After(After(s, Begin(op)), Commit(|s.creates|, true));
    assert Made(s, id);
    assert id in t.store.recs && op.id in t.store.recs && id != op.id
           && t.store.recs[id].key == t.store.recs[op.id].key;
  }

  const KEY := Key("e", "a", "r")

  function Unscoped(id: string): Op {
    Op(id, None, false, false, Some(KEY), "", None, 1, 0)
  }

  const START := State(Store(0, map[], 0, map[], map[]), [], {}, {}, {})

  lemma Extend(run: seq<State>, steps: seq<Step>, step: Step, t: State) returns (run': seq<State>, steps': seq<Step>)
    requires IsRun(run, steps) && run[0] == START && Enabled(run[|steps|], step) && t == After(run[|steps|], step)
    ensures IsRun(run', steps') && run'[0] == START && run'[|steps'|] == t
  {
    run', steps' := run + [t], steps + [step];
  }

  /** The first operation, created. */
  const FIRST := START.(creates := [Finished(Unscoped("x"), None)], used := {"x"})

  const ENDED := Unscoped("x").(terminal := true, sequence := 2)

  lemma FirstEnds() returns (run: seq<State>, steps: seq<Step>)
    ensures IsRun(run, steps) && run[0] == START
    ensures run[|steps|] == FIRST.(store := Store(2, map[], 0, map["x" := ENDED], map[KEY := "x"]))
  {
    var x := Unscoped("x");
    run, steps := Extend([START], [], Begin(x), START.(creates := [Preparing(x)], used := {"x"}));
    var created := Store(1, map[], 0, map["x" := x], map[KEY := "x"]);
    run, steps := Extend(run, steps, Commit(0, true), FIRST.(store := created));
    var ended := Store(2, map[], 0, map["x" := ENDED], map[KEY := "x"]);
    run, steps := Extend(run, steps, Update(ENDED), FIRST.(store := ended));
  }

  /** Its record is trimmed, and its key with it. */
  lemma FirstIsTrimmed() returns (run: seq<State>, steps: seq<Step>)
    ensures IsRun(run, steps) && run[0] == START
    ensures run[|steps|] == FIRST.(store := Store(4, map[], 0, map[], map[]), dropped := {Dropped("x", KEY)})
  {
    run, steps := FirstEnds();
    var dropped := FIRST.(store := Store(3, map[], 0, map[], map[KEY := "x"]), dropped := {Dropped("x", KEY)});
    assert map["x" := ENDED] - {"x"} == map[];
    run, steps := Extend(run, steps, Trim("x"), dropped);
    assert map[KEY := "x"] - {KEY} == map[];
    run, steps := Extend(run, steps, TrimKey(Dropped("x", KEY)), dropped.(store := Store(4, map[], 0, map[], map[])));
  }

  /** A key is used again once the record that used it first is trimmed. Another node's trim of that
      record, made from an index not caught up, then deletes the key of the second record; and a third
      is created with it. */
  lemma StaleTrimLosesAKey() returns (run: seq<State>, steps: seq<Step>)
    ensures IsRun(run, steps) && Initial(run[0]) && !NoneShare(run[|steps|].store.recs)
  {
    var y, z, d := Unscoped("y"), Unscoped("z"), Dropped("x", KEY);
    run, steps := FirstIsTrimmed();
    var s := run[|steps|];
    var creates := s.creates + [Preparing(y)];
    run, steps := Extend(run, steps, Begin(y), s.(creates := creates, used := {"x", "y"}));
    var t := s.(creates := s.creates + [Finished(y, None)], used := {"x", "y"});
    run, steps := Extend(run, steps, Commit(1, true), t.(store := Store(5, map[], 0, map["y" := y], map[KEY := "y"])));
    assert map[KEY := "y"] - {KEY} == map[];
    t := t.(store := Store(6, map[], 0, map["y" := y], map[]));
    run, steps := Extend(run, steps, TrimKey(d), t);
    RunsKeepInv(run, steps, |steps|);
    LostKeyIsTakenAgain(t, "y", z);
    run, steps := Extend(run, steps, Begin(z), After(t, Begin(z)));
    run, steps := Extend(run, steps, Commit(2, true), After(After(t, Begin(z)), Commit(2, true)));
  }

  /** Refinement: a create whose record is written is one the locked store would have taken, with the
      records as they stood at its transaction. */
  lemma CreatesAreLockedCreates(run: seq<State>, steps: seq<Step>, i: nat, live: seq<Op>)
    requires IsRun(run, steps) && Initial(run[0]) && i < |steps| && steps[i].Commit?
    requires forall o | o in live :: o.id in run[i].store.recs && run[i].store.recs[o.id] == o
    requires run[i + 1].store != run[i].store
    ensures var op := run[i].creates[steps[i].k].op;
            && op.id !in run[i].store.recs && run[i + 1].store.recs == run[i].store.recs[op.id := op]
            && (op.scope.Some? ==> Conflict(op.scope.value, live).None?)
            && (op.key.Some? && TimelyRun(run, steps) ==> forall o | o in live :: o.key != op.key)
  {
    RunsKeepInv(run, steps, i);
    var s, c := run[i], run[i].creates[steps[i].k];
    assert Enabled(s, steps[i]) && c in s.creates;
    if c.op.key.Some? && TimelyRun(run, steps) {
      RunsKeepIndexed(run, steps, i);
      assert forall o | o in live && o.key.Some? :: Names(s.store, o.key.value, o.id);
    }
    if c.op.scope.Some? {
      PassingIsApart(s, c);
    }
  }

  /** A create refused for an owner names an operation that is unfinished, as it is read, and whose
      scope clashes with the create's. */
  lemma RefusalsAreTrue(run: seq<State>, steps: seq<Step>, i: nat, k: nat)
    requires IsRun(run, steps) && Initial(run[0]) && i < |steps| && k < |run[i].creates|
    requires !run[i].creates[k].Finished? && run[i + 1].creates[k].Finished? && run[i + 1].creates[k].refused.Some?
    ensures var op, owner, recs := run[i].creates[k].op, run[i + 1].creates[k].refused.value, run[i].store.recs;
            && op.scope.Some? && owner in recs && Unfinished(recs[owner])
               && Clash(op.scope.value, recs[owner].scope.value)
  {
    RunsKeepInv(run, steps, i);
    var s, c := run[i], run[i].creates[k];
    assert Enabled(s, steps[i]) && c in s.creates && Sees(s.store, c);
  }
}
