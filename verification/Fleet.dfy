/** The fleet's record of one proxy's processes (internal/cp/fleet.go, internal/control/fleet.go): the
incarnation running, those that ended without retiring cleanly, and those an operator resolved. An
incarnation that may still have work out is evidence, and is discharged only by a clean retirement of
it or by an operator. */
module Fleet {
  import opened Basics

  datatype Life = Active | Retired | Unclean | Resolved

  datatype Incarnation = Incarnation(id: string, started: int, ended: Option<int>, state: Life, uncertain: nat,
      attestation: string, resolvedBy: string)

  datatype Record = Record(joined: Option<int>, current: Option<Incarnation>, unresolved: seq<Incarnation>,
      resolved: seq<Incarnation>, retireRequested: bool)

  const MAX_UNRESOLVED := 8
  const MAX_RESOLVED := 4

  const NEW := Record(None, None, [], [], false)

  /** A heartbeat, as far as the record is concerned: the process sending it, and what it knows of those
      before it. */
  datatype Heartbeat = Heartbeat(incarnation: string, started: int, previous: seq<Incarnation>)

  datatype Edit =
    | Beat(hb: Heartbeat, forgotten: seq<string>, now: int)
    | Retire(incarnation: string, uncertain: nat, now: int)
    | RequestRetire
    | Resolve(incarnation: string, attestation: string, actor: string, live: bool, now: int)

  // ---------------------------------------------------------------------------------------------
  // Evidence.

  predicate Running(rec: Record) {
    rec.current.Some? && rec.current.value.state == Active
  }

  function Ids(incs: seq<Incarnation>): set<string> {
    set i | i in incs :: i.id
  }

  /** The incarnations that may still have work out. */
  function Evidence(rec: Record): set<string> {
    (if Running(rec) then {rec.current.value.id} else {}) + Ids(rec.unresolved)
  }

  predicate Knows(rec: Record, id: string) {
    (rec.current.Some? && rec.current.value.id == id) || id in Ids(rec.unresolved) || id in Ids(rec.resolved)
  }

  predicate Clean(p: Incarnation) {
    p.state == Retired && p.uncertain == 0
  }

  /** The edits that may end the evidence of an incarnation: a clean retirement, its own or as the next
      process reports it, and an operator's resolution. */
  ghost predicate Discharges(e: Edit, id: string) {
    match e
    case Beat(hb, _, _) => id != hb.incarnation && ReportedClean(hb.previous, id)
    case Retire(incarnation, uncertain, _) => incarnation == id && uncertain == 0
    case RequestRetire => false
    case Resolve(incarnation, _, _, _, _) => incarnation == id
  }

  // ---------------------------------------------------------------------------------------------
  // What each edit makes of the record; none where it refuses.

  function Without(incs: seq<Incarnation>, id: string): seq<Incarnation> {
    if incs == [] then [] else (if incs[0].id == id then [] else [incs[0]]) + Without(incs[1..], id)
  }

  /** The first entry of an incarnation. */
  function IndexOf(incs: seq<Incarnation>, id: string): (i: nat)
    ensures i <= |incs|
    ensures i < |incs| ==> incs[i].id == id
    ensures i == |incs| <==> id !in Ids(incs)
    ensures forall j | 0 <= j < i :: incs[j].id != id
  {
    if incs == [] || incs[0].id == id then 0
    else
      assert incs == [incs[0]] + incs[1..];
      1 + IndexOf(incs[1..], id)
  }

  function AddUnresolved(rec: Record, inc: Incarnation): Option<Record> {
    if |rec.unresolved| >= MAX_UNRESOLVED then None else Some(rec.(unresolved := rec.unresolved + [inc]))
  }

  /** What a previous process's own account of its end says. */
  function Accounted(rec: Record, p: Incarnation, sender: string, now: int): Record {
    if p.id == sender then rec
    else if Running(rec) && rec.current.value.id == p.id then
      var cur := rec.current.value;
      rec.(current := Some(if Clean(p) then
        cur.(state := Retired, ended := Some(if p.ended.Some? then p.ended.value else now))
                           else cur.(uncertain := if cur.uncertain >= p.uncertain then cur.uncertain else p.uncertain)))
    else if Clean(p) then rec.(unresolved := Without(rec.unresolved, p.id))
    else rec
  }

  function AllAccounted(rec: Record, previous: seq<Incarnation>, sender: string, now: int): Record {
    if previous == [] then rec
    else
      var n := |previous| - 1;
      Accounted(AllAccounted(rec, previous[..n], sender, now), previous[n], sender, now)
  }

  /** Another process is running: the one recorded ended without retiring, unless it is known to have. */
  function Replaced(rec: Record, hb: Heartbeat, now: int): Option<Record> {
    var ended := if rec.current.Some? && rec.current.value.id != hb.incarnation then
                   var cur := rec.current.value;
                   var gone := rec.(current := None);
                   if cur.state == Active then AddUnresolved(gone, cur.(state := Unclean, ended := Some(now)))
                     else Some(gone)
                 else Some(rec);
    if ended.None? || ended.value.current.Some? then ended
    else Some(ended.value.(current := Some(Incarnation(hb.incarnation, hb.started, None, Active, 0, "", "")),
      retireRequested := false))
  }

  /** Evidence only the proxy held. */
  function Adopted(rec: Record, p: Incarnation, forgotten: seq<string>, now: int): Option<Record> {
    if Knows(rec, p.id) || p.id in forgotten then Some(rec)
    else if p.state == Unclean || p.uncertain > 0 then
      AddUnresolved(rec, Incarnation(p.id, p.started, Some(if p.ended.Some? then p.ended.value else now), Unclean,
        p.uncertain, "", ""))
    else Some(rec)
  }

  function AllAdopted(rec: Record, previous: seq<Incarnation>, forgotten: seq<string>, now: int): Option<Record> {
    if previous == [] then Some(rec)
    else
      var n := |previous| - 1;
      var before := AllAdopted(rec, previous[..n], forgotten, now);
      if before.None? then None else Adopted(before.value, previous[n], forgotten, now)
  }

  function Beaten(rec: Record, hb: Heartbeat, forgotten: seq<string>, now: int): Option<Record> {
    var joined := if rec.joined.None? then rec.(joined := Some(now)) else rec;
    var replaced := Replaced(AllAccounted(joined, hb.previous, hb.incarnation, now), hb, now);
    if replaced.None? then None else AllAdopted(replaced.value, hb.previous, forgotten, now)
  }

  function Retiring(rec: Record, incarnation: string, uncertain: nat, now: int): Option<Record> {
    if rec.current.Some? && rec.current.value.id == incarnation then
      var cur := rec.current.value;
      if cur.state == Retired then Some(rec)
      else if uncertain > 0 then
        AddUnresolved(rec.(current := None, retireRequested := false),
          cur.(ended := Some(now), uncertain := uncertain, state := Unclean))
      else Some(rec.(current := Some(cur.(ended := Some(now), uncertain := uncertain, state := Retired)),
        retireRequested := false))
    else
      var i := IndexOf(rec.unresolved, incarnation);
      if i < |rec.unresolved| then
        if uncertain == 0 then Some(rec.(unresolved := rec.unresolved[..i] + rec.unresolved[i + 1..]))
        else Some(rec.(unresolved := rec.unresolved[i := rec.unresolved[i].(uncertain := uncertain,
          ended := Some(now))]))
      else if Knows(rec, incarnation) then Some(rec) else None
  }

  function Kept(resolved: seq<Incarnation>): seq<Incarnation> {
    if |resolved| > MAX_RESOLVED then resolved[|resolved| - MAX_RESOLVED..] else resolved
  }

  function Resolving(rec: Record, e: Edit): Option<Record>
    requires e.Resolve?
  {
    var i := IndexOf(rec.unresolved, e.incarnation);
    if i < |rec.unresolved| then
      var inc := rec.unresolved[i].(state := Resolved, attestation := e.attestation, resolvedBy := e.actor);
      Some(rec.(unresolved := rec.unresolved[..i] + rec.unresolved[i + 1..], resolved := Kept(rec.resolved + [inc])))
    else if Running(rec) && rec.current.value.id == e.incarnation && !e.live then
      var inc := rec.current.value.(ended := Some(e.now), state := Resolved, attestation := e.attestation,
          resolvedBy := e.actor);
      Some(rec.(current := None, resolved := Kept(rec.resolved + [inc])))
    else None
  }

  /** The record after an edit; none when the edit is refused, and writes nothing. */
  function Edited(rec: Record, e: Edit): Option<Record> {
    match e
    case Beat(hb, forgotten, now) => Beaten(rec, hb, forgotten, now)
    case Retire(incarnation, uncertain, now) => Retiring(rec, incarnation, uncertain, now)
    case RequestRetire => if Running(rec) then Some(rec.(retireRequested := true)) else None
    case Resolve(_, _, _, _, _) => Resolving(rec, e)
  }

  function IdList(incs: seq<Incarnation>): (ids: seq<string>)
    ensures |ids| == |incs| && forall id :: id in ids <==> id in Ids(incs)
  {
    if incs == [] then []
    else
      assert incs == [incs[0]] + incs[1..];
      [incs[0].id] + IdList(incs[1..])
  }

  /** The processes a forget proves ended. */
  function EndedIds(rec: Record): (ids: seq<string>)
    ensures forall id :: id in ids <==>
              (rec.current.Some? && !Running(rec) && rec.current.value.id == id) || id in Ids(rec.resolved)
  {
    (if rec.current.Some? && !Running(rec) then [rec.current.value.id] else []) + IdList(rec.resolved)
  }

  /** Forget is refused while any evidence is left. */
  predicate Forgettable(rec: Record, live: bool) {
    !live && !Running(rec) && rec.unresolved == []
  }

  // ---------------------------------------------------------------------------------------------
  // Evidence is never lost silently.

  lemma IdsOfSum(a: seq<Incarnation>, b: seq<Incarnation>)
    ensures Ids(a + b) == Ids(a) + Ids(b)
  {
  }

  lemma {:induction false} WithoutIds(incs: seq<Incarnation>, id: string)
    ensures Ids(Without(incs, id)) == Ids(incs) - {id} && |Without(incs, id)| <= |incs|
    ensures id !in Ids(incs) ==> Without(incs, id) == incs
  {
    if incs != [] {
      var rest := incs[1..];
      WithoutIds(rest, id);
      assert incs == [incs[0]] + rest;
      IdsOfSum([incs[0]], rest);
      IdsOfSum([incs[0]], Without(rest, id));
      assert [] + Without(rest, id) == Without(rest, id);
    }
  }

  /** Taking one entry out takes at most that id out. */
  lemma RemovedIds(incs: seq<Incarnation>, i: nat)
    requires i < |incs|
    ensures Ids(incs) - {incs[i].id} <= Ids(incs[..i] + incs[i + 1..])
  {
    assert incs == incs[..i] + [incs[i]] + incs[i + 1..];
    IdsOfSum(incs[..i], incs[i + 1..]);
    IdsOfSum(incs[..i] + [incs[i]], incs[i + 1..]);
    IdsOfSum(incs[..i], [incs[i]]);
  }

  lemma AccountKeepsEvidence(rec: Record, p: Incarnation, sender: string, now: int)
    ensures var next := Accounted(rec, p, sender, now);
            && (forall id | id in Evidence(rec) :: id in Evidence(next) || (id != sender && p.id == id && Clean(p)))
            && |next.unresolved| <= |rec.unresolved| && next.resolved == rec.resolved && next.joined == rec.joined
            && (next.current.Some? <==> rec.current.Some?)
               && (rec.current.Some? ==> next.current.value.id == rec.current.value.id)
  {
    WithoutIds(rec.unresolved, p.id);
  }

  /** A previous process reports that it ended cleanly. */
  ghost predicate ReportedClean(previous: seq<Incarnation>, id: string) {
    exists p | p in previous :: p.id == id && Clean(p)
  }

  lemma {:induction false} AccountsKeepEvidence(rec: Record, previous: seq<Incarnation>, sender: string, now: int)
    ensures var next := AllAccounted(rec, previous, sender, now);
            && (forall id | id in Evidence(rec) ::
                 id in Evidence(next) || (id != sender && ReportedClean(previous, id)))
            && |next.unresolved| <= |rec.unresolved| && next.resolved == rec.resolved && next.joined == rec.joined
            && (next.current.Some? <==> rec.current.Some?)
               && (rec.current.Some? ==> next.current.value.id == rec.current.value.id)
    decreases |previous|
  {
    if previous != [] {
      var n := |previous| - 1;
      AccountsKeepEvidence(rec, previous[..n], sender, now);
      AccountKeepsEvidence(AllAccounted(rec, previous[..n], sender, now), previous[n], sender, now);
      assert previous[n] in previous;
      assert forall id | ReportedClean(previous[..n], id) :: ReportedClean(previous, id);
    }
  }

  lemma ReplacingKeepsEvidence(rec: Record, hb: Heartbeat, now: int)
    requires Replaced(rec, hb, now).Some?
    ensures var next := Replaced(rec, hb, now).value;
            && Evidence(rec) <= Evidence(next)
               && (|rec.unresolved| <= MAX_UNRESOLVED ==> |next.unresolved| <= MAX_UNRESOLVED)
            && next.current.Some? && next.current.value.id == hb.incarnation
  {
    if rec.current.Some? {
      IdsOfSum(rec.unresolved, [rec.current.value.(state := Unclean, ended := Some(now))]);
    }
  }

  lemma {:induction false} AdoptingKeepsEvidence(rec: Record, previous: seq<Incarnation>, forgotten: seq<string>,
      now: int)
    requires AllAdopted(rec, previous, forgotten, now).Some?
    ensures var next := AllAdopted(rec, previous, forgotten, now).value;
            && Evidence(rec) <= Evidence(next)
               && (|rec.unresolved| <= MAX_UNRESOLVED ==> |next.unresolved| <= MAX_UNRESOLVED)
            && next.current == rec.current && next.resolved == rec.resolved && next.joined == rec.joined
            && (forall id | Knows(rec, id) :: Knows(next, id))
            && (forall p | p in previous && (p.state == Unclean || p.uncertain > 0) ::
                 Knows(next, p.id) || p.id in forgotten)
    decreases |previous|
  {
    if previous != [] {
      var n := |previous| - 1;
      AdoptingKeepsEvidence(rec, previous[..n], forgotten, now);
      var before, p := AllAdopted(rec, previous[..n], forgotten, now).value, previous[n];
      IdsOfSum(before.unresolved,
        [Incarnation(p.id, p.started, Some(if p.ended.Some? then p.ended.value else now), Unclean, p.uncertain, "",
          "")]);
      assert previous == previous[..n] + [p];
    }
  }

  lemma BeatKeepsEvidence(rec: Record, hb: Heartbeat, forgotten: seq<string>, now: int, id: string)
    requires Beaten(rec, hb, forgotten, now).Some? && id in Evidence(rec)
    ensures id in Evidence(Beaten(rec, hb, forgotten, now).value) || Discharges(Beat(hb, forgotten, now), id)
  {
    var joined := if rec.joined.None? then rec.(joined := Some(now)) else rec;
    var accounted := AllAccounted(joined, hb.previous, hb.incarnation, now);
    assert Evidence(joined) == Evidence(rec);
    AccountsKeepEvidence(joined, hb.previous, hb.incarnation, now);
    ReplacingKeepsEvidence(accounted, hb, now);
    AdoptingKeepsEvidence(Replaced(accounted, hb, now).value, hb.previous, forgotten, now);
  }

  /** The one-step law: an edit that succeeds keeps every incarnation that may have work out, except
      one it discharges. */
  lemma EditKeepsEvidence(rec: Record, e: Edit, id: string)
    requires Edited(rec, e).Some? && id in Evidence(rec)
    ensures id in Evidence(Edited(rec, e).value) || Discharges(e, id)
  {
    match e
    case Beat(hb, forgotten, now) => BeatKeepsEvidence(rec, hb, forgotten, now, id);
    case Retire(incarnation, uncertain, now) => RetireKeepsEvidence(rec, incarnation, uncertain, now, id);
    case RequestRetire =>
    case Resolve(_, _, _, _, _) => ResolveKeepsEvidence(rec, e, id);
  }

  lemma RetireKeepsEvidence(rec: Record, incarnation: string, uncertain: nat, now: int, id: string)
    requires Retiring(rec, incarnation, uncertain, now).Some? && id in Evidence(rec)
    ensures id in Evidence(Retiring(rec, incarnation, uncertain, now).value) || (incarnation == id && uncertain == 0)
  {
    if rec.current.Some? && rec.current.value.id == incarnation {
      IdsOfSum(rec.unresolved, [rec.current.value.(ended := Some(now), uncertain := uncertain, state := Unclean)]);
    } else {
      var i := IndexOf(rec.unresolved, incarnation);
      if i < |rec.unresolved| {
        RemovedIds(rec.unresolved, i);
        UpdatedIds(rec.unresolved, i, rec.unresolved[i].(uncertain := uncertain, ended := Some(now)));
      }
    }
  }

  lemma ResolveKeepsEvidence(rec: Record, e: Edit, id: string)
    requires e.Resolve? && Resolving(rec, e).Some? && id in Evidence(rec)
    ensures id in Evidence(Resolving(rec, e).value) || e.incarnation == id
  {
    var i := IndexOf(rec.unresolved, e.incarnation);
    if i < |rec.unresolved| {
      RemovedIds(rec.unresolved, i);
    }
  }

  lemma UpdatedIds(incs: seq<Incarnation>, i: nat, inc: Incarnation)
    requires i < |incs| && inc.id == incs[i].id
    ensures Ids(incs[i := inc]) == Ids(incs)
  {
    var t := incs[i := inc];
    forall id | id in Ids(incs) ensures id in Ids(t) {
      var j :| 0 <= j < |incs| && incs[j].id == id;
      assert t[j] in t && t[j].id == id;
    }
    forall id | id in Ids(t) ensures id in Ids(incs) {
      var j :| 0 <= j < |t| && t[j].id == id;
      assert incs[j] in incs && incs[j].id == id;
    }
  }

  lemma BeatIsBounded(rec: Record, hb: Heartbeat, forgotten: seq<string>, now: int)
    requires Beaten(rec, hb, forgotten, now).Some? && |rec.unresolved| <= MAX_UNRESOLVED
    ensures |Beaten(rec, hb, forgotten, now).value.unresolved| <= MAX_UNRESOLVED
  {
    var joined := if rec.joined.None? then rec.(joined := Some(now)) else rec;
    var accounted := AllAccounted(joined, hb.previous, hb.incarnation, now);
    AccountsKeepEvidence(joined, hb.previous, hb.incarnation, now);
    ReplacingKeepsEvidence(accounted, hb, now);
    AdoptingKeepsEvidence(Replaced(accounted, hb, now).value, hb.previous, forgotten, now);
  }

  /** At most eight are ever unresolved: a ninth is refused, not an old one dropped. */
  lemma EditIsBounded(rec: Record, e: Edit)
    requires Edited(rec, e).Some? && |rec.unresolved| <= MAX_UNRESOLVED
    ensures |Edited(rec, e).value.unresolved| <= MAX_UNRESOLVED
  {
    if e.Beat? {
      BeatIsBounded(rec, e.hb, e.forgotten, e.now);
    }
  }

  /** What lets the proxy drop its own account: once a heartbeat is taken, each earlier process that
      ended uncleanly is on the record, or was proved ended. */
  lemma BeatRecordsPrevious(rec: Record, hb: Heartbeat, forgotten: seq<string>, now: int, p: Incarnation)
    requires Beaten(rec, hb, forgotten, now).Some? && p in hb.previous && (p.state == Unclean || p.uncertain > 0)
    ensures Knows(Beaten(rec, hb, forgotten, now).value, p.id) || p.id in forgotten
  {
    var joined := if rec.joined.None? then rec.(joined := Some(now)) else rec;
    AdoptingKeepsEvidence(Replaced(AllAccounted(joined, hb.previous, hb.incarnation, now), hb, now).value, hb.previous,
      forgotten, now);
  }

  ghost predicate Distinct(incs: seq<Incarnation>) {
    forall i, j | 0 <= i < j < |incs| :: incs[i].id != incs[j].id
  }

  /** What the handler takes for a heartbeat: earlier processes, each once, each ended. */
  ghost predicate ValidBeat(hb: Heartbeat) {
    && (forall p | p in hb.previous :: p.id != hb.incarnation && (p.state == Retired || p.state == Unclean))
    && Distinct(hb.previous)
  }

  /** A process retired cleanly is not left unresolved by the accounts, nor as the one running. */
  lemma {:induction false} CleanIsDischarged(rec: Record, previous: seq<Incarnation>, sender: string, now: int, k: nat)
    requires k < |previous| && Clean(previous[k]) && previous[k].id != sender
    requires Distinct(previous)
    ensures var next := AllAccounted(rec, previous, sender, now);
            && (Running(next) ==> next.current.value.id != previous[k].id)
            && (!(Running(rec) && rec.current.value.id == previous[k].id) ==> previous[k].id !in Ids(next.unresolved))
            && (previous[k].id !in Ids(rec.unresolved) ==> previous[k].id !in Ids(next.unresolved))
    decreases |previous|
  {
    var n := |previous| - 1;
    var before := AllAccounted(rec, previous[..n], sender, now);
    AccountsKeepEvidence(rec, previous[..n], sender, now);
    AccountsAddNothing(rec, previous[..n], sender, now);
    WithoutIds(before.unresolved, previous[n].id);
    if k < n {
      CleanIsDischarged(rec, previous[..n], sender, now, k);
    }
  }

  lemma {:induction false} AccountsAddNothing(rec: Record, previous: seq<Incarnation>, sender: string, now: int)
    ensures var next := AllAccounted(rec, previous, sender, now);
            Ids(next.unresolved) <= Ids(rec.unresolved) && (Running(next) ==> Running(rec))
    decreases |previous|
  {
    if previous != [] {
      var n := |previous| - 1;
      AccountsAddNothing(rec, previous[..n], sender, now);
      AccountsKeepEvidence(rec, previous[..n], sender, now);
      WithoutIds(AllAccounted(rec, previous[..n], sender, now).unresolved, previous[n].id);
    }
  }

  lemma {:induction false} AdoptingAddsTheUnclean(rec: Record, previous: seq<Incarnation>, forgotten: seq<string>,
      now: int, id: string)
    requires AllAdopted(rec, previous, forgotten, now).Some?
             && id in Ids(AllAdopted(rec, previous, forgotten, now).value.unresolved)
    ensures id in Ids(rec.unresolved) || exists p | p in previous :: p.id == id && !Clean(p)
    decreases |previous|
  {
    if previous != [] {
      var n := |previous| - 1;
      var before, p := AllAdopted(rec, previous[..n], forgotten, now).value, previous[n];
      IdsOfSum(before.unresolved,
        [Incarnation(p.id, p.started, Some(if p.ended.Some? then p.ended.value else now), Unclean, p.uncertain, "",
          "")]);
      assert p in previous;
      if id in Ids(before.unresolved) {
        AdoptingAddsTheUnclean(rec, previous[..n], forgotten, now, id);
        assert forall q | q in previous[..n] :: q in previous;
      }
    }
  }

  lemma {:induction false} NothingLeftToAccount(rec: Record, previous: seq<Incarnation>, sender: string, now: int)
    requires rec.current.Some? && rec.current.value.id == sender
    requires forall p | p in previous && Clean(p) :: p.id !in Ids(rec.unresolved)
    ensures AllAccounted(rec, previous, sender, now) == rec
    decreases |previous|
  {
    if previous != [] {
      var n := |previous| - 1;
      NothingLeftToAccount(rec, previous[..n], sender, now);
      WithoutIds(rec.unresolved, previous[n].id);
      assert previous[n] in previous;
    }
  }

  lemma {:induction false} NothingLeftToAdopt(rec: Record, previous: seq<Incarnation>, forgotten: seq<string>, now: int)
    requires forall p | p in previous && (p.state == Unclean || p.uncertain > 0) ::
               Knows(rec, p.id) || p.id in forgotten
    ensures AllAdopted(rec, previous, forgotten, now) == Some(rec)
    decreases |previous|
  {
    if previous != [] {
      NothingLeftToAdopt(rec, previous[..|previous| - 1], forgotten, now);
      assert previous[|previous| - 1] in previous;
    }
  }

  /** The process recorded as running is recorded as unresolved too, as it is once it heartbeats after
      retiring with outcomes unknown. */
  predicate RecordedTwice(rec: Record, id: string) {
    Running(rec) && rec.current.value.id == id && id in Ids(rec.unresolved)
  }

  /** The account of the process recorded as running is taken for that record of it, and leaves the
      other. */
  lemma {:induction false} RecordedTwiceStaysUnresolved(rec: Record, previous: seq<Incarnation>, sender: string,
      now: int, id: string)
    requires RecordedTwice(rec, id) && Distinct(previous)
    ensures var next := AllAccounted(rec, previous, sender, now);
            && id in Ids(next.unresolved) && next.current.Some? && next.current.value.id == id
            && (id !in Ids(previous) ==> Running(next))
    decreases |previous|
  {
    if previous != [] {
      var n := |previous| - 1;
      var before := AllAccounted(rec, previous[..n], sender, now);
      OneIdMore(previous, n);
      RecordedTwiceStaysUnresolved(rec, previous[..n], sender, now, id);
      AccountLeavesTheOther(before, previous[n], sender, now, id);
    }
  }

  lemma OneIdMore(incs: seq<Incarnation>, n: nat)
    requires |incs| == n + 1 && Distinct(incs)
    ensures Distinct(incs[..n]) && Ids(incs) == Ids(incs[..n]) + {incs[n].id} && incs[n].id !in Ids(incs[..n])
  {
    IdsOfSum(incs[..n], [incs[n]]);
    assert incs == incs[..n] + [incs[n]];
  }

  lemma AccountLeavesTheOther(rec: Record, p: Incarnation, sender: string, now: int, id: string)
    requires rec.current.Some? && rec.current.value.id == id && id in Ids(rec.unresolved)
             && (p.id == id ==> Running(rec))
    ensures var next := Accounted(rec, p, sender, now);
            id in Ids(next.unresolved) && next.current.Some? && next.current.value.id == id
    ensures Running(rec) && p.id != id ==> Running(Accounted(rec, p, sender, now))
  {
    WithoutIds(rec.unresolved, p.id);
  }

  /** A process reported clean is left unresolved exactly when it was recorded twice. */
  lemma CleanIsLeftExactly(rec: Record, hb: Heartbeat, forgotten: seq<string>, now: int, k: nat)
    requires ValidBeat(hb) && Beaten(rec, hb, forgotten, now).Some? && k < |hb.previous| && Clean(hb.previous[k])
    ensures hb.previous[k].id in Ids(Beaten(rec, hb, forgotten, now).value.unresolved) <==>
              RecordedTwice(rec, hb.previous[k].id)
  {
    var joined := if rec.joined.None? then rec.(joined := Some(now)) else rec;
    var accounted, p := AllAccounted(joined, hb.previous, hb.incarnation, now), hb.previous[k];
    assert p in hb.previous;
    CleanIsDischarged(joined, hb.previous, hb.incarnation, now, k);
    if RecordedTwice(rec, p.id) {
      RecordedTwiceStaysUnresolved(joined, hb.previous, hb.incarnation, now, p.id);
    } else {
      assert p.id !in Ids(accounted.unresolved);
    }
    TheRestLeavesTheClean(accounted, hb, forgotten, now, k);
  }

  lemma TheRestLeavesTheClean(rec: Record, hb: Heartbeat, forgotten: seq<string>, now: int, k: nat)
    requires ValidBeat(hb) && k < |hb.previous| && Clean(hb.previous[k])
             && (Running(rec) ==> rec.current.value.id != hb.previous[k].id)
    requires Replaced(rec, hb, now).Some? && AllAdopted(Replaced(rec, hb, now).value, hb.previous, forgotten, now).Some?
    ensures var next := AllAdopted(Replaced(rec, hb, now).value, hb.previous, forgotten, now).value;
            hb.previous[k].id in Ids(next.unresolved) <==> hb.previous[k].id in Ids(rec.unresolved)
  {
    var replaced, id := Replaced(rec, hb, now).value, hb.previous[k].id;
    if rec.current.Some? {
      IdsOfSum(rec.unresolved, [rec.current.value.(state := Unclean, ended := Some(now))]);
    }
    AdoptingAddsNoClean(replaced, hb.previous, forgotten, now, k);
  }

  lemma {:induction false} AdoptingAddsNoClean(rec: Record, previous: seq<Incarnation>, forgotten: seq<string>,
      now: int, k: nat)
    requires k < |previous| && Clean(previous[k]) && Distinct(previous)
    requires AllAdopted(rec, previous, forgotten, now).Some?
    ensures previous[k].id in Ids(AllAdopted(rec, previous, forgotten, now).value.unresolved) <==>
              previous[k].id in Ids(rec.unresolved)
  {
    AdoptingOnlyAdds(rec, previous, forgotten, now);
    if previous[k].id in Ids(AllAdopted(rec, previous, forgotten, now).value.unresolved) {
      AdoptingAddsTheUnclean(rec, previous, forgotten, now, previous[k].id);
    }
  }

  lemma {:induction false} AdoptingOnlyAdds(rec: Record, previous: seq<Incarnation>, forgotten: seq<string>, now: int)
    requires AllAdopted(rec, previous, forgotten, now).Some?
    ensures Ids(rec.unresolved) <= Ids(AllAdopted(rec, previous, forgotten, now).value.unresolved)
    decreases |previous|
  {
    if previous != [] {
      AdoptingOnlyAdds(rec, previous[..|previous| - 1], forgotten, now);
    }
  }

  /** A heartbeat's reports of previous processes tell the record nothing. */
  ghost predicate NothingNew(rec: Record, previous: seq<Incarnation>, forgotten: seq<string>) {
    forall p | p in previous :: if Clean(p) then p.id !in Ids(rec.unresolved) else Knows(rec, p.id) || p.id in forgotten
  }

  /** The fast path skips a heartbeat of the process the record has: it loses nothing exactly when the
      heartbeat's reports are nothing new. Comparing their ids does not show that. */
  lemma SkippingIsHarmlessExactly(rec: Record, hb: Heartbeat, forgotten: seq<string>, now: int)
    requires ValidBeat(hb) && rec.joined.Some? && rec.current.Some? && rec.current.value.id == hb.incarnation
    ensures Beaten(rec, hb, forgotten, now) == Some(rec) <==> NothingNew(rec, hb.previous, forgotten)
  {
    if NothingNew(rec, hb.previous, forgotten) {
      NothingLeftToAccount(rec, hb.previous, hb.incarnation, now);
      NothingLeftToAdopt(rec, hb.previous, forgotten, now);
    } else if Beaten(rec, hb, forgotten, now) == Some(rec) {
      var p :| p in hb.previous
          && !(if Clean(p) then p.id !in Ids(rec.unresolved) else Knows(rec, p.id) || p.id in forgotten);
      if Clean(p) {
        var k :| 0 <= k < |hb.previous| && hb.previous[k] == p;
        CleanIsLeftExactly(rec, hb, forgotten, now, k);
      } else {
        AdoptedIsKnown(rec, hb, forgotten, now, p);
      }
    }
  }

  lemma AdoptedIsKnown(rec: Record, hb: Heartbeat, forgotten: seq<string>, now: int, p: Incarnation)
    requires ValidBeat(hb) && Beaten(rec, hb, forgotten, now).Some? && p in hb.previous && !Clean(p)
    ensures Knows(Beaten(rec, hb, forgotten, now).value, p.id) || p.id in forgotten
  {
    var joined := if rec.joined.None? then rec.(joined := Some(now)) else rec;
    AdoptingKeepsEvidence(Replaced(AllAccounted(joined, hb.previous, hb.incarnation, now), hb, now).value, hb.previous,
      forgotten, now);
  }

  /** A heartbeat repeated on the record it left changes nothing, unless it reports as ended cleanly the
      process it replaced and that process was recorded twice. */
  lemma RepeatedBeatChangesNothingExactly(rec: Record, hb: Heartbeat, forgotten: seq<string>, now: int, later: int)
    requires ValidBeat(hb) && Beaten(rec, hb, forgotten, now).Some?
    ensures var next := Beaten(rec, hb, forgotten, now).value;
            Beaten(next, hb, forgotten, later) == Some(next) <==>
            !(rec.current.Some? && RecordedTwice(rec, rec.current.value.id)
              && ReportedClean(hb.previous, rec.current.value.id))
  {
    var next := Beaten(rec, hb, forgotten, now).value;
    BeatLeavesTheSender(rec, hb, forgotten, now);
    SkippingIsHarmlessExactly(next, hb, forgotten, later);
    forall p | p in hb.previous
      ensures if Clean(p) then p.id in Ids(next.unresolved) <==> RecordedTwice(rec, p.id)
              else Knows(next, p.id) || p.id in forgotten
    {
      if Clean(p) {
        var k :| 0 <= k < |hb.previous| && hb.previous[k] == p;
        CleanIsLeftExactly(rec, hb, forgotten, now, k);
      } else {
        AdoptedIsKnown(rec, hb, forgotten, now, p);
      }
    }
  }

  lemma BeatLeavesTheSender(rec: Record, hb: Heartbeat, forgotten: seq<string>, now: int)
    requires Beaten(rec, hb, forgotten, now).Some?
    ensures var next := Beaten(rec, hb, forgotten, now).value;
            next.joined.Some? && next.current.Some? && next.current.value.id == hb.incarnation
  {
    var joined := if rec.joined.None? then rec.(joined := Some(now)) else rec;
    var accounted := AllAccounted(joined, hb.previous, hb.incarnation, now);
    AccountsKeepEvidence(joined, hb.previous, hb.incarnation, now);
    ReplacingKeepsEvidence(accounted, hb, now);
    AdoptingKeepsEvidence(Replaced(accounted, hb, now).value, hb.previous, forgotten, now);
  }

  /** Two heartbeats with the same ids: the first reports a process as crashed, the second as ended
      cleanly. The handler takes both. The fast path takes the second for a repeat, and leaves the process
      unresolved. (A shunt proxy reads what it reports once, as it starts, and does not send the two.) */
  lemma SameIdsAreNoRepeat() returns (rec: Record, first: Heartbeat, second: Heartbeat)
    ensures ValidBeat(first) && ValidBeat(second) && first.incarnation == second.incarnation
    ensures |first.previous| == |second.previous| == 1 && first.previous[0].id == second.previous[0].id
    ensures var next := Beaten(rec, first, [], 0);
            next.Some? && Running(next.value) && next.value.current.value.id == second.incarnation
              && Beaten(next.value, second, [], 1) != next
  {
    rec := NEW;
    first := Heartbeat("b", 0, [Incarnation("a", 0, None, Unclean, 0, "", "")]);
    second := Heartbeat("b", 0, [Incarnation("a", 0, None, Retired, 0, "", "")]);
    var next := Beaten(rec, first, [], 0);
    assert AllAccounted(NEW.(joined := Some(0)), first.previous, "b", 0) == NEW.(joined := Some(0));
    var found := Incarnation("a", 0, Some(0), Unclean, 0, "", "");
    var replaced := Record(Some(0), Some(Incarnation("b", 0, None, Active, 0, "", "")), [], [], false);
    assert Replaced(NEW.(joined := Some(0)), first, 0) == Some(replaced);
    assert first.previous[..0] == [] && "a"[0] != "b"[0] && !Knows(replaced, "a");
    assert replaced.unresolved + [found] == [found];
    assert next == Some(replaced.(unresolved := [found]));
    assert second.previous[0] in second.previous && found in next.value.unresolved;
    SkippingIsHarmlessExactly(next.value, second, [], 1);
  }

  // ---------------------------------------------------------------------------------------------
  // Over the whole life of a record.

  datatype Step = Change(e: Edit) | Forget(live: bool)

  /** The record after a step; none where the step is refused. A heartbeat makes a missing record. */
  function Stepped(stored: Option<Record>, step: Step): Option<Option<Record>> {
    match step
    case Change(e) =>
      if stored.None? && !e.Beat? then None
      else
        var next := Edited(if stored.Some? then stored.value else NEW, e);
        if next.Some? then Some(next) else None
    case Forget(live) => if stored.Some? && Forgettable(stored.value, live) then Some(None) else None
  }

  datatype Entry = Entry(stored: Option<Record>, step: Step)

  /** The writes of one member's record, in order. */
  ghost predicate Legal(log: seq<Entry>) {
    forall i | 0 <= i < |log| :: Follows(log, i)
  }

  ghost predicate Follows(log: seq<Entry>, i: nat)
    requires i < |log|
  {
    Stepped(Before(log, i), log[i].step) == Some(log[i].stored)
  }

  /** The record before the i-th write. */
  function Before(log: seq<Entry>, i: nat): Option<Record>
    requires i <= |log|
  {
    if i == 0 then None else log[i - 1].stored
  }

  function EvidenceOf(stored: Option<Record>): set<string> {
    if stored.Some? then Evidence(stored.value) else {}
  }

  lemma StepKeepsEvidence(stored: Option<Record>, step: Step, id: string)
    requires Stepped(stored, step).Some? && id in EvidenceOf(stored)
    ensures id in EvidenceOf(Stepped(stored, step).value) || (step.Change? && Discharges(step.e, id))
  {
    if step.Change? {
      EditKeepsEvidence(stored.value, step.e, id);
    }
  }

  /** Evidence is never lost: an incarnation that may have work out still counts at any later time,
      unless some write between discharged it. */
  lemma {:induction false} EvidenceIsNeverLost(log: seq<Entry>, i: nat, j: nat, id: string)
    requires Legal(log) && i <= j <= |log| && id in EvidenceOf(Before(log, i))
    requires forall k | i <= k < j :: !(log[k].step.Change? && Discharges(log[k].step.e, id))
    ensures id in EvidenceOf(Before(log, j))
    decreases j
  {
    if i < j {
      EvidenceIsNeverLost(log, i, j - 1, id);
      assert Follows(log, j - 1);
      StepKeepsEvidence(Before(log, j - 1), log[j - 1].step, id);
    }
  }

  /** At most eight incarnations are ever unresolved. */
  lemma {:induction false} UnresolvedIsBounded(log: seq<Entry>, i: nat)
    requires Legal(log) && i <= |log|
    ensures Before(log, i).Some? ==> |Before(log, i).value.unresolved| <= MAX_UNRESOLVED
  {
    if i > 0 {
      UnresolvedIsBounded(log, i - 1);
      assert Follows(log, i - 1);
      var was, step := Before(log, i - 1), log[i - 1].step;
      if step.Change? {
        EditIsBounded(if was.Some? then was.value else NEW, step.e);
      }
    }
  }

  /** A proxy is forgotten only once nothing of it may have work out. */
  lemma ForgottenLeavesNothing(log: seq<Entry>, i: nat)
    requires Legal(log) && i < |log| && log[i].step.Forget?
    ensures EvidenceOf(Before(log, i)) == {} && log[i].stored.None?
  {
    assert Follows(log, i);
  }

  // ---------------------------------------------------------------------------------------------
  // The record as it is changed, and the store.

  class MemberRecord {
    var joined: Option<int>
    var current: Option<Incarnation>
    var unresolved: seq<Incarnation>
    var resolved: seq<Incarnation>
    var retireRequested: bool

    function View(): Record
      reads this
    {
      Record(joined, current, unresolved, resolved, retireRequested)
    }

    constructor (rec: Record)
      ensures View() == rec
    {
      joined, current, unresolved, resolved, retireRequested :=
        rec.joined, rec.current, rec.unresolved, rec.resolved, rec.retireRequested;
    }

    method AddUnresolvedHere(inc: Incarnation) returns (ok: bool)
      modifies this
      ensures ok <==> AddUnresolved(old(View()), inc).Some?
      ensures ok ==> View() == AddUnresolved(old(View()), inc).value
    {
      if |unresolved| >= MAX_UNRESOLVED {
        return false;
      }
      unresolved := unresolved + [inc];
      return true;
    }

    /** The previous processes' own accounts, first. */
    method Account(previous: seq<Incarnation>, sender: string, now: int)
      modifies this
      ensures View() == AllAccounted(old(View()), previous, sender, now)
    {
      for i := 0 to |previous|
        invariant View() == AllAccounted(old(View()), previous[..i], sender, now)
      {
        var p := previous[i];
        assert previous[..i + 1][..i] == previous[..i];
        if p.id == sender {
          continue;
        }
        if current.Some? && current.value.id == p.id && current.value.state == Active {
          var cur := current.value;
          if Clean(p) {
            current := Some(cur.(state := Retired, ended := Some(if p.ended.Some? then p.ended.value else now)));
          } else {
            current := Some(cur.(uncertain := if cur.uncertain >= p.uncertain then cur.uncertain else p.uncertain));
          }
        } else if Clean(p) {
          unresolved := Without(unresolved, p.id);
        }
      }
      assert previous[..|previous|] == previous;
    }

    /** The evidence only the proxy held, last. */
    method Adopt(previous: seq<Incarnation>, forgotten: seq<string>, now: int) returns (ok: bool)
      modifies this
      ensures ok <==> AllAdopted(old(View()), previous, forgotten, now).Some?
      ensures ok ==> View() == AllAdopted(old(View()), previous, forgotten, now).value
    {
      for i := 0 to |previous|
        invariant AllAdopted(old(View()), previous[..i], forgotten, now) == Some(View())
      {
        var p := previous[i];
        assert previous[..i + 1][..i] == previous[..i];
        if Knows(View(), p.id) || p.id in forgotten {
          continue;
        }
        if p.state == Unclean || p.uncertain > 0 {
          ok := AddUnresolvedHere(Incarnation(p.id, p.started, Some(if p.ended.Some? then p.ended.value else now),
            Unclean, p.uncertain, "", ""));
          if !ok {
            RefusedOnce(old(View()), previous, i + 1, forgotten, now);
            return false;
          }
        }
      }
      assert previous[..|previous|] == previous;
      return true;
    }

    method TakeHeartbeat(hb: Heartbeat, forgotten: seq<string>, now: int) returns (ok: bool)
      modifies this
      ensures ok <==> Beaten(old(View()), hb, forgotten, now).Some?
      ensures ok ==> View() == Beaten(old(View()), hb, forgotten, now).value
    {
      if joined.None? {
        joined := Some(now);
      }
      Account(hb.previous, hb.incarnation, now);
      if current.Some? && current.value.id != hb.incarnation {
        var cur := current.value;
        current := None;
        if cur.state == Active {
          ok := AddUnresolvedHere(cur.(state := Unclean, ended := Some(now)));
          if !ok {
            return false;
          }
        }
      }
      if current.None? {
        current, retireRequested := Some(Incarnation(hb.incarnation, hb.started, None, Active, 0, "", "")), false;
      }
      ok := Adopt(hb.previous, forgotten, now);
    }

    method Apply(e: Edit) returns (ok: bool)
      modifies this
      ensures ok <==> Edited(old(View()), e).Some?
      ensures ok ==> View() == Edited(old(View()), e).value
    {
      match e
      case Beat(hb, forgotten, now) => ok := TakeHeartbeat(hb, forgotten, now);
      case Retire(incarnation, uncertain, now) => ok := TakeRetirement(incarnation, uncertain, now);
      case RequestRetire =>
        ok := Running(View());
        if ok {
          retireRequested := true;
        }
      case Resolve(_, _, _, _, _) => ok := TakeResolution(e);
    }

    method TakeRetirement(incarnation: string, uncertain: nat, now: int) returns (ok: bool)
      modifies this
      ensures ok <==> Retiring(old(View()), incarnation, uncertain, now).Some?
      ensures ok ==> View() == Retiring(old(View()), incarnation, uncertain, now).value
    {
      if current.Some? && current.value.id == incarnation {
        var cur := current.value;
        if cur.state == Retired {
          return true;
        }
        cur := cur.(ended := Some(now), uncertain := uncertain);
        if uncertain > 0 {
          ok := AddUnresolvedHere(cur.(state := Unclean));
          if !ok {
            return false;
          }
          current := None;
        } else {
          current := Some(cur.(state := Retired));
        }
        retireRequested := false;
        return true;
      }
      var i := IndexOf(unresolved, incarnation);
      if i < |unresolved| {
        if uncertain == 0 {
          unresolved := unresolved[..i] + unresolved[i + 1..];
        } else {
          unresolved := unresolved[i := unresolved[i].(uncertain := uncertain, ended := Some(now))];
        }
        return true;
      }
      return Knows(View(), incarnation);
    }

    method TakeResolution(e: Edit) returns (ok: bool)
      requires e.Resolve?
      modifies this
      ensures ok <==> Resolving(old(View()), e).Some?
      ensures ok ==> View() == Resolving(old(View()), e).value
    {
      var i := IndexOf(unresolved, e.incarnation);
      if i < |unresolved| {
        var inc := unresolved[i].(state := Resolved, attestation := e.attestation, resolvedBy := e.actor);
        unresolved := unresolved[..i] + unresolved[i + 1..];
        resolved := Kept(resolved + [inc]);
        return true;
      }
      if current.Some? && current.value.id == e.incarnation && current.value.state == Active && !e.live {
        var inc := current.value.(ended := Some(e.now), state := Resolved, attestation := e.attestation,
            resolvedBy := e.actor);
        current := None;
        resolved := Kept(resolved + [inc]);
        return true;
      }
      return false;
    }
  }

  /** A refusal on the way is the refusal of the whole. */
  lemma {:induction false} RefusedOnce(rec: Record, previous: seq<Incarnation>, i: nat, forgotten: seq<string>,
      now: int)
    requires i <= |previous| && AllAdopted(rec, previous[..i], forgotten, now).None?
    ensures AllAdopted(rec, previous, forgotten, now).None?
    decreases |previous|
  {
    if i < |previous| {
      var before := previous[..|previous| - 1];
      assert before[..i] == previous[..i];
      RefusedOnce(rec, before, i, forgotten, now);
    } else {
      assert previous[..i] == previous;
    }
  }

  function Stored(log: seq<Entry>): Option<Record> {
    if log == [] then None else log[|log| - 1].stored
  }

  lemma Extends(log: seq<Entry>, e: Entry)
    requires Legal(log) && Stepped(Stored(log), e.step) == Some(e.stored)
    ensures Legal(log + [e])
  {
    var more := log + [e];
    forall i | 0 <= i < |more| ensures Follows(more, i) {
      if i < |log| {
        assert Follows(log, i);
        assert Before(more, i) == Before(log, i);
      }
    }
  }

  /** The member's key in the store. `modified` is the revision of its last write, 0 where it is
      missing; between any two steps of one writer, others write. */
  class MemberStore {
    var stored: Option<Record>
    var modified: nat
    var revision: nat
    var live: bool             // the member's lease has a key
    var forgotten: seq<string> // what the last forget of it proved ended
    ghost var log: seq<Entry>

    ghost predicate Valid()
      reads this
    {
      Legal(log) && stored == Stored(log) && revision == |log| && modified == if stored.Some? then revision else 0
    }

    constructor ()
      ensures Valid() && log == []
    {
      stored, modified, revision, live, forgotten, log := None, 0, 0, false, [], [];
    }

    method OthersWrite()
      requires Valid()
      modifies this
      ensures Valid() && old(log) <= log
    {
    }

    /** Write a record, or none, compared on the revision it was read at. False when another wrote
        first; the answer may also be lost, whether or not the write landed. */
    method Write(next: Option<Record>, ghost step: Step, read: nat) returns (r: Option<bool>)
      requires Valid() && (modified == read ==> Stepped(stored, step) == Some(next))
      modifies this
      ensures Valid() && old(log) <= log
      ensures r == Some(true) ==> log == old(log) + [Entry(next, step)] && old(modified) == read
      ensures log == old(log) || log == old(log) + [Entry(next, step)]
    {
      if * {
        return None;
      }
      if modified != read {
        return Some(false);
      }
      Extends(log, Entry(next, step));
      log := log + [Entry(next, step)];
      stored, revision := next, revision + 1;
      modified := if next.Some? then revision else 0;
      if * {
        return None;
      }
      return Some(true);
    }
  
    /** change: read the record, apply the edit, write it back over the revision read. Whether the
        process is live is read anew on each attempt. */
    method Change(e: Edit) returns (r: Changed, ghost at: nat, ghost applied: Edit)
      requires Valid()
      modifies this
      ensures Valid() && old(log) <= log
      ensures r == Done ==>
                && |old(log)| <= at < |log| && log[at].step == Step.Change(applied)
                && (applied == e || (e.Resolve? && applied.Resolve? && applied == e.(live := applied.live)))
      ensures r == Refused ==>
                && |old(log)| <= at <= |log| && Stepped(Before(log, at), Step.Change(applied)).None?
                && (applied == e || (e.Resolve? && applied.Resolve? && applied == e.(live := applied.live)))
      ensures r == Missing ==> |old(log)| <= at <= |log| && Before(log, at).None? && !e.Beat?
    {
      at, applied := 0, e;
      for attempt := 0 to 8
        invariant Valid() && old(log) <= log
      {
        OthersWrite();
        if * {
          return Unavailable, 0, e;
        }
        var read, was := modified, stored;
        ghost var seen := |log|;
        if was.None? && !e.Beat? {
          return Missing, seen, e;
        }
        var mine := e;
        if e.Resolve? {
          var live: bool := *;
          mine := e.(live := live);
        }
        var wrote := Attempt(was, mine, read);
        match wrote {
          case Refused => return Refused, seen, mine;
          case Done => return Done, |log| - 1, mine;
          case Unavailable => return Unavailable, 0, e;
          case Missing => // another wrote first
        }
      }
      return Unavailable, 0, e;
    }

    /** Apply the edit to the record as read and write it, others writing first; Missing when one did. */
    method Attempt(was: Option<Record>, e: Edit, read: nat) returns (r: Changed)
      requires Valid() && was == stored && read == modified && (was.Some? || e.Beat?)
      modifies this
      ensures Valid() && old(log) <= log
      ensures r == Done ==> |log| > |old(log)| && log[|log| - 1].step == Step.Change(e)
      ensures r == Refused ==> log == old(log) && Stepped(was, Step.Change(e)).None?
    {
      var m := new MemberRecord(if was.Some? then was.value else NEW);
      var ok := m.Apply(e);
      if !ok {
        return Refused;
      }
      OthersWrite();
      var wrote := Write(Some(m.View()), Step.Change(e), read);
      if wrote.None? {
        return Unavailable;
      }
      return if wrote.value then Done else Missing;
    }

    /** Forget the member, once nothing of it may have work out and it is not live. Both are read anew on
        each attempt and compared in the write, which leaves the list of what it proved ended. */
    method ForgetMember() returns (r: Changed, ghost at: nat)
      requires Valid()
      modifies this
      ensures Valid() && old(log) <= log
      ensures r == Done ==>
                && |old(log)| <= at == |log| - 1 && log[at] == Entry(None, Forget(false))
                && Before(log, at).Some? && Evidence(Before(log, at).value) == {}
                && forgotten == EndedIds(Before(log, at).value)
      ensures r == Refused ==> |old(log)| <= at <= |log| && (live || EvidenceOf(Before(log, at)) != {})
      ensures r == Missing ==> |old(log)| <= at <= |log| && Before(log, at).None?
    {
      at := 0;
      for attempt := 0 to 8
        invariant Valid() && old(log) <= log
      {
        OthersWrite();
        if * {
          return Unavailable, 0;
        }
        ghost var seen := |log|;
        if stored.None? {
          return Missing, seen;
        }
        var read, was := modified, stored.value;
        OthersWrite();
        if live {
          return Refused, seen;
        }
        if Running(was) || was.unresolved != [] {
          assert was.unresolved != [] ==> was.unresolved[0].id in Evidence(was);
          return Refused, seen;
        }
        OthersWrite();
        var wrote := WriteForget(was, read);
        if wrote.None? {
          return Unavailable, 0;
        }
        if wrote.value {
          return Done, |log| - 1;
        }
      }
      return Unavailable, 0;
    }

    /** Delete the record as read, if it stands and the member has no lease. */
    method WriteForget(was: Record, read: nat) returns (r: Option<bool>)
      requires Valid() && Forgettable(was, false) && (modified == read ==> stored == Some(was))
      modifies this
      ensures Valid() && old(log) <= log
      ensures r == Some(true) ==>
                log == old(log) + [Entry(None, Forget(false))] && old(stored) == Some(was) && forgotten == EndedIds(was)
    {
      if live {
        return Some(false);
      }
      r := Write(None, Forget(false), read);
      if r == Some(true) {
        forgotten := EndedIds(was);
      }
    }
  }

  datatype Changed = Done | Missing | Refused | Unavailable
}
