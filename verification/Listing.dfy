/** The diff of two bucket listings (internal/control/backend.go): a lister walks a paged listing one
page at a time, and `MissingOn` walks a source's and a primary's in step, confirming with HEADs each
key they disagree on while clients go on writing. */
module Listing {
  import opened Basics

  newtype Byte = x: int | 0 <= x < 256

  type Key = seq<Byte>

  datatype Entry = Entry(key: Key, size: nat)

  // ---------------------------------------------------------------------------------------------
  // The order of keys: bytes, as listings sort them.

  predicate Less(a: Key, b: Key) {
    if b == [] then false
    else if a == [] then true
    else if a[0] != b[0] then a[0] < b[0]
    else Less(a[1..], b[1..])
  }

  lemma {:induction false} LessIsTransitive(a: Key, b: Key, c: Key)
    requires Less(a, b) && Less(b, c)
    ensures Less(a, c)
  {
    if a != [] && a[0] == b[0] == c[0] {
      LessIsTransitive(a[1..], b[1..], c[1..]);
    }
  }

  lemma {:induction false} LessIsStrict(a: Key)
    ensures !Less(a, a)
  {
    if a != [] {
      LessIsStrict(a[1..]);
    }
  }

  lemma {:induction false} LessIsTotal(a: Key, b: Key)
    ensures a == b || Less(a, b) || Less(b, a)
  {
    if a != [] && b != [] && a[0] == b[0] {
      LessIsTotal(a[1..], b[1..]);
      assert a == [a[0]] + a[1..] && b == [b[0]] + b[1..];
    }
  }

  ghost predicate Sorted(keys: seq<Key>) {
    forall i, j | 0 <= i < j < |keys| :: Less(keys[i], keys[j])
  }

  // ---------------------------------------------------------------------------------------------
  // A listing, page by page.

  function Concat(pages: seq<seq<Entry>>): seq<Entry> {
    if pages == [] then [] else pages[0] + Concat(pages[1..])
  }

  /** The keys of these entries that the filter keeps, in order. */
  function Kept(entries: seq<Entry>, keep: Key -> bool): seq<Key> {
    if entries == [] then [] else (if keep(entries[0].key) then [entries[0].key] else []) + Kept(entries[1..], keep)
  }

  function Sizes(entries: seq<Entry>, keep: Key -> bool): nat {
    if entries == [] then 0 else (if keep(entries[0].key) then entries[0].size else 0) + Sizes(entries[1..], keep)
  }

  /** The kept keys are exactly the listed ones the filter takes. */
  lemma {:induction false} KeptIsExact(entries: seq<Entry>, keep: Key -> bool, k: Key)
    ensures k in Kept(entries, keep) <==> keep(k) && exists e | e in entries :: e.key == k
  {
    if entries != [] {
      KeptIsExact(entries[1..], keep, k);
      assert entries == [entries[0]] + entries[1..];
    }
  }

  ghost predicate Ascending(entries: seq<Entry>) {
    forall i, j | 0 <= i < j < |entries| :: Less(entries[i].key, entries[j].key)
  }

  /** However a sorted listing is cut into pages and filtered, its kept keys come in order. */
  lemma {:induction false} KeptIsSorted(entries: seq<Entry>, keep: Key -> bool)
    requires Ascending(entries)
    ensures Sorted(Kept(entries, keep))
  {
    if entries != [] {
      var rest := entries[1..];
      KeptIsSorted(rest, keep);
      forall k | k in Kept(rest, keep) ensures Less(entries[0].key, k) {
        KeptIsExact(rest, keep, k);
        var i :| 0 <= i < |rest| && rest[i].key == k;
        assert entries[i + 1].key == k;
      }
      var kept := Kept(entries, keep);
      forall i, j | 0 <= i < j < |kept| ensures Less(kept[i], kept[j]) {
        if keep(entries[0].key) {
          assert kept[j] == Kept(rest, keep)[j - 1] && kept[j] in Kept(rest, keep);
        }
      }
    }
  }

  datatype Got = Got(key: Key) | End | Failed

  class Lister {
    const pages: seq<seq<Entry>>   // what the backend answers, page by page
    const keep: Key -> bool
    var page: seq<Entry>
    var next: nat                  // the token: the page to ask for
    var done: bool
    var objects: nat
    var bytes: nat

    ghost predicate Valid()
      reads this
    {
      next <= |pages| && (done <==> next == |pages|)
    }

    /** The entries not passed yet. */
    ghost function Rest(): seq<Entry>
      requires Valid()
      reads this
    {
      page + Concat(pages[next..])
    }

    ghost function Left(): seq<Key>
      requires Valid()
      reads this
    {
      Kept(Rest(), keep)
    }

    /** What was counted and what is left to count. */
    ghost function Tally(): (int, int)
      requires Valid()
      reads this
    {
      (objects + |Left()|, bytes + Sizes(Rest(), keep))
    }

    constructor (pages: seq<seq<Entry>>, keep: Key -> bool)
      requires pages != []
      ensures Valid() && Left() == Kept(Concat(pages), keep) && objects == 0 && bytes == 0
      ensures this.keep == keep
    {
      this.pages, this.keep := pages, keep;
      page, next, done, objects, bytes := [], 0, false, 0, 0;
      new;
      assert pages[0..] == pages && [] + Concat(pages) == Concat(pages);
    }

    /** Fetch pages until one has entries, or the listing ends. */
    method Fill() returns (got: bool)
      requires Valid()
      modifies this`page, this`next, this`done
      ensures Valid() && Rest() == old(Rest())
      ensures got && page == [] ==> Rest() == []
    {
      while page == [] && !done
        invariant Valid() && Rest() == old(Rest())
        decreases |pages| - next
      {
        if * {
          return false;
        }
        assert pages[next..] == [pages[next]] + pages[next + 1..];
        page, next := pages[next], next + 1;
        done := next == |pages|;
      }
      assert done ==> pages[next..] == [];
      return true;
    }

    /** The next kept key. */
    method NextKey() returns (got: Got)
      requires Valid()
      modifies this
      ensures Valid() && Tally() == old(Tally())
      ensures got.Got? ==> old(Left()) == [got.key] + Left()
      ensures got.End? ==> old(Left()) == [] == Left() && objects == old(objects) && bytes == old(bytes)
    {
      while true
        invariant Valid() && Left() == old(Left()) && objects == old(objects) && bytes == old(bytes)
        invariant Sizes(Rest(), keep) == old(Sizes(Rest(), keep))
        decreases |Rest()|
      {
        var ok := Fill();
        if !ok {
          return Failed;
        }
        if page == [] {
          return End;
        }
        var e := page[0];
        ghost var rest := Rest();
        page := page[1..];
        assert rest == [e] + Rest();
        if keep(e.key) {
          objects, bytes := objects + 1, bytes + e.size;
          return Got(e.key);
        }
      }
    }
  }

  // ---------------------------------------------------------------------------------------------
  // The two buckets, while clients go on.

  datatype Moment = Moment(source: set<Key>, primary: set<Key>)

  /** The source only loses keys: nothing writes to it once a move is migrating. */
  ghost predicate Shrinking(history: seq<Moment>) {
    history != [] && forall i, j | 0 <= i <= j < |history| :: history[j].source <= history[i].source
  }

  /** At one instant the source held the key and the primary did not. */
  ghost predicate WasMissing(history: seq<Moment>, key: Key) {
    exists i | 0 <= i < |history| :: key in history[i].source && key !in history[i].primary
  }

  /** At some instant the primary held the key, or the source did not. */
  ghost predicate WasNot(history: seq<Moment>, key: Key) {
    exists i | 0 <= i < |history| :: key !in history[i].source || key in history[i].primary
  }

  class Buckets {
    var source: set<Key>
    var primary: set<Key>
    ghost var history: seq<Moment>

    ghost predicate Valid()
      reads this
    {
      Shrinking(history) && history[|history| - 1] == Moment(source, primary)
    }

    constructor (source: set<Key>, primary: set<Key>)
      ensures Valid() && history == [Moment(source, primary)]
    {
      this.source, this.primary := source, primary;
      history := [Moment(source, primary)];
    }

    /** Clients write and delete, between any two of the walk's requests. */
    method ClientsWrite()
      requires Valid()
      modifies this
      ensures Valid() && old(history) <= history
    {
    }

    /** stillMissing: the primary is asked first. None on an error. */
    method StillMissing(key: Key) returns (r: Option<bool>)
      requires Valid()
      modifies this
      ensures Valid() && old(history) <= history
      ensures r == Some(true) ==> WasMissing(history, key)
      ensures r == Some(false) ==> WasNot(history, key)
    {
      ClientsWrite();
      if * {
        return None;
      }
      var onPrimary := key in primary;
      ghost var asked := |history| - 1;
      assert history[asked] == Moment(source, primary);
      if onPrimary {
        return Some(false);
      }
      ClientsWrite();
      if * {
        return None;
      }
      assert history[|history| - 1].source <= history[asked].source;
      assert history[|history| - 1] == Moment(source, primary);
      return Some(key in source);
    }
  }

  // ---------------------------------------------------------------------------------------------
  // The diff.

  /** The keys of one listing that another does not have, in order. */
  function Absent(source: seq<Key>, primary: seq<Key>): seq<Key> {
    if source == [] then []
    else (if source[0] in primary then [] else [source[0]]) + Absent(source[1..], primary)
  }

  /** A key the listings disagreed on, and what the HEADs said of it. */
  datatype Judged = Judged(key: Key, missing: bool)

  function KeysOf(judged: seq<Judged>): seq<Key> {
    seq(|judged|, i requires 0 <= i < |judged| => judged[i].key)
  }

  function Confirmed(judged: seq<Judged>): seq<Key> {
    if judged == [] then []
    else
      var n := |judged| - 1;
      Confirmed(judged[..n]) + (if judged[n].missing then [judged[n].key] else [])
  }

  ghost predicate Witnessed(judged: seq<Judged>, history: seq<Moment>) {
    forall j | j in judged :: if j.missing then WasMissing(history, j.key) else WasNot(history, j.key)
  }

  lemma WitnessedLater(judged: seq<Judged>, history: seq<Moment>, more: seq<Moment>)
    requires Witnessed(judged, history) && history <= more
    ensures Witnessed(judged, more)
  {
    forall j | j in judged ensures if j.missing then WasMissing(more, j.key) else WasNot(more, j.key) {
      if j.missing {
        var i :| 0 <= i < |history| && j.key in history[i].source && j.key !in history[i].primary;
        assert more[i] == history[i];
      } else {
        var i :| 0 <= i < |history| && (j.key !in history[i].source || j.key in history[i].primary);
        assert more[i] == history[i];
      }
    }
  }

  /** Where the walk of the primary stands: the key it holds, and those not passed. */
  ghost function Ahead(d: Got, left: seq<Key>): seq<Key> {
    if d.Got? then [d.key] + left else left
  }

  /** The keys passed on the primary tell nothing of the source's keys to come. */
  ghost predicate InStep(source: seq<Key>, primary: seq<Key>, ahead: seq<Key>) {
    Sorted(source) && Sorted(ahead) && forall k | k in source :: k in primary <==> k in ahead
  }

  lemma PassingKeepsStep(source: seq<Key>, primary: seq<Key>, ahead: seq<Key>)
    requires InStep(source, primary, ahead) && source != [] && ahead != [] && Less(ahead[0], source[0])
    ensures InStep(source, primary, ahead[1..])
  {
    forall k | k in source ensures k in ahead <==> k in ahead[1..] {
      var i :| 0 <= i < |source| && source[i] == k;
      if i > 0 {
        LessIsTransitive(ahead[0], source[0], k);
      }
      LessIsStrict(k);
      assert ahead == [ahead[0]] + ahead[1..];
    }
  }

  /** Once the primary's walk is not behind, the key is there only as the one it holds. */
  lemma NotBehindDecides(source: seq<Key>, primary: seq<Key>, ahead: seq<Key>)
    requires InStep(source, primary, ahead) && source != [] && (ahead != [] ==> !Less(ahead[0], source[0]))
    ensures source[0] in primary <==> ahead != [] && ahead[0] == source[0]
    ensures InStep(source[1..], primary, ahead)
  {
    assert forall i | 0 < i < |ahead| :: Less(ahead[0], ahead[i]);
    assert source[0] in ahead ==> ahead[0] == source[0];
  }

  /** The keys missing, and the source's objects and bytes as far as it was walked. */
  datatype Result = Missing(keys: seq<Key>, objects: nat, bytes: nat) | Error(objects: nat, bytes: nat)

  /** The walk so far: the keys judged, then what is left of the source, are the whole diff. */
  ghost predicate Walked(judged: seq<Judged>, left: seq<Key>, source: seq<Key>, primary: seq<Key>) {
    KeysOf(judged) + Absent(left, primary) == Absent(source, primary)
  }

  lemma PresentKeyIsPassed(judged: seq<Judged>, key: Key, left: seq<Key>, source: seq<Key>, primary: seq<Key>)
    requires Walked(judged, [key] + left, source, primary) && key in primary
    ensures Walked(judged, left, source, primary)
  {
    assert ([key] + left)[1..] == left;
  }

  lemma AbsentKeyIsJudged(judged: seq<Judged>, key: Key, missing: bool, left: seq<Key>, source: seq<Key>,
      primary: seq<Key>)
    requires Walked(judged, [key] + left, source, primary) && key !in primary
    ensures Walked(judged + [Judged(key, missing)], left, source, primary)
    ensures Confirmed(judged + [Judged(key, missing)]) == Confirmed(judged) + (if missing then [key] else [])
  {
    assert ([key] + left)[1..] == left;
    assert KeysOf(judged + [Judged(key, missing)]) == KeysOf(judged) + [key];
    assert (judged + [Judged(key, missing)])[..|judged|] == judged;
  }

  /** What a walk may answer: the keys the HEADs confirmed, of a beginning of the diff of the two
      listings; of all of it, unless the limit was reached. */
  ghost predicate Answers(keys: seq<Key>, judged: seq<Judged>, source: seq<Key>, primary: seq<Key>,
      history: seq<Moment>, limit: int)
  {
    && Confirms(keys, judged, source, primary, history)
    && (|keys| < limit ==> KeysOf(judged) == Absent(source, primary))
    && |keys| <= Max(limit, 1)
  }

  ghost predicate Confirms(keys: seq<Key>, judged: seq<Judged>, source: seq<Key>, primary: seq<Key>,
      history: seq<Moment>)
  {
    keys == Confirmed(judged) && Witnessed(judged, history) && KeysOf(judged) <= Absent(source, primary)
  }

  /** The diff: which of the source's kept keys the primary does not have, up to a limit. What is
      judged is the diff of the two listings, in order, from its start: all of it, unless the limit was
      reached. What is returned is what the HEADs confirmed. */
  method MissingOn(src: Lister, dst: Lister, buckets: Buckets, limit: int)
      returns (r: Result, ghost judged: seq<Judged>)
    requires src != dst && src.Valid() && dst.Valid() && buckets.Valid() && Sorted(src.Left()) && Sorted(dst.Left())
    modifies src, dst, buckets
    ensures buckets.Valid() && old(buckets.history) <= buckets.history
    ensures r.Missing? ==> Answers(r.keys, judged, old(src.Left()), old(dst.Left()), buckets.history, limit)
    ensures src.Valid() && src.Tally() == old(src.Tally()) && (r.objects, r.bytes) == (src.objects, src.bytes)
    ensures r.Missing? && |r.keys| < limit ==> src.Left() == []
  {
    ghost var source, primary := src.Left(), dst.Left();
    judged := [];
    var missing := [];
    var d := Begin(src, dst, buckets);
    if d.Failed? {
      return Error(src.objects, src.bytes), judged;
    }
    var step := Passed;
    while !step.Broke? && !step.Over? && (missing == [] || |missing| < limit)
      invariant src.Valid() && src.Tally() == old(src.Tally()) && buckets.Valid()
                && old(buckets.history) <= buckets.history
      invariant !step.Broke? ==> !d.Failed? && Walking(src, dst, buckets, d, judged, missing, source, primary)
      invariant !step.Broke? ==>
                  Confirms(missing, judged, source, primary, buckets.history) && |missing| <= Max(limit, 1)
      invariant step.Over? ==> KeysOf(judged) == Absent(source, primary) && src.Left() == []
      decreases !step.Broke? && !step.Over?, |src.Left()|
    {
      step, d, missing, judged := Round(src, dst, buckets, d, judged, missing, source, primary);
    }
    if step.Broke? {
      return Error(src.objects, src.bytes), judged;
    }
    return Missing(missing, src.objects, src.bytes), judged;
  }

  /** The primary's first key. */
  method Begin(src: Lister, dst: Lister, buckets: Buckets) returns (d: Got)
    requires src != dst && src.Valid() && dst.Valid() && buckets.Valid() && Sorted(src.Left()) && Sorted(dst.Left())
    modifies dst
    ensures !d.Failed? ==> Walking(src, dst, buckets, d, [], [], src.Left(), old(dst.Left()))
    ensures Confirms([], [], src.Left(), old(dst.Left()), buckets.history)
  {
    ghost var primary := dst.Left();
    d := dst.NextKey();
    if !d.Failed? {
      assert Ahead(d, dst.Left()) == primary;
      WalkBegins(src.Left(), primary);
    }
  }

  lemma WalkBegins(source: seq<Key>, primary: seq<Key>)
    ensures Walked([], source, source, primary)
  {
    assert KeysOf([]) + Absent(source, primary) == Absent(source, primary);
  }

  datatype Step = Passed | Found | Over | Broke

  ghost predicate Walking(src: Lister, dst: Lister, buckets: Buckets, d: Got, judged: seq<Judged>, missing: seq<Key>,
      source: seq<Key>, primary: seq<Key>)
    reads src, dst, buckets
  {
    && src != dst && src.Valid() && dst.Valid() && buckets.Valid()
    && !d.Failed? && (d.End? ==> dst.Left() == []) && InStep(src.Left(), primary, Ahead(d, dst.Left()))
    && Walked(judged, src.Left(), source, primary) && missing == Confirmed(judged) && Witnessed(judged, buckets.history)
  }

  /** One key of the source. */
  method Round(src: Lister, dst: Lister, buckets: Buckets, from: Got, ghost judged: seq<Judged>, missing: seq<Key>,
      ghost source: seq<Key>, ghost primary: seq<Key>)
    returns (step: Step, d: Got, missing': seq<Key>, ghost judged': seq<Judged>)
    requires Walking(src, dst, buckets, from, judged, missing, source, primary)
    modifies src, dst, buckets
    ensures src.Valid() && src.Tally() == old(src.Tally()) && buckets.Valid() && old(buckets.history) <= buckets.history
    ensures !step.Broke? ==> !d.Failed? && Walking(src, dst, buckets, d, judged', missing', source, primary)
    ensures step.Passed? || step.Found? ==> |src.Left()| < |old(src.Left())|
    ensures !step.Broke? ==> Confirms(missing', judged', source, primary, buckets.history)
    ensures step.Over? ==> missing' == missing && KeysOf(judged') == Absent(source, primary) && src.Left() == []
    ensures step.Found? ==> |missing'| == |missing| + 1
    ensures step.Passed? ==> missing' == missing
  {
    judged', missing' := judged, missing;
    var s, present;
    s, d, present := NextPair(src, dst, from, primary);
    if s.Failed? || d.Failed? {
      return Broke, d, missing, judged;
    }
    if s.End? {
      WalkedAll(judged, source, primary);
      return Over, d, missing, judged;
    }
    if present {
      PresentKeyIsPassed(judged, s.key, src.Left(), source, primary);
      return Passed, d, missing, judged;
    }
    var confirmed;
    confirmed, judged' := Judge(buckets, s.key, judged, src.Left(), source, primary);
    if confirmed.None? {
      return Broke, d, missing, judged';
    }
    if confirmed.value {
      return Found, d, missing + [s.key], judged';
    }
    return Passed, d, missing, judged';
  }

  /** The source's next key, and whether the primary's listing has it. */
  method NextPair(src: Lister, dst: Lister, from: Got, ghost primary: seq<Key>) returns (s: Got, d: Got, present: bool)
    requires src != dst && src.Valid() && dst.Valid() && !from.Failed? && (from.End? ==> dst.Left() == [])
    requires InStep(src.Left(), primary, Ahead(from, dst.Left()))
    modifies src, dst
    ensures src.Valid() && src.Tally() == old(src.Tally()) && dst.Valid()
    ensures s.End? ==> old(src.Left()) == [] == src.Left()
    ensures !s.Failed? && !d.Failed? ==>
              (d.End? ==> dst.Left() == []) && InStep(src.Left(), primary, Ahead(d, dst.Left()))
    ensures s.Got? && !d.Failed? ==> old(src.Left()) == [s.key] + src.Left() && (present <==> s.key in primary)
  {
    ghost var left := src.Left();
    d, present := from, false;
    s := src.NextKey();
    if s.Got? {
      d := CatchUp(dst, from, s.key, left, primary);
      if !d.Failed? {
        NotBehindDecides(left, primary, Ahead(d, dst.Left()));
        assert left[1..] == src.Left();
        present := d.Got? && d.key == s.key;
      }
    }
  }

  lemma WalkedAll(judged: seq<Judged>, source: seq<Key>, primary: seq<Key>)
    requires Walked(judged, [], source, primary)
    ensures KeysOf(judged) == Absent(source, primary)
  {
    assert KeysOf(judged) + [] == KeysOf(judged);
  }

  /** Confirm a key the listings disagree on. */
  method Judge(buckets: Buckets, key: Key, ghost judged: seq<Judged>, ghost left: seq<Key>, ghost source: seq<Key>,
      ghost primary: seq<Key>)
    returns (confirmed: Option<bool>, ghost judged': seq<Judged>)
    requires buckets.Valid() && Witnessed(judged, buckets.history)
    requires Walked(judged, [key] + left, source, primary) && key !in primary
    modifies buckets
    ensures buckets.Valid() && old(buckets.history) <= buckets.history
    ensures confirmed.Some? ==>
              && judged' == judged + [Judged(key, confirmed.value)]
              && Witnessed(judged', buckets.history) && Walked(judged', left, source, primary)
              && Confirmed(judged') == Confirmed(judged) + (if confirmed.value then [key] else [])
              && KeysOf(judged') <= Absent(source, primary)
  {
    ghost var was := buckets.history;
    confirmed := buckets.StillMissing(key);
    judged' := judged;
    if confirmed.Some? {
      WitnessedLater(judged, was, buckets.history);
      AbsentKeyIsJudged(judged, key, confirmed.value, left, source, primary);
      judged' := judged + [Judged(key, confirmed.value)];
    }
  }

  /** Walk the primary up to the source's key. */
  method CatchUp(dst: Lister, from: Got, key: Key, ghost left: seq<Key>, ghost primary: seq<Key>) returns (d: Got)
    requires dst.Valid() && !from.Failed? && (from.End? ==> dst.Left() == [])
    requires left != [] && left[0] == key && InStep(left, primary, Ahead(from, dst.Left()))
    modifies dst
    ensures dst.Valid()
    ensures !d.Failed? ==>
              && (d.End? ==> dst.Left() == []) && InStep(left, primary, Ahead(d, dst.Left()))
              && (d.Got? ==> !Less(d.key, key))
  {
    d := from;
    while d.Got? && Less(d.key, key)
      invariant dst.Valid() && !d.Failed? && (d.End? ==> dst.Left() == [])
      invariant InStep(left, primary, Ahead(d, dst.Left()))
      decreases |Ahead(d, dst.Left())|
    {
      ghost var ahead := Ahead(d, dst.Left());
      PassingKeepsStep(left, primary, ahead);
      d := dst.NextKey();
      if d.Failed? {
        return;
      }
      assert Ahead(d, dst.Left()) == ahead[1..];
    }
  }

  // ---------------------------------------------------------------------------------------------
  // What an answer means.

  lemma {:induction false} AbsentIsExact(source: seq<Key>, primary: seq<Key>, k: Key)
    ensures k in Absent(source, primary) <==> k in source && k !in primary
  {
    if source != [] {
      AbsentIsExact(source[1..], primary, k);
      assert source == [source[0]] + source[1..];
    }
  }

  lemma {:induction false} ConfirmedKeys(judged: seq<Judged>, j: Judged)
    requires j in judged && j.missing
    ensures j.key in Confirmed(judged)
    decreases |judged|
  {
    var n := |judged| - 1;
    if j != judged[n] {
      assert judged == judged[..n] + [judged[n]];
      ConfirmedKeys(judged[..n], j);
    }
  }

  /** An empty answer: each key that the source's listing has and the primary's has not was, at some
      instant of the walk, on the primary or off the source. */
  lemma EmptyMeansCovered(source: seq<Key>, primary: seq<Key>, judged: seq<Judged>, history: seq<Moment>, limit: int,
      k: Key)
    requires limit >= 1 && Answers([], judged, source, primary, history, limit) && k in source
    ensures k in primary || WasNot(history, k)
  {
    AbsentIsExact(source, primary, k);
    if k !in primary {
      var i :| 0 <= i < |KeysOf(judged)| && KeysOf(judged)[i] == k;
      assert judged[i] in judged;
      if judged[i].missing {
        ConfirmedKeys(judged, judged[i]);
      }
    }
  }

  /** The first n of a sequence. */
  function First(keys: seq<Key>, n: nat): seq<Key> {
    if |keys| <= n then keys else keys[..n]
  }

  lemma {:induction false} AllConfirmed(judged: seq<Judged>)
    requires forall j | j in judged :: j.missing
    ensures Confirmed(judged) == KeysOf(judged)
    decreases |judged|
  {
    if judged != [] {
      var n := |judged| - 1;
      AllConfirmed(judged[..n]);
      assert judged == judged[..n] + [judged[n]];
      assert KeysOf(judged) == KeysOf(judged[..n]) + [judged[n].key];
    }
  }

  /** With nobody writing, the answer is exactly the first `limit` kept keys of the source that the
      primary has not; an empty one means the kept source is a subset of the primary. */
  lemma QuietDiffIsExact(keys: seq<Key>, source: seq<Key>, primary: seq<Key>, judged: seq<Judged>, history: seq<Moment>,
      limit: int, now: Moment)
    requires limit >= 1 && (forall m | m in history :: m == now)
    requires forall k | k in source :: k in now.source && (k in now.primary <==> k in primary)
    requires Answers(keys, judged, source, primary, history, limit)
    ensures keys == First(Absent(source, primary), limit)
    ensures keys == [] ==> forall k | k in source :: k in primary
  {
    forall j | j in judged ensures j.missing {
      var i :| 0 <= i < |judged| && judged[i] == j;
      assert KeysOf(judged)[i] == j.key && Absent(source, primary)[i] == j.key;
      AbsentIsExact(source, primary, j.key);
      assert forall m | 0 <= m < |history| :: history[m] in history;
    }
    AllConfirmed(judged);
    forall k | k in source && keys == [] ensures k in primary {
      AbsentIsExact(source, primary, k);
    }
  }
}
