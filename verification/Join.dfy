/** A control node's join (internal/control/join.go): the learner's add, its promotion and, for a
canceled join, its removal. A membership change whose answer is lost may land at any time after, or
never; the join may stop anywhere and be carried on by another owner from its record, and any of its
record writes may fail. Its record reserves the membership, so nobody else adds a member while it is
unfinished; members start and leave as they like. */
module Join {
  import opened Basics

  /** A peer URL: how it is spelled, and the address it names (NormalizePeerURL). */
  datatype Url = Url(spelling: string, address: string)

  datatype Member = Member(name: string, urls: set<Url>, learner: bool)

  datatype Phase = Early | LearnerAdd | LearnerAdded | CatchingUp | LearnerRemove

  datatype End = Canceled | Succeeded | Failed

  /** The join's record. */
  datatype Record = Record(phase: Phase, member: Option<nat>, cancel: bool, end: Option<End>)

  datatype Flight = Add | Promote(id: nat) | Remove(id: nat)

  datatype Pc = Rounding | Deciding | SendAdd | SendPromote | SendRemove

  /** The owner running the join: its copy of the record, and the member list it read this round. */
  datatype Owner = Owner(pc: Pc, phase: Phase, member: Option<nat>, cancel: bool, listed: map<nat, Member>,
      promoteLost: bool)

  /** `added` are the members this join's adds made. */
  datatype State = State(peer: string, name: string, members: map<nat, Member>, used: set<nat>, rec: Record,
      owner: Option<Owner>,
                         flights: set<Flight>, added: set<nat>)

  /** How a change sent is answered: it landed, and says so; it did not answer, and is in flight; etcd
      says the learner is not ready. */
  datatype Answer = Landed(id: nat) | Lost | NotReady

  datatype Step =
    | Resume
    | Crash
    | List(looks: bool)                 // the round's list; looks: the record could be read too
    | Decide(lands: bool, settled: bool)
    | Send(answer: Answer, lands: bool)
    | Land(flight: Flight, id: nat)
    | Vanish(flight: Flight)
    | AskCancel
    | Start(id: nat, name: string)      // a member's node starts
    | Leave(id: nat)

  predicate HasPeer(m: Member, address: string) {
    exists u | u in m.urls :: u.address == address
  }

  /** A member with this address, if the list has one. */
  ghost predicate Mine(ms: map<nat, Member>, address: string, id: nat) {
    id in ms && HasPeer(ms[id], address)
  }

  function Own(s: State): Url {
    Url(s.peer, s.peer)
  }

  /** etcd refuses a second member with a peer URL so spelled. */
  predicate Spelled(ms: map<nat, Member>, u: Url) {
    exists id | id in ms :: exists v | v in ms[id].urls :: v.spelling == u.spelling
  }

  // ---------------------------------------------------------------------------------------------
  // Membership changes landing.

  function WithLearner(s: State, id: nat): State {
    s.(members := s.members[id := Member("", {Own(s)}, true)], used := s.used + {id}, added := s.added + {id})
  }

  predicate MayLand(s: State, f: Flight, id: nat) {
    match f
    case Add => id !in s.used && !Spelled(s.members, Own(s))
    case Promote(m) => m in s.members
    case Remove(m) => m in s.members
  }

  function Changed(s: State, f: Flight, id: nat): State {
    match f
    case Add => WithLearner(s, id)
    case Promote(m) => if m in s.members then s.(members := s.members[m := s.members[m].(learner := false)]) else s
    case Remove(m) => s.(members := s.members - {m})
  }

  // ---------------------------------------------------------------------------------------------
  // A round of the join.

  /** The owner's copy, and the record when the write lands. */
  function Put(s: State, o: Owner, lands: bool): State {
    s.(owner := Some(o), rec := if lands then s.rec.(phase := o.phase, member := o.member) else s.rec)
  }

  function Ended(s: State, end: End, lands: bool): State {
    s.(owner := None, rec := if lands then s.rec.(end := Some(end)) else s.rec)
  }

  /** Which listed member a cancellation takes for the join's: by its id on the record, or, when the
      add's answer was lost, by the join's peer URL. */
  ghost predicate Cancels(s: State, o: Owner, id: nat) {
    if o.member.Some? then id == o.member.value && id in o.listed
    else o.phase == LearnerAdd && Mine(o.listed, s.peer, id)
  }

  /** A voter is kept and the join ends; a promotion that did not answer is waited for; a learner is
      removed. */
  function CancelMine(s: State, o: Owner, id: nat, lands: bool, settled: bool): State
    requires id in o.listed
  {
    var mine := o.(member := Some(id));
    if !o.listed[id].learner then Ended(Put(s, mine, lands), Succeeded, lands)
    else if o.promoteLost && !settled then Put(s, mine.(pc := Rounding), lands)
    else Put(s, mine.(phase := LearnerRemove, pc := SendRemove), lands)
  }

  /** cancelJoin, from the list read this round. */
  ghost predicate CancelDecides(s: State, o: Owner, lands: bool, settled: bool, t: State) {
    if forall id :: !Cancels(s, o, id) then t == Ended(s, Canceled, lands)
    else exists id :: Cancels(s, o, id) && t == CancelMine(s, o, id, lands, settled)
  }

  /** addLearner, from the list read this round. */
  ghost predicate AddDecides(s: State, o: Owner, lands: bool, t: State) {
    if exists id :: Mine(o.listed, s.peer, id) then
      exists id :: Mine(o.listed, s.peer, id) &&
        (if o.phase != LearnerAdd || (o.listed[id].name != "" && o.listed[id].name != s.name) then
          t == Ended(s, Failed, lands)
         else t == Put(s, o.(member := Some(id), pc := Rounding), lands))
    else if exists id | id in o.listed ::
      o.listed[id].name == s.name || o.listed[id].learner then t == Ended(s, Failed, lands)
    else t == Put(s, o.(phase := LearnerAdd, pc := SendAdd), lands)
  }

  /** What a round does about the member on its record. */
  function FollowDecides(s: State, o: Owner, lands: bool): State
    requires o.member.Some?
  {
    var id := o.member.value;
    if id !in o.listed then Ended(s, Failed, lands)
    else if o.listed[id].name == "" then Put(s, o.(phase := LearnerAdded, pc := Rounding), lands)
    else if o.listed[id].learner then Put(s, o.(phase := CatchingUp, pc := SendPromote), lands)
    else Ended(s, Succeeded, lands)
  }

  ghost predicate Decides(s: State, o: Owner, lands: bool, settled: bool, t: State) {
    if o.cancel then CancelDecides(s, o, lands, settled, t)
    else if o.member.None? then AddDecides(s, o, lands, t)
    else t == FollowDecides(s, o, lands)
  }

  /** The change the owner sends next. */
  function Sent(o: Owner): Flight
    requires o.pc == SendAdd || (o.member.Some? && (o.pc == SendPromote || o.pc == SendRemove))
  {
    if o.pc == SendAdd then Add else if o.pc == SendPromote then Promote(o.member.value) else Remove(o.member.value)
  }

  predicate Sending(o: Owner) {
    o.pc == SendAdd || (o.member.Some? && (o.pc == SendPromote || o.pc == SendRemove))
  }

  function Sends(s: State, o: Owner, answer: Answer, lands: bool): State
    requires Sending(o)
  {
    var f := Sent(o);
    match answer
    case Lost =>
      s.(flights := s.flights + {f},
        owner := Some(o.(pc := Rounding, promoteLost := o.promoteLost || o.pc == SendPromote)))
    case NotReady => s.(owner := Some(o.(pc := Rounding)))
    case Landed(id) =>
      var changed := Changed(s, f, id);
      if f.Add? then Put(changed, o.(member := Some(id), phase := LearnerAdded, pc := Rounding), lands)
      else if f.Promote? then changed.(owner := Some(o.(pc := Rounding)))
      else Ended(changed, Canceled, lands)
  }

  ghost predicate Next(s: State, step: Step, t: State) {
    match step
    case Resume =>
      && s.owner.None? && s.rec.end.None?
      && t == s.(owner := Some(Owner(Rounding, s.rec.phase, s.rec.member, s.rec.cancel, map[], false)))
    case Crash => s.owner.Some? && t == s.(owner := None)
    case List(looks) =>
      && s.owner.Some? && s.owner.value.pc == Rounding
      && var o := s.owner.value;
         t == s.(owner := Some(o.(pc := Deciding, listed := s.members, cancel := o.cancel || (looks && s.rec.cancel))))
    case Decide(lands, settled) =>
      s.owner.Some? && s.owner.value.pc == Deciding && Decides(s, s.owner.value, lands, settled, t)
    case Send(answer, lands) =>
      && s.owner.Some? && Sending(s.owner.value)
      && (answer.Landed? ==> MayLand(s, Sent(s.owner.value), answer.id))
      && (answer.NotReady? ==> s.owner.value.pc != SendAdd)
      && t == Sends(s, s.owner.value, answer, lands)
    case Land(f, id) => f in s.flights && MayLand(s, f, id) && t == Changed(s, f, id).(flights := s.flights - {f})
    case Vanish(f) => f in s.flights && t == s.(flights := s.flights - {f})
    case AskCancel => s.rec.end.None? && t == s.(rec := s.rec.(cancel := true))
    case Start(id, name) => id in s.members && t == s.(members := s.members[id := s.members[id].(name := name)])
    case Leave(id) => id in s.members && t == s.(members := s.members - {id})
  }

  // ---------------------------------------------------------------------------------------------
  // The invariant.

  /** Some add of the join's has been sent, or may be without another look at the list. */
  predicate Claims(s: State) {
    || Add in s.flights
    || s.rec.phase != Early
    || (s.owner.Some? && s.owner.value.phase != Early)
  }

  ghost predicate Members(s: State) {
    && s.members.Keys <= s.used && s.added <= s.used
    && (forall x, y | Mine(s.members, s.peer, x) && Mine(s.members, s.peer, y) :: x == y)
    && (Claims(s) ==> forall x | Mine(s.members, s.peer, x) :: x in s.added)
    && (forall x | x in s.added && x in s.members :: Own(s) in s.members[x].urls)
  }

  ghost predicate Listing(s: State, o: Owner) {
    && o.listed.Keys <= s.used
    && (o.pc == Deciding ==>
          && (forall x | Mine(s.members, s.peer, x) :: x in s.added || Mine(o.listed, s.peer, x))
          && (o.phase != Early ==> forall x | Mine(o.listed, s.peer, x) :: x in s.added))
    && (o.member.Some? ==> o.member.value in s.added)
    && (o.pc == SendAdd ==> o.phase == LearnerAdd)
    && (o.pc == SendRemove ==> o.member.Some? && o.member.value in o.listed && o.listed[o.member.value].learner)
    && (o.member.Some? ==> o.phase != Early)
  }

  ghost predicate Inv(s: State) {
    && Members(s)
    && (s.rec.member.Some? ==> s.rec.member.value in s.added && s.rec.phase != Early)
    && (s.owner.Some? ==> Listing(s, s.owner.value))
    && (forall f | f in s.flights :: f.Add? || f.id in s.added)
  }

  ghost predicate Initial(s: State) {
    && s.members.Keys <= s.used && (forall x, y | Mine(s.members, s.peer, x) && Mine(s.members, s.peer, y) :: x == y)
    && s.rec == Record(Early, None, false, None) && s.owner.None? && s.flights == {} && s.added == {}
  }

  /** An add that lands makes the one member with the join's address. */
  lemma AddLandsAlone(s: State, id: nat)
    requires Inv(s) && Claims(s) && MayLand(s, Add, id)
    ensures forall x :: !Mine(s.members, s.peer, x)
    ensures Inv(WithLearner(s, id)) && Mine(WithLearner(s, id).members, s.peer, id)
  {
    assert forall x :: Mine(s.members, s.peer, x) ==> Own(s) in s.members[x].urls;
    var t := WithLearner(s, id);
    assert forall x | x != id :: Mine(t.members, s.peer, x) ==> Mine(s.members, s.peer, x);
    assert Own(s) in t.members[id].urls;
  }

  /** A member promoted, started or gone leaves every other as it is. */
  lemma MemberChangeKeepsInv(s: State, id: nat, m: Option<Member>)
    requires Inv(s) && id in s.members && (m.Some? ==> m.value.urls == s.members[id].urls)
    ensures Inv(s.(members := if m.Some? then s.members[id := m.value] else s.members - {id}))
  {
    var t := s.(members := if m.Some? then s.members[id := m.value] else s.members - {id});
    assert forall x :: Mine(t.members, s.peer, x) ==> Mine(s.members, s.peer, x);
  }

  lemma LandingKeepsInv(s: State, f: Flight, id: nat)
    requires Inv(s) && MayLand(s, f, id) && (f.Add? ==> Claims(s))
    ensures Inv(Changed(s, f, id))
  {
    match f
    case Add => AddLandsAlone(s, id);
    case Promote(m) => MemberChangeKeepsInv(s, m, Some(s.members[m].(learner := false)));
    case Remove(m) => MemberChangeKeepsInv(s, m, None);
  }

  lemma FewerFlightsKeepInv(s: State, f: Flight)
    requires Inv(s)
    ensures Inv(s.(flights := s.flights - {f}))
  {
  }

  /** The owner's record write, of what it knows. */
  lemma PutKeepsInv(s: State, o: Owner, lands: bool)
    requires Inv(s) && Listing(s, o) && (o.phase != Early ==> forall x | Mine(s.members, s.peer, x) :: x in s.added)
    ensures Inv(Put(s, o, lands))
  {
  }

  lemma EndKeepsInv(s: State, end: End, lands: bool)
    requires Inv(s)
    ensures Inv(Ended(s, end, lands))
  {
  }

  lemma CancelingKeepsInv(s: State, o: Owner, id: nat, lands: bool, settled: bool)
    requires Inv(s) && s.owner == Some(o) && o.pc == Deciding && Cancels(s, o, id)
    ensures Inv(CancelMine(s, o, id, lands, settled))
  {
    var mine := o.(member := Some(id));
    assert id in s.added && o.phase != Early;
    if !o.listed[id].learner {
      PutKeepsInv(s, mine, lands);
      EndKeepsInv(Put(s, mine, lands), Succeeded, lands);
    } else if o.promoteLost && !settled {
      PutKeepsInv(s, mine.(pc := Rounding), lands);
    } else {
      PutKeepsInv(s, mine.(phase := LearnerRemove, pc := SendRemove), lands);
    }
  }

  lemma CancelDecidingKeepsInv(s: State, o: Owner, lands: bool, settled: bool, t: State)
    requires Inv(s) && s.owner == Some(o) && o.pc == Deciding && CancelDecides(s, o, lands, settled, t)
    ensures Inv(t)
  {
    if forall id :: !Cancels(s, o, id) {
      EndKeepsInv(s, Canceled, lands);
    } else {
      var id :| Cancels(s, o, id) && t == CancelMine(s, o, id, lands, settled);
      CancelingKeepsInv(s, o, id, lands, settled);
    }
  }

  lemma AddDecidingKeepsInv(s: State, o: Owner, lands: bool, t: State)
    requires Inv(s) && s.owner == Some(o) && o.pc == Deciding && o.member.None? && AddDecides(s, o, lands, t)
    ensures Inv(t)
  {
    EndKeepsInv(s, Failed, lands);
    if exists id :: Mine(o.listed, s.peer, id) {
      var id :| Mine(o.listed, s.peer, id) &&
        (if o.phase != LearnerAdd || (o.listed[id].name != "" && o.listed[id].name != s.name) then
          t == Ended(s, Failed, lands)
         else t == Put(s, o.(member := Some(id), pc := Rounding), lands));
      if t != Ended(s, Failed, lands) {
        PutKeepsInv(s, o.(member := Some(id), pc := Rounding), lands);
      }
    } else if !(exists id | id in o.listed :: o.listed[id].name == s.name || o.listed[id].learner) {
      PutKeepsInv(s, o.(phase := LearnerAdd, pc := SendAdd), lands);
    }
  }

  lemma FollowDecidingKeepsInv(s: State, o: Owner, lands: bool)
    requires Inv(s) && s.owner == Some(o) && o.pc == Deciding && o.member.Some?
    ensures Inv(FollowDecides(s, o, lands))
  {
    EndKeepsInv(s, Failed, lands);
    EndKeepsInv(s, Succeeded, lands);
    PutKeepsInv(s, o.(phase := LearnerAdded, pc := Rounding), lands);
    PutKeepsInv(s, o.(phase := CatchingUp, pc := SendPromote), lands);
  }

  lemma SendingKeepsInv(s: State, o: Owner, answer: Answer, lands: bool)
    requires Inv(s) && s.owner == Some(o) && Sending(o) && (answer.Landed? ==> MayLand(s, Sent(o), answer.id))
    ensures Inv(Sends(s, o, answer, lands))
  {
    if answer.Landed? {
      var f := Sent(o);
      LandingKeepsInv(s, f, answer.id);
      var changed := Changed(s, f, answer.id);
      if f.Add? {
        AddLandsAlone(s, answer.id);
        PutKeepsInv(changed, o.(member := Some(answer.id), phase := LearnerAdded, pc := Rounding), lands);
      } else if f.Remove? {
        EndKeepsInv(changed, Canceled, lands);
      }
    }
  }

  lemma ListingKeepsInv(s: State, step: Step, t: State)
    requires Inv(s) && step.List? && Next(s, step, t)
    ensures Inv(t)
  {
  }

  lemma StepKeepsInv(s: State, step: Step, t: State)
    requires Inv(s) && Next(s, step, t)
    ensures Inv(t)
  {
    match step
    case Resume =>
    case Crash =>
    case List(_) => ListingKeepsInv(s, step, t);
    case Decide(lands, settled) =>
      var o := s.owner.value;
      if o.cancel {
        CancelDecidingKeepsInv(s, o, lands, settled, t);
      } else if o.member.None? {
        AddDecidingKeepsInv(s, o, lands, t);
      } else {
        FollowDecidingKeepsInv(s, o, lands);
      }
    case Send(answer, lands) => SendingKeepsInv(s, s.owner.value, answer, lands);
    case Land(f, id) =>
      LandingKeepsInv(s, f, id);
      FewerFlightsKeepInv(Changed(s, f, id), f);
    case Vanish(f) => FewerFlightsKeepInv(s, f);
    case AskCancel =>
    case Start(id, name) => MemberChangeKeepsInv(s, id, Some(s.members[id].(name := name)));
    case Leave(id) => MemberChangeKeepsInv(s, id, None);
  }

  ghost predicate IsRun(run: seq<State>, steps: seq<Step>) {
    && |run| == |steps| + 1
    && forall i | 0 <= i < |steps| :: Next(run[i], steps[i], run[i + 1])
  }

  lemma {:induction false} RunsKeepInv(run: seq<State>, steps: seq<Step>, n: nat)
    requires IsRun(run, steps) && Initial(run[0]) && n <= |steps|
    ensures Inv(run[n])
  {
    if n > 0 {
      RunsKeepInv(run, steps, n - 1);
      StepKeepsInv(run[n - 1], steps[n - 1], run[n]);
    }
  }

  /** However answers are lost and the join is resumed, its address never belongs to two members. */
  lemma AddressIsOneMembers(run: seq<State>, steps: seq<Step>, n: nat, x: nat, y: nat)
    requires IsRun(run, steps) && Initial(run[0]) && n <= |steps|
    requires Mine(run[n].members, run[n].peer, x) && Mine(run[n].members, run[n].peer, y)
    ensures x == y
  {
    RunsKeepInv(run, steps, n);
  }

  /** The only member a join sends a removal for is one its own add made, and that the list it read
      this round has as a learner; every promotion and removal in flight is of one its add made. */
  lemma RemovesOnlyItsOwn(run: seq<State>, steps: seq<Step>, n: nat)
    requires IsRun(run, steps) && Initial(run[0]) && n <= |steps|
    ensures forall f | f in run[n].flights && (f.Remove? || f.Promote?) :: f.id in run[n].added
    ensures run[n].owner.Some? && run[n].owner.value.pc == SendRemove ==>
              var o := run[n].owner.value;
              && o.member.Some? && o.member.value in run[n].added
              && o.member.value in o.listed && o.listed[o.member.value].learner
  {
    RunsKeepInv(run, steps, n);
  }

  /** The members a join did not add are left as they are, but for what they do themselves. */
  lemma OthersAreLeftAlone(run: seq<State>, steps: seq<Step>, n: nat, x: nat)
    requires IsRun(run, steps) && Initial(run[0]) && n < |steps| && x in run[n].members && x !in run[n].added
    requires !(steps[n].Start? && steps[n].id == x) && !(steps[n].Leave? && steps[n].id == x)
    ensures x in run[n + 1].members && run[n + 1].members[x] == run[n].members[x]
  {
    RunsKeepInv(run, steps, n);
    assert Next(run[n], steps[n], run[n + 1]);
    StepLeavesOthers(run[n], steps[n], run[n + 1], x);
  }

  lemma StepLeavesOthers(s: State, step: Step, t: State, x: nat)
    requires Inv(s) && Next(s, step, t) && x in s.members && x !in s.added
    requires !(step.Start? && step.id == x) && !(step.Leave? && step.id == x)
    ensures x in t.members && t.members[x] == s.members[x]
  {
    match step
    case Decide(lands, settled) => DecidingMovesNobody(s, s.owner.value, lands, settled, t);
    case Send(answer, lands) => SendingLeavesOthers(s, s.owner.value, answer, lands, x);
    case _ =>
  }

  lemma DecidingMovesNobody(s: State, o: Owner, lands: bool, settled: bool, t: State)
    requires Decides(s, o, lands, settled, t)
    ensures t.members == s.members
  {
  }

  lemma SendingLeavesOthers(s: State, o: Owner, answer: Answer, lands: bool, x: nat)
    requires Inv(s) && s.owner == Some(o) && Sending(o) && (answer.Landed? ==> MayLand(s, Sent(o), answer.id))
    requires x in s.members && x !in s.added
    ensures var t := Sends(s, o, answer, lands); x in t.members && t.members[x] == s.members[x]
  {
  }
}
