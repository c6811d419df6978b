/** How far a revocation reaches once its row is pruned: no version of the grant
    that expires by then is ever active again, and one that expires a second
    later can be. */
module GroupRevocation {

  import opened Wrappers
  import opened GroupGrants
  import opened GroupNode
  import opened GroupLatePush

  /** The grant is revoked and its row kept until `until` at least, or that time and the grace have passed. */
  ghost predicate Over(rows: Rows, id: GrantId, until: nat, now: nat) {
    || (id in rows.grants && !rows.grants[id].active && until <= rows.grants[id].retainUntil)
    || until + SELF_DELETE_GRACE < now
  }

  lemma {:induction false} OverInPart(part: Rows, whole: Rows, id: GrantId, until: nat, now: nat)
    requires PrunedFrom(part, whole, now) && Over(whole, id, until, now)
    ensures Over(part, id, until, now)
  {}

  lemma {:induction false} CommitKeepsOver(others: set<string>, s: State, e: Event, plan: Plan, id: GrantId, until: nat)
    requires PrunedFrom(s.db, s.snap, s.now) && Over(s.snap, id, until, s.now)
    requires Evaluate(s.cfg, others, s.snap, e, s.now) == Accepted(plan)
    ensures CommitEvent(s, e, plan).now == s.now && Over(CommitEvent(s, e, plan).snap, id, until, s.now)
  {
    OverInPart(s.db, s.snap, id, until, s.now);
  }

  lemma {:induction false} StepKeepsOver(s: State, a: Action, id: GrantId, until: nat)
    requires Inv(s) && Next(s, a).Some? && Over(s.snap, id, until, s.now)
    ensures var next := Next(s, a).value; Over(next.snap, id, until, next.now)
  {
    hide Evaluate, CommitEvent, RowsInv, PushInv, PrunedFrom;
    if a.Restart? {
      OverInPart(s.db, s.snap, id, until, s.now);
    } else if a.PlanPost? || a.CommitPush? {
      var e := s.flights[a.id].event;
      var v := Evaluate(s.cfg, a.others, s.snap, e, s.now);
      if v.Accepted? {
        CommitKeepsOver(a.others, s, e, v.plan, id, until);
      }
    }
  }

  lemma {:induction false} RunKeepsOver(s: State, actions: seq<Action>, id: GrantId, until: nat)
    requires Inv(s) && Run(s, actions).Some? && Over(s.snap, id, until, s.now)
    ensures var end := Run(s, actions).value; Over(end.snap, id, until, end.now)
    decreases |actions|
  {
    hide Next, Inv, Over;
    if actions != [] {
      StepKeeps(s, actions[0]);
      StepKeepsOver(s, actions[0], id, until);
      RunKeepsOver(Next(s, actions[0]).value, actions[1..], id, until);
    }
  }

  /** A second more than the grace for which a row is kept. */
  const REACH: nat := SELF_DELETE_GRACE + 1

  /** Once revoked, no version of a grant that expires within the reach of the
      row's retention is ever active again, whatever is pruned and posted later. */
  lemma {:induction false} RevocationIsFinal(s: State, actions: seq<Action>, id: GrantId, t: nat)
    requires Inv(s) && id in s.snap.grants && !s.snap.grants[id].active && Run(s, actions).Some?
    requires var end := Run(s, actions).value;
      && end.now <= t && id in end.snap.grants
      && end.snap.grants[id].expiration <= s.snap.grants[id].retainUntil + REACH
    ensures var rows := Run(s, actions).value.snap; !IsLive(rows, rows.grants[id], t)
  {
    hide Next, Run, Inv;
    var until := s.snap.grants[id].retainUntil;
    assert Over(s.snap, id, until, s.now);
    RunKeepsOver(s, actions, id, until);
  }

  /** No version that expires within `reach` of the retention of a revoked row comes back. */
  ghost predicate FinalWithin(reach: nat) {
    forall cfg, start, before, after, id, t |
      && Run(Initial(cfg, start), before + after).Some? && Run(Initial(cfg, start), before).Some? ::
      NotBack(Run(Initial(cfg, start), before).value, Run(Initial(cfg, start), before + after).value, reach, id, t)
  }

  ghost predicate NotBack(s: State, end: State, reach: nat, id: GrantId, t: nat) {
    && id in s.snap.grants && !s.snap.grants[id].active && id in end.snap.grants && end.now <= t
    && end.snap.grants[id].expiration <= s.snap.grants[id].retainUntil + reach ==>
      !IsActive(end.cfg, end.snap, end.snap.grants[id], t)
  }

  // ---------- a revoked grant that comes back ----------

  const BACK: nat := 2 + REACH

  function Given(): Event {
    Event("e", "k", 0, 1, Grant("g", "r", "d", "h", {Get}, None, false))
  }

  function Revoked(): Event {
    Event("v", "k", 1, 2, Grant("g", "r", "d", "h", {Get}, None, true))
  }

  /** A version older than the revocation, posted for the first time. */
  function Older(): Event {
    Event("o", "k", 0, BACK + 1, Grant("g", "r", "d", "h", {Get}, None, false))
  }

  function BackDoes(i: nat): Action {
    match i
    case 0 => Post(1, Given())
    case 1 => PlanPost(1, {}, false)
    case 2 => Post(2, Revoked())
    case 3 => PlanPost(2, {}, false)
    case 4 => Tick(BACK)
    case 5 => PruneDatabase(BACK)
    case 6 => Post(3, Between(BACK))
    case 7 => PlanPost(3, {}, false)
    case 8 => Post(4, Older())
    case _ => PlanPost(4, {}, false)
  }

  function Back(): seq<Action> {
    seq(10, i requires 0 <= i => BackDoes(i))
  }

  function BackKeys(): map<string, GroupKey> {
    map["d" := GroupKey("k", "r", None)]
  }

  function GivenRow(): Row {
    Row("k", "g", "r", "d", "h", {Get}, None, true, 0, 1, 1, None, "e")
  }

  function RevokedRow(): Row {
    Row("k", "g", "r", "d", "h", {Get}, None, false, 1, 2, 2, Some(1), "v")
  }

  function OlderRow(): Row {
    Row("k", "g", "r", "d", "h", {Get}, None, true, 0, BACK + 1, BACK + 1, None, "o")
  }

  function With(row: Row): Rows {
    Rows(map[("k", "g") := row], map[], BackKeys())
  }

  function Pruned(): Rows {
    Rows(map[], map[], BackKeys())
  }

  function Fresh(): Rows {
    WriteFloor(Pruned(), ("k", "q"), BetweenFloor(BACK))
  }

  function Landed(): Rows {
    Fresh().(grants := map[("k", "g") := OlderRow()])
  }

  function BackRevoked(): State {
    State(Setup(), 0, With(RevokedRow()), With(RevokedRow()), map[], Free, map[], [Given(), Revoked()])
  }

  function BackFresh(): State {
    State(Setup(), BACK, Fresh(), Fresh(), map[], Free, map[], [Given(), Revoked(), Between(BACK)])
  }

  function BackAt(i: nat): State {
    match i
    case 0 => Initial(Setup(), 0)
    case 1 => Initial(Setup(), 0).(flights := map[1 := Screened(Given(), 0)])
    case 2 => Initial(Setup(), 0).(db := With(GivenRow()), snap := With(GivenRow()), log := [Given()])
    case 3 => BackAt(2).(flights := map[2 := Screened(Revoked(), 0)])
    case 4 => BackRevoked()
    case 5 => BackRevoked().(now := BACK)
    case 6 => BackRevoked().(now := BACK, db := Pruned())
    case 7 => BackRevoked().(now := BACK, db := Pruned(), flights := map[3 := Screened(Between(BACK), BACK)])
    case 8 => BackFresh()
    case 9 => BackFresh().(flights := map[4 := Screened(Older(), BACK)])
    case _ => State(Setup(), BACK, Landed(), Landed(), map[], Free, map[], [Given(), Revoked(), Between(BACK), Older()])
  }

  ghost predicate BackStep(i: nat) {
    Next(BackAt(i), BackDoes(i)) == Some(BackAt(i + 1))
  }

  lemma {:induction false} GivenLands()
    ensures BackStep(0) && BackStep(1)
  {
    var plan := Plan(true, Some(GivenRow()), None, Some(("d", GroupKey("k", "r", None))));
    assert Evaluate(Setup(), {}, Nothing(), Given(), 0) == Accepted(plan);
    assert Commit(Nothing(), plan) == With(GivenRow());
    assert !ChangesFriends(map[], plan);
    assert BackAt(1).flights - {1} == BackAt(2).flights;
    assert [] + [Given()] == BackAt(2).log;
  }

  lemma {:induction false} RevokedLands()
    ensures BackStep(2) && BackStep(3)
  {
    var plan := Plan(true, Some(RevokedRow()), None, None);
    assert Evaluate(Setup(), {}, With(GivenRow()), Revoked(), 0) == Accepted(plan);
    assert Commit(With(GivenRow()), plan) == With(RevokedRow());
    assert BackAt(3).flights - {2} == BackAt(4).flights;
    assert [Given()] + [Revoked()] == BackAt(4).log;
  }

  lemma {:induction false} RevocationAges()
    ensures BackStep(4) && BackStep(5)
  {
    assert Prune(With(RevokedRow()), BACK) == Pruned();
  }

  lemma {:induction false} RevocationGoes()
    ensures BackStep(6) && BackStep(7)
  {
    BetweenLands(With(RevokedRow()), BACK);
    BetweenLands(Pruned(), BACK);
    hide Evaluate, Commit, Screen;
    assert BackAt(7).flights - {3} == BackAt(8).flights;
    assert [Given(), Revoked()] + [Between(BACK)] == BackAt(8).log;
  }

  lemma {:induction false} OlderLands()
    ensures BackStep(8) && BackStep(9)
  {
    var plan := Plan(true, Some(OlderRow()), None, None);
    assert ("k", "r") !in Fresh().floors;
    assert Evaluate(Setup(), {}, Fresh(), Older(), BACK) == Accepted(plan);
    assert Commit(Fresh(), plan) == Landed();
    assert BackAt(9).flights - {4} == BackAt(10).flights;
    assert [Given(), Revoked(), Between(BACK)] + [Older()] == BackAt(10).log;
  }

  lemma {:induction false} BackSteps(i: nat)
    requires i < 10
    ensures BackStep(i)
  {
    hide BackStep;
    GivenLands();
    RevokedLands();
    RevocationAges();
    RevocationGoes();
    OlderLands();
  }

  lemma {:induction false} BackRuns(n: nat)
    requires n <= 10
    ensures Run(Initial(Setup(), 0), Back()[..n]) == Some(BackAt(n))
  {
    hide Next, BackDoes, BackStep, Initial;
    var trace := seq(n + 1, i requires 0 <= i => BackAt(i));
    forall i | 0 <= i < n ensures Next(trace[i], Back()[..n][i]) == Some(trace[i + 1]) {
      BackStepAt(i);
    }
    BackStarts();
    TraceRuns(trace, Back()[..n]);
  }

  lemma {:induction false} BackStepAt(i: nat)
    requires i < 10
    ensures Next(BackAt(i), Back()[i]) == Some(BackAt(i + 1))
  {
    BackSteps(i);
    hide Next, BackAt, BackDoes;
  }

  lemma {:induction false} BackStarts()
    ensures BackAt(0) == Initial(Setup(), 0)
  {}

  /** A version that expires a second beyond the reach is active again. */
  lemma {:induction false} RevokedComesBack()
    ensures Run(Initial(Setup(), 0), Back()[..4]) == Some(BackAt(4))
    ensures Run(Initial(Setup(), 0), Back()) == Some(BackAt(10))
    ensures !NotBack(BackAt(4), BackAt(10), REACH + 1, ("k", "g"), BACK)
  {
    BackRuns(4);
    BackRuns(10);
    assert Back()[..10] == Back();
  }

  lemma {:induction false} RunsOn(s: State, front: seq<Action>, back: seq<Action>)
    requires Run(s, front).Some?
    ensures Run(s, front + back) == Run(Run(s, front).value, back)
    decreases |front|
  {
    hide Next;
    if front == [] {
      assert front + back == back;
    } else {
      RunsOn(Next(s, front[0]).value, front[1..], back);
      assert (front + back)[1..] == front[1..] + back;
    }
  }

  lemma {:induction false} FinalFrom(
      cfg: Config, start: nat, before: seq<Action>, after: seq<Action>, reach: nat, id: GrantId, t: nat)
    requires reach <= REACH
    requires Run(Initial(cfg, start), before).Some? && Run(Initial(cfg, start), before + after).Some?
    ensures NotBack(
      Run(Initial(cfg, start), before).value, Run(Initial(cfg, start), before + after).value, reach, id, t)
  {
    hide Run, Inv, IsLive, Initial;
    var s, end := Run(Initial(cfg, start), before).value, Run(Initial(cfg, start), before + after).value;
    RunsOn(Initial(cfg, start), before, after);
    Reachable(cfg, start, before);
    if id in s.snap.grants && !s.snap.grants[id].active && id in end.snap.grants && end.now <= t
       && end.snap.grants[id].expiration <= s.snap.grants[id].retainUntil + reach {
      RevocationIsFinal(s, after, id, t);
    }
  }

  /** A revocation is final for exactly the versions that expire within the
      grace and a second of the retention of its row. */
  lemma {:induction false} ReachIsExact(reach: nat)
    ensures FinalWithin(reach) <==> reach <= REACH
  {
    hide Run, BackAt, IsActive;
    if reach <= REACH {
      forall cfg, start, before, after, id, t |
        && Run(Initial(cfg, start), before + after).Some? && Run(Initial(cfg, start), before).Some?
        ensures NotBack(
          Run(Initial(cfg, start), before).value, Run(Initial(cfg, start), before + after).value, reach, id, t)
      {
        FinalFrom(cfg, start, before, after, reach, id, t);
      }
    } else {
      RevokedComesBack();
      assert !NotBack(BackAt(4), BackAt(10), reach, ("k", "g"), BACK);
      assert Back()[..4] + Back()[4..] == Back();
    }
  }
}
