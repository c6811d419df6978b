/** How long a post may wait between its screening and its commit: one second
    past the window, an event posted twice can be committed twice, for the row or
    the floor that remembered it has been pruned. */
module GroupLatePush {

  import opened Wrappers
  import opened GroupGrants
  import opened GroupNode

  function Setup(): Config {
    Config(map["k" := {}], {"h"})
  }

  /** A reset of another room, made at `t`: committing it reloads the snapshot. */
  function Between(t: nat): Event {
    Event("f", "k", t, t + 1, Reset("q", "h"))
  }

  function BetweenFloor(t: nat): Floor {
    Floor(t, t + FLOOR_RETENTION, "f")
  }

  function BetweenPlan(t: nat): Plan {
    Plan(true, None, Some((("k", "q"), BetweenFloor(t))), None)
  }

  lemma {:induction false} BetweenLands(rows: Rows, t: nat)
    requires ("k", "q") !in rows.floors
    ensures Screen(Setup(), Between(t), t) == None && Parsed(Between(t))
    ensures Evaluate(Setup(), {}, rows, Between(t), t) == Accepted(BetweenPlan(t))
    ensures Commit(rows, BetweenPlan(t)) == WriteFloor(rows, ("k", "q"), BetweenFloor(t))
  {
  }

  // ---------- a grant ----------

  const LATE: nat := GRANT_WINDOW + 1

  function Twice(): Event {
    Event("e", "k", 0, 1, Grant("g", "r", "d", "h", {Upload}, Some(1), false))
  }

  function GrantDoes(i: nat): Action {
    match i
    case 0 => Post(1, Twice())
    case 1 => PlanPost(1, {}, false)
    case 2 => Post(2, Twice())
    case 3 => PlanPost(2, {}, false)
    case 4 => TakePush(1, {})
    case 5 => SendPush(1, true, true)
    case 6 => CommitPush(1, {})
    case 7 => Tick(LATE)
    case 8 => PruneDatabase(LATE)
    case 9 => Post(3, Between(LATE))
    case 10 => PlanPost(3, {}, false)
    case 11 => TakePush(2, {})
    case 12 => SendPush(2, true, true)
    case _ => CommitPush(2, {})
  }

  function Told(): map<string, Friend> {
    map["d" := Friend(1, GroupGrantId("k", "r"), "k")]
  }

  function Keys(): map<string, GroupKey> {
    map["d" := GroupKey("k", "r", Some(1))]
  }

  function Granted(): Row {
    Row("k", "g", "r", "d", "h", {Upload}, Some(1), true, 0, 1, 1, None, "e")
  }

  function Nothing(): Rows {
    Rows(map[], map[], map[])
  }

  function Held(): Rows {
    Rows(map[("k", "g") := Granted()], map[], Keys())
  }

  function Bare(): Rows {
    Rows(map[], map[], Keys())
  }

  function Floored(): Rows {
    Rows(map[], map[("k", "q") := BetweenFloor(LATE)], Keys())
  }

  /** The first post is in and the second waits. */
  function FirstIn(): State {
    State(Setup(), 0, Held(), Held(), Told(), Free, map[2 := Waiting(Twice(), 0)], [Twice()])
  }

  function Aged(): State {
    FirstIn().(now := LATE, db := Bare())
  }

  function Reloaded(): State {
    Aged().(db := Floored(), snap := Floored(), log := [Twice(), Between(LATE)])
  }

  function GrantAt(i: nat): State {
    match i
    case 0 => Initial(Setup(), 0)
    case 1 => Initial(Setup(), 0).(flights := map[1 := Screened(Twice(), 0)])
    case 2 => Initial(Setup(), 0).(flights := map[1 := Waiting(Twice(), 0)])
    case 3 => Initial(Setup(), 0).(flights := map[1 := Waiting(Twice(), 0), 2 := Screened(Twice(), 0)])
    case 4 => Initial(Setup(), 0).(flights := map[1 := Waiting(Twice(), 0), 2 := Waiting(Twice(), 0)])
    case 5 =>
      Initial(Setup(), 0).(flights := map[1 := Planned(Twice(), 0, Some(Told())), 2 := Waiting(Twice(), 0)],
                           lock := ByPost(1))
    case 6 =>
      Initial(Setup(), 0).(flights := map[1 := Pushed(Twice(), 0, true), 2 := Waiting(Twice(), 0)],
                           lock := ByPost(1), core := Told())
    case 7 => FirstIn()
    case 8 => FirstIn().(now := LATE)
    case 9 => Aged()
    case 10 => Aged().(flights := map[2 := Waiting(Twice(), 0), 3 := Screened(Between(LATE), LATE)])
    case 11 => Reloaded()
    case 12 => Reloaded().(flights := map[2 := Planned(Twice(), 0, None)], lock := ByPost(2))
    case 13 => Reloaded().(flights := map[2 := Pushed(Twice(), 0, false)], lock := ByPost(2))
    case _ =>
      var rows := Floored().(grants := map[("k", "g") := Granted()]);
      State(Setup(), LATE, rows, rows, Told(), Free, map[], [Twice(), Between(LATE), Twice()])
  }

  function NewPlan(): Plan {
    Plan(true, Some(Granted()), None, Some(("d", GroupKey("k", "r", Some(1)))))
  }

  function AgainPlan(): Plan {
    Plan(true, Some(Granted()), None, None)
  }

  lemma {:induction false} NewVerdict()
    ensures Screen(Setup(), Twice(), 0) == None && Parsed(Twice())
    ensures Evaluate(Setup(), {}, Nothing(), Twice(), 0) == Accepted(NewPlan())
    ensures Projected(map[], "d", GroupKey("k", "r", Some(1))) == Told() && Told() != Friends(map[])
    ensures Commit(Nothing(), NewPlan()) == Held()
  {
    assert Friends(map[]) == map[];
    assert "d" in Told();
  }

  lemma {:induction false} AgainVerdict()
    ensures Evaluate(Setup(), {}, Floored(), Twice(), LATE) == Accepted(AgainPlan())
    ensures Commit(Floored(), AgainPlan()) == Floored().(grants := map[("k", "g") := Granted()])
  {
    assert ("k", "r") !in Floored().floors;
    assert !Conflict(Setup(), {}, Floored(), ("k", "r"), "d");
  }

  ghost predicate GrantStep(i: nat) {
    Next(GrantAt(i), GrantDoes(i)) == Some(GrantAt(i + 1))
  }

  lemma {:induction false} BothWait()
    ensures GrantStep(0) && GrantStep(1) && GrantStep(2) && GrantStep(3)
  {
    NewVerdict();
    hide Evaluate, Screen, Projected, Friends;
    assert GrantAt(1).flights[1 := Waiting(Twice(), 0)] == GrantAt(2).flights;
    assert GrantAt(2).flights[2 := Screened(Twice(), 0)] == GrantAt(3).flights;
    assert GrantAt(3).flights[2 := Waiting(Twice(), 0)] == GrantAt(4).flights;
  }

  lemma {:induction false} FirstIsPushed()
    ensures GrantStep(4) && GrantStep(5)
  {
    NewVerdict();
    hide Evaluate, Projected;
    assert GrantAt(4).flights[1 := Planned(Twice(), 0, Some(Told()))] == GrantAt(5).flights;
    assert GrantAt(5).flights[1 := Pushed(Twice(), 0, true)] == GrantAt(6).flights;
  }

  lemma {:induction false} FirstCommits()
    ensures GrantStep(6)
  {
    NewVerdict();
    hide Evaluate, Commit;
    assert GrantAt(6).flights - {1} == GrantAt(7).flights;
    assert [] + [Twice()] == GrantAt(7).log;
  }

  lemma {:induction false} GrantAges()
    ensures GrantStep(7) && GrantStep(8)
  {
    assert Prune(Held(), LATE) == Bare();
  }

  lemma {:induction false} GrantReloads()
    ensures GrantStep(9) && GrantStep(10)
  {
    BetweenLands(Held(), LATE);
    BetweenLands(Bare(), LATE);
    hide Evaluate, Commit, Screen;
    assert WriteFloor(Bare(), ("k", "q"), BetweenFloor(LATE)) == Floored();
    assert GrantAt(9).flights[3 := Screened(Between(LATE), LATE)] == GrantAt(10).flights;
    assert GrantAt(10).flights - {3} == GrantAt(11).flights;
    assert [Twice()] + [Between(LATE)] == GrantAt(11).log;
  }

  lemma {:induction false} SecondIsPlanned()
    ensures GrantStep(11)
  {
    AgainVerdict();
    hide Evaluate;
    assert GrantAt(11).flights[2 := Planned(Twice(), 0, None)] == GrantAt(12).flights;
  }

  lemma {:induction false} SecondIsPushed()
    ensures GrantStep(12)
  {
    assert GrantAt(12).flights[2 := Pushed(Twice(), 0, false)] == GrantAt(13).flights;
  }

  lemma {:induction false} SecondCommits()
    ensures GrantStep(13)
  {
    AgainVerdict();
    hide Evaluate, Commit;
    assert GrantAt(13).flights - {2} == GrantAt(14).flights;
    assert [Twice(), Between(LATE)] + [Twice()] == GrantAt(14).log;
  }

  lemma {:induction false} GrantSteps(i: nat)
    requires i < 14
    ensures GrantStep(i)
  {
    hide GrantStep;
    if i < 4 {
      BothWait();
    } else if i < 7 {
      FirstIsPushed();
      FirstCommits();
    } else if i < 11 {
      GrantAges();
      GrantReloads();
    } else {
      SecondIsPlanned();
      SecondIsPushed();
      SecondCommits();
    }
  }

  function LateGrant(): seq<Action> {
    seq(14, i requires 0 <= i => GrantDoes(i))
  }

  function LateGrantTrace(): seq<State> {
    seq(15, i requires 0 <= i => GrantAt(i))
  }

  lemma {:induction false} LateGrantTraces()
    ensures Traces(LateGrantTrace(), LateGrant())
  {
    hide Next, GrantAt, GrantDoes;
    forall i | 0 <= i < 14 ensures Next(LateGrantTrace()[i], LateGrant()[i]) == Some(LateGrantTrace()[i + 1]) {
      GrantSteps(i);
    }
  }

  lemma {:induction false} LateGrantInTime(waits: Waits, i: nat)
    requires waits.grants >= LATE && i < 14
    ensures Prompt(waits, GrantAt(i), GrantDoes(i))
  {
    if !(i == 1 || i == 3 || i == 6 || i == 10 || i == 13) {
      assert !GrantDoes(i).PlanPost? && !GrantDoes(i).CommitPush?;
    }
  }

  /** A grant posted twice, the second post waiting a second too long, lands twice. */
  lemma {:induction false} LateGrantLandsTwice(waits: Waits)
    requires waits.grants >= LATE
    ensures PromptRun(waits, Initial(Setup(), 0), LateGrant())
    ensures var s := Run(Initial(Setup(), 0), LateGrant()); s.Some? && s.value.log == [Twice(), Between(LATE), Twice()]
  {
    assert LateGrantTrace()[0] == Initial(Setup(), 0) && LateGrantTrace()[14].log == [Twice(), Between(LATE), Twice()];
    LateGrantTraces();
    hide Next, GrantAt, GrantDoes, Prompt, Traces;
    forall i | 0 <= i < 14 ensures Prompt(waits, LateGrantTrace()[i], LateGrant()[i]) {
      LateGrantInTime(waits, i);
    }
    TraceRuns(LateGrantTrace(), LateGrant());
    TracePrompt(waits, LateGrantTrace(), LateGrant());
  }

  // ---------- a reset ----------

  /** A second after a reset of 90 days that was made at 0 has expired. */
  const OVER: nat := MAX_GRANT_SECONDS + 1

  function Again(): Event {
    Event("x", "k", 0, MAX_GRANT_SECONDS, Reset("r", "h"))
  }

  function ResetDoes(i: nat): Action {
    match i
    case 0 => Post(1, Again())
    case 1 => Post(2, Again())
    case 2 => PlanPost(1, {}, false)
    case 3 => Tick(OVER)
    case 4 => PruneDatabase(OVER)
    case 5 => Post(3, Between(OVER))
    case 6 => PlanPost(3, {}, false)
    case _ => PlanPost(2, {}, false)
  }

  function AgainFloor(): Floor {
    Floor(0, FLOOR_RETENTION, "x")
  }

  function ResetRows(): Rows {
    Rows(map[], map[("k", "r") := AgainFloor()], map[])
  }

  function OtherRows(): Rows {
    Rows(map[], map[("k", "q") := BetweenFloor(OVER)], map[])
  }

  function ResetIn(): State {
    State(Setup(), OVER - 2, ResetRows(), ResetRows(), map[], Free, map[2 := Screened(Again(), OVER - 2)], [Again()])
  }

  function ResetAt(i: nat): State {
    match i
    case 0 => Initial(Setup(), OVER - 2)
    case 1 => Initial(Setup(), OVER - 2).(flights := map[1 := Screened(Again(), OVER - 2)])
    case 2 =>
      Initial(Setup(), OVER - 2).(flights := map[1 := Screened(Again(), OVER - 2), 2 := Screened(Again(), OVER - 2)])
    case 3 => ResetIn()
    case 4 => ResetIn().(now := OVER)
    case 5 => ResetIn().(now := OVER, db := Nothing())
    case 6 =>
      ResetIn().(now := OVER, db := Nothing(),
                 flights := map[2 := Screened(Again(), OVER - 2), 3 := Screened(Between(OVER), OVER)])
    case 7 => ResetIn().(now := OVER, db := OtherRows(), snap := OtherRows(), log := [Again(), Between(OVER)])
    case _ =>
      var rows := WriteFloor(OtherRows(), ("k", "r"), AgainFloor());
      State(Setup(), OVER, rows, rows, map[], Free, map[], [Again(), Between(OVER), Again()])
  }

  ghost predicate ResetStep(i: nat) {
    Next(ResetAt(i), ResetDoes(i)) == Some(ResetAt(i + 1))
  }

  lemma {:induction false} AgainLands(rows: Rows, now: nat)
    requires ("k", "r") !in rows.floors
    ensures var plan := Plan(true, None, Some((("k", "r"), AgainFloor())), None);
      Evaluate(Setup(), {}, rows, Again(), now) == Accepted(plan)
        && Commit(rows, plan) == WriteFloor(rows, ("k", "r"), AgainFloor())
  {}

  lemma {:induction false} ResetIsPosted()
    ensures ResetStep(0) && ResetStep(1) && ResetStep(2)
  {
    AgainLands(Nothing(), OVER - 2);
    hide Evaluate, Commit;
    assert ResetAt(1).flights[2 := Screened(Again(), OVER - 2)] == ResetAt(2).flights;
    assert ResetAt(2).flights - {1} == ResetAt(3).flights;
    assert [] + [Again()] == ResetAt(3).log;
    assert WriteFloor(Nothing(), ("k", "r"), AgainFloor()) == ResetRows();
  }

  lemma {:induction false} ResetAges()
    ensures ResetStep(3) && ResetStep(4)
  {
    assert Prune(ResetRows(), OVER) == Nothing();
  }

  lemma {:induction false} ResetReloads()
    ensures ResetStep(5) && ResetStep(6)
  {
    BetweenLands(ResetRows(), OVER);
    BetweenLands(Nothing(), OVER);
    hide Evaluate, Commit, Screen;
    assert WriteFloor(Nothing(), ("k", "q"), BetweenFloor(OVER)) == OtherRows();
    assert ResetAt(5).flights[3 := Screened(Between(OVER), OVER)] == ResetAt(6).flights;
    assert ResetAt(6).flights - {3} == ResetAt(7).flights;
    assert [Again()] + [Between(OVER)] == ResetAt(7).log;
  }

  lemma {:induction false} ResetLandsAgain()
    ensures ResetStep(7)
  {
    AgainLands(OtherRows(), OVER);
    hide Evaluate, Commit;
    assert ResetAt(7).flights - {2} == ResetAt(8).flights;
    assert [Again(), Between(OVER)] + [Again()] == ResetAt(8).log;
  }

  lemma {:induction false} ResetSteps(i: nat)
    requires i < 8
    ensures ResetStep(i)
  {
    hide ResetStep;
    ResetIsPosted();
    ResetAges();
    ResetReloads();
    ResetLandsAgain();
  }

  function LateReset(): seq<Action> {
    seq(8, i requires 0 <= i => ResetDoes(i))
  }

  function LateResetTrace(): seq<State> {
    seq(9, i requires 0 <= i => ResetAt(i))
  }

  lemma {:induction false} LateResetTraces()
    ensures Traces(LateResetTrace(), LateReset())
  {
    hide Next, ResetAt, ResetDoes;
    forall i | 0 <= i < 8 ensures Next(LateResetTrace()[i], LateReset()[i]) == Some(LateResetTrace()[i + 1]) {
      ResetSteps(i);
    }
  }

  lemma {:induction false} LateResetInTime(waits: Waits, i: nat)
    requires waits.resets > RESET_WINDOW && i < 8
    ensures Prompt(waits, ResetAt(i), ResetDoes(i))
  {
    if !(i == 2 || i == 6 || i == 7) {
      assert !ResetDoes(i).PlanPost? && !ResetDoes(i).CommitPush?;
    }
  }

  /** A reset posted twice, the second post waiting two seconds for the update lock, lands twice. */
  lemma {:induction false} LateResetLandsTwice(waits: Waits)
    requires waits.resets > RESET_WINDOW
    ensures PromptRun(waits, Initial(Setup(), OVER - 2), LateReset())
    ensures var s := Run(Initial(Setup(), OVER - 2), LateReset());
      s.Some? && s.value.log == [Again(), Between(OVER), Again()]
  {
    assert LateResetTrace()[0] == Initial(Setup(), OVER - 2);
    assert LateResetTrace()[8].log == [Again(), Between(OVER), Again()];
    LateResetTraces();
    hide Next, ResetAt, ResetDoes, Prompt, Traces;
    forall i | 0 <= i < 8 ensures Prompt(waits, LateResetTrace()[i], LateReset()[i]) {
      LateResetInTime(waits, i);
    }
    TraceRuns(LateResetTrace(), LateReset());
    TracePrompt(waits, LateResetTrace(), LateReset());
  }

  // ---------- the windows are exact ----------

  ghost predicate Distinct(log: seq<Event>) {
    forall i, j | 0 <= i < j < |log| :: log[i] != log[j]
  }

  /** No run whose posts keep to the waits commits an event twice. */
  ghost predicate LandsOnce(waits: Waits) {
    forall cfg, start, actions | PromptRun(waits, Initial(cfg, start), actions)
      && Run(Initial(cfg, start), actions).Some? ::
      Distinct(Run(Initial(cfg, start), actions).value.log)
  }

  /** Replays are harmless exactly when no grant waits more than seven days and
      a second, and no reset more than a second. */
  lemma {:induction false} WindowsAreExact(waits: Waits)
    ensures LandsOnce(waits) <==> waits.grants <= GRANT_WINDOW && waits.resets <= RESET_WINDOW
  {
    hide Run, PromptRun;
    if Within(waits) {
      forall cfg, start, actions | PromptRun(waits, Initial(cfg, start), actions)
        && Run(Initial(cfg, start), actions).Some?
        ensures Distinct(Run(Initial(cfg, start), actions).value.log)
      {
        RunKeepsLog(waits, Initial(cfg, start), actions);
      }
    } else if waits.grants > GRANT_WINDOW {
      LateGrantLandsTwice(waits);
      var log := Run(Initial(Setup(), 0), LateGrant()).value.log;
      assert log[0] == log[2];
    } else {
      LateResetLandsTwice(waits);
      var log := Run(Initial(Setup(), OVER - 2), LateReset()).value.log;
      assert log[0] == log[2];
    }
  }
}
