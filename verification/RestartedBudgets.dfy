/** The hourly budgets of all devices over restarts, which empty their windows. */
module RestartedBudgets {

  import opened Budgets
  import opened RestartedWindows

  /** All grants to one device in a history that starts at `boot`. */
  function GrantedIn(limit: nat, boot: nat, lives: seq<seq<GateStep>>, device: string): seq<nat>
    decreases |lives|
  {
    if lives == [] then []
    else
      var g := GateRun(limit, NewGate(boot), lives[0]);
      WindowOf(g.granted, device) + GrantedIn(limit, g.now, lives[1..], device)
  }

  /** Every request reads the clock in its own life, and at most `lag` before it has the rate lock. */
  ghost predicate GatesInTime(limit: nat, lag: nat, boot: nat, lives: seq<seq<GateStep>>)
    decreases |lives|
  {
    lives == [] || (
      && (forall i | 0 <= i < |lives[0]| && lives[0][i].Admit? :: boot <= lives[0][i].at)
      && GateInTime(limit, lag, NewGate(boot), lives[0])
      && GatesInTime(limit, lag, GateRun(limit, NewGate(boot), lives[0]).now, lives[1..]))
  }

  function TurnsIn(lives: seq<seq<GateStep>>, device: string): seq<seq<RollingWindows.Step>> {
    seq(|lives|, i requires 0 <= i < |lives| => TurnsOf(lives[i], device))
  }

  /** To one device the history is one of its own window. */
  lemma {:induction false} LivesProject(limit: nat, lag: nat, boot: nat, lives: seq<seq<GateStep>>, device: string)
    ensures GrantedIn(limit, boot, lives, device)
      == CountedIn(Effective(limit), RATE_WINDOW, boot, TurnsIn(lives, device))
    ensures GatesInTime(limit, lag, boot, lives) <==>
      LivesInTime(Mixed, Effective(limit), RATE_WINDOW, lag, boot, TurnsIn(lives, device))
    decreases |lives|
  {
    hide GateRun, GateInTime, Effective, RollingWindows.MeterRun, RollingWindows.InTimeRun;
    if lives != [] {
      var turns := TurnsIn(lives, device);
      RunProjects(limit, lag, NewGate(boot), lives[0], device);
      LivesProject(limit, lag, GateRun(limit, NewGate(boot), lives[0]).now, lives[1..], device);
      assert turns[0] == TurnsOf(lives[0], device) && turns[1..] == TurnsIn(lives[1..], device);
      UsesProjects(boot, lives[0], device);
    }
  }

  lemma {:induction false} UsesProjects(boot: nat, steps: seq<GateStep>, device: string)
    ensures Uses(Mixed, boot, TurnsOf(steps, device)) <==>
      forall i | 0 <= i < |steps| && steps[i].Admit? :: boot <= steps[i].at
  {
    var turns := TurnsOf(steps, device);
    assert forall i | 0 <= i < |steps| :: turns[i].Turn? <==> steps[i].Admit?;
    assert forall i | 0 <= i < |steps| && steps[i].Admit? :: turns[i].at == steps[i].at;
  }

  /** Over every history of that many lives, grants to a device the given places apart are `gap` apart. */
  ghost predicate BudgetOver(limit: nat, lag: nat, lives: nat, places: nat, gap: int) {
    forall boot: nat, steps: seq<seq<GateStep>>, device |
      |steps| == lives && GatesInTime(limit, lag, boot, steps) ::
      RollingWindows.Spaced(GrantedIn(limit, boot, steps, device), places, gap)
  }

  function RequestsIn(lives: seq<seq<RollingWindows.Step>>): seq<seq<GateStep>> {
    seq(|lives|, i requires 0 <= i < |lives| => Requests(lives[i]))
  }

  lemma {:induction false} RequestsAreTurns(lives: seq<seq<RollingWindows.Step>>)
    ensures TurnsIn(RequestsIn(lives), "d") == lives
  {
    forall i | 0 <= i < |lives| ensures TurnsOf(Requests(lives[i]), "d") == lives[i] {
      assert |TurnsOf(Requests(lives[i]), "d")| == |lives[i]|;
    }
  }

  /** With restarts a device has its limit for each life of the process: grants
      that many places apart, and no fewer, are the hour less the longest wait apart. */
  lemma {:induction false} BudgetOverRestarts(limit: nat, lag: nat, lives: nat, places: nat, gap: int)
    requires lives > 0 && places <= Effective(limit) * lives && gap > 0
    ensures BudgetOver(limit, lag, lives, places, gap) <==>
      places == Effective(limit) * lives && gap + lag <= RATE_WINDOW
  {
    hide GrantedIn, GatesInTime, CountedIn, LivesInTime, RollingWindows.Spaced, Effective;
    var n := Effective(limit);
    RestartsAreExact(Mixed, n, RATE_WINDOW, lag, lives, places, gap);
    if SpacedOver(Mixed, n, RATE_WINDOW, lag, lives, places, gap) {
      forall boot: nat, steps: seq<seq<GateStep>>, device | |steps| == lives && GatesInTime(limit, lag, boot, steps)
        ensures RollingWindows.Spaced(GrantedIn(limit, boot, steps, device), places, gap)
      {
        LivesProject(limit, lag, boot, steps, device);
      }
    } else {
      var boot: nat, turns :| |turns| == lives && LivesInTime(Mixed, n, RATE_WINDOW, lag, boot, turns)
        && !RollingWindows.Spaced(CountedIn(n, RATE_WINDOW, boot, turns), places, gap);
      RequestsAreTurns(turns);
      LivesProject(limit, lag, boot, RequestsIn(turns), "d");
    }
  }
}
