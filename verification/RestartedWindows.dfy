/** The rolling windows over restarts.  A window is in memory: a restart empties
    it, and the requests that were waiting are gone, so every reading of the clock
    is of the life it is counted in.  A history is one run of steps for each life. */
module RestartedWindows {

  import opened Arithmetic
  import opened RollingWindows

  /** Everything counted in a history that starts at `boot`. */
  function CountedIn(limit: nat, span: nat, boot: nat, lives: seq<seq<Step>>): seq<nat>
    decreases |lives|
  {
    if lives == [] then []
    else
      var m := MeterRun(limit, span, NewMeter(boot), lives[0]);
      m.times + CountedIn(limit, span, m.now, lives[1..])
  }

  /** Whether some request trims a window without being counted in it. */
  datatype Usage = Mixed | AllCounted

  ghost predicate Uses(usage: Usage, boot: nat, steps: seq<Step>) {
    forall i | 0 <= i < |steps| && steps[i].Turn? :: boot <= steps[i].at && (usage.AllCounted? ==> steps[i].count)
  }

  ghost predicate LivesInTime(usage: Usage, limit: nat, span: nat, lag: nat, boot: nat, lives: seq<seq<Step>>)
    decreases |lives|
  {
    lives == [] || (
      && Uses(usage, boot, lives[0]) && InTimeRun(limit, span, lag, NewMeter(boot), lives[0])
      && LivesInTime(usage, limit, span, lag, MeterRun(limit, span, NewMeter(boot), lives[0]).now, lives[1..]))
  }

  /** How far apart entries `limit` places apart in one life are.  A window of one
      in which everything is counted is emptied only by the entry that follows. */
  function Room(usage: Usage, limit: nat, span: nat, lag: nat): int {
    if limit == 1 && usage.AllCounted? then span else span - lag
  }

  // ---------- one life ----------

  ghost predicate LifeInv(usage: Usage, limit: nat, span: nat, lag: nat, boot: nat, m: Meter) {
    && MeterInv(limit, span, lag, m) && boot <= m.now
    && (forall i | 0 <= i < |m.times| :: boot <= m.times[i] <= m.now)
    && Spaced(m.times, limit, Room(usage, limit, span, lag))
    && (limit == 1 && usage.AllCounted? && m.times != [] ==> m.window != [])
  }

  lemma {:induction false} OneAtATime(span: nat, lag: nat, m: Meter, at: nat)
    requires span > 0 && MeterInv(1, span, lag, m) && Spaced(m.times, 1, span) && (m.times != [] ==> m.window != [])
    requires Trim(m.window, at, span) == []
    ensures Spaced(m.times + [at], 1, span)
  {
    var all, n := m.times + [at], |m.times|;
    if n > 0 {
      assert m.window[0] == m.times[n - 1];
      forall i, j | 0 <= i && i + 1 <= j < |all| ensures all[i] + span <= all[j] {
        if j == n && i < n - 1 {
          assert m.times[i] + span <= m.times[n - 1];
        }
      }
    }
  }

  lemma {:induction false} LifeStepKeeps(
      usage: Usage, limit: nat, span: nat, lag: nat, boot: nat, m: Meter, step: Step)
    requires span > 0 && limit > 0 && LifeInv(usage, limit, span, lag, boot, m) && InTime(lag, m.now, step)
    requires step.Turn? ==> boot <= step.at && (usage.AllCounted? ==> step.count)
    ensures LifeInv(usage, limit, span, lag, boot, MeterStep(limit, span, m, step))
  {
    hide MeterInv, Spaced, Trim;
    StepKeeps(limit, span, lag, m, step);
    MeterIsSpaced(limit, span, lag, MeterStep(limit, span, m, step));
    if step.Turn? && limit == 1 && usage.AllCounted? && |Trim(m.window, step.at, span)| < limit {
      OneAtATime(span, lag, m, step.at);
    }
  }

  lemma {:induction false} MeterIsSpaced(limit: nat, span: nat, lag: nat, m: Meter)
    requires MeterInv(limit, span, lag, m)
    ensures Spaced(m.times, limit, span - lag)
  {}

  lemma {:induction false} LifeKeeps(
      usage: Usage, limit: nat, span: nat, lag: nat, boot: nat, m: Meter, steps: seq<Step>)
    requires span > 0 && limit > 0 && LifeInv(usage, limit, span, lag, boot, m)
    requires Uses(usage, boot, steps) && InTimeRun(limit, span, lag, m, steps)
    ensures LifeInv(usage, limit, span, lag, boot, MeterRun(limit, span, m, steps))
    decreases |steps|
  {
    hide LifeInv, MeterStep, InTime;
    if steps != [] {
      LifeStepKeeps(usage, limit, span, lag, boot, m, steps[0]);
      LifeKeeps(usage, limit, span, lag, boot, MeterStep(limit, span, m, steps[0]), steps[1..]);
    }
  }

  // ---------- many lives ----------

  /** From the given place on, entries are `gap` after the boot. */
  ghost predicate After(times: seq<nat>, boot: nat, place: nat, gap: int) {
    && (forall i | 0 <= i < |times| :: boot <= times[i])
    && (forall i | place <= i < |times| :: boot + gap <= times[i])
  }

  lemma {:induction false} LifeAddsLimit(
      usage: Usage, limit: nat, span: nat, lag: nat, boot: nat, m: Meter, rest: seq<nat>, places: nat)
    requires limit > 0 && LifeInv(usage, limit, span, lag, boot, m)
    requires var room := Room(usage, limit, span, lag);
      After(rest, m.now, places, room) && Spaced(rest, places, room)
    ensures var room := Room(usage, limit, span, lag);
      After(m.times + rest, boot, places + limit, room) && Spaced(m.times + rest, places + limit, room)
  {
    var all, room, n := m.times + rest, Room(usage, limit, span, lag), |m.times|;
    forall i | places + limit <= i < |all| ensures boot + room <= all[i] {
      if i < n {
        assert m.times[i - limit] + room <= m.times[i];
      } else if n > limit {
        assert m.times[0] + span <= m.now <= rest[i - n];
      }
    }
    forall i, j | 0 <= i && i + places + limit <= j < |all| ensures all[i] + room <= all[j] {
      if i < n <= j && n - i > limit {
        assert m.times[i] + span <= m.now <= rest[j - n];
      }
    }
  }

  /** Over any number of lives, entries that many times the limit apart are as far
      apart as entries the limit apart in one. */
  lemma {:induction false} LivesAreSpaced(
      usage: Usage, limit: nat, span: nat, lag: nat, boot: nat, lives: seq<seq<Step>>)
    requires span > 0 && limit > 0 && LivesInTime(usage, limit, span, lag, boot, lives)
    ensures var times, room := CountedIn(limit, span, boot, lives), Room(usage, limit, span, lag);
      After(times, boot, limit * |lives|, room) && Spaced(times, limit * |lives|, room)
    decreases |lives|
  {
    hide InTimeRun, MeterRun, LifeInv, After, Spaced;
    var room := Room(usage, limit, span, lag);
    if lives == [] {
      NothingCounted(boot, 0, room);
    } else {
      var m := MeterRun(limit, span, NewMeter(boot), lives[0]);
      LifeBegins(usage, limit, span, lag, boot);
      LifeKeeps(usage, limit, span, lag, boot, NewMeter(boot), lives[0]);
      LivesAreSpaced(usage, limit, span, lag, m.now, lives[1..]);
      assert limit * |lives| == limit * |lives[1..]| + limit;
      LifeAddsLimit(usage, limit, span, lag, boot, m, CountedIn(limit, span, m.now, lives[1..]), limit * |lives[1..]|);
    }
  }

  lemma {:induction false} LifeBegins(usage: Usage, limit: nat, span: nat, lag: nat, boot: nat)
    ensures LifeInv(usage, limit, span, lag, boot, NewMeter(boot))
  {}

  lemma {:induction false} NothingCounted(boot: nat, places: nat, gap: int)
    ensures After([], boot, places, gap) && Spaced([], places, gap)
  {}

  /** Over every history of that many lives, entries the given places apart are `gap` apart. */
  ghost predicate SpacedOver(usage: Usage, limit: nat, span: nat, lag: nat, lives: nat, places: nat, gap: int) {
    forall boot: nat, steps | |steps| == lives && LivesInTime(usage, limit, span, lag, boot, steps) ::
      Spaced(CountedIn(limit, span, boot, steps), places, gap)
  }

  // ---------- a history that attains the bound ----------

  function Fill(n: nat): seq<Step> {
    seq(n, i requires 0 <= i => Turn(0, true))
  }

  /** A request whose reading empties the window; one that read before and locks after. */
  function Closing(usage: Usage, span: nat, lag: nat): seq<Step> {
    [Wait(span), Turn(span, usage.AllCounted?), Turn(SatSub(span, lag), true)]
  }

  /** What the closing counts. */
  function Closed(usage: Usage, limit: nat, span: nat, lag: nat): seq<nat> {
    if usage.Mixed? then [SatSub(span, lag)] else if limit == 1 then [span] else [span, SatSub(span, lag)]
  }

  /** Every life fills the window at once, and the last one closes. */
  function Busy(usage: Usage, limit: nat, span: nat, lag: nat, lives: nat): seq<seq<Step>>
    requires lives > 0
  {
    if lives == 1 then [Fill(limit) + Closing(usage, span, lag)]
    else [Fill(limit)] + Busy(usage, limit, span, lag, lives - 1)
  }

  function Full(n: nat): Meter {
    Meter(0, Copies(n, 0), Copies(n, 0))
  }

  lemma {:induction false} RunsOn(limit: nat, span: nat, lag: nat, m: Meter, front: seq<Step>, back: seq<Step>)
    requires InTimeRun(limit, span, lag, m, front)
    requires InTimeRun(limit, span, lag, MeterRun(limit, span, m, front), back)
    ensures InTimeRun(limit, span, lag, m, front + back)
    ensures MeterRun(limit, span, m, front + back) == MeterRun(limit, span, MeterRun(limit, span, m, front), back)
    decreases |front|
  {
    hide MeterStep, InTime;
    if front == [] {
      assert front + back == back;
    } else {
      RunsOn(limit, span, lag, MeterStep(limit, span, m, front[0]), front[1..], back);
      assert (front + back)[1..] == front[1..] + back;
    }
  }

  lemma {:induction false} FillRuns(limit: nat, span: nat, lag: nat, n: nat)
    requires span > 0 && n <= limit
    ensures InTimeRun(limit, span, lag, Full(limit - n), Fill(n))
    ensures MeterRun(limit, span, Full(limit - n), Fill(n)) == Full(limit)
  {
    if n > 0 {
      var m := Full(limit - n);
      assert Trim(m.window, 0, span) == m.window;
      assert Copies(limit - n, 0) + [0] == Copies(limit - n + 1, 0);
      assert MeterStep(limit, span, m, Fill(n)[0]) == Full(limit - (n - 1));
      assert Fill(n)[1..] == Fill(n - 1);
      FillRuns(limit, span, lag, n - 1);
    }
  }

  lemma {:induction false} ClosingRuns(usage: Usage, limit: nat, span: nat, lag: nat)
    requires span > 0 && limit > 0
    ensures InTimeRun(limit, span, lag, Full(limit), Closing(usage, span, lag))
    ensures MeterRun(limit, span, Full(limit), Closing(usage, span, lag)).times
      == Copies(limit, 0) + Closed(usage, limit, span, lag)
  {
    var all, late := Closing(usage, span, lag), SatSub(span, lag);
    TrimCopies(limit, 0, span);
    var m0 := Full(limit);
    var m1 := MeterStep(limit, span, m0, all[0]);
    var m2 := MeterStep(limit, span, m1, all[1]);
    assert m2.now == span && m2.window == if usage.AllCounted? then [span] else [];
    assert Trim(m2.window, late, span) == m2.window;
    var m3 := MeterStep(limit, span, m2, all[2]);
    assert m3.times == Copies(limit, 0) + Closed(usage, limit, span, lag);
    hide MeterStep;
    assert all[1..][1..] == [all[2]] && all[1..][0] == all[1];
    assert MeterRun(limit, span, m2, [all[2]]) == m3 && InTimeRun(limit, span, lag, m2, [all[2]]);
    assert MeterRun(limit, span, m1, all[1..]) == m3 && InTimeRun(limit, span, lag, m1, all[1..]);
  }

  lemma {:induction false} BusyIsCounted(usage: Usage, limit: nat, span: nat, lag: nat, lives: nat)
    requires span > 0 && limit > 0 && lives > 0
    ensures var steps := Busy(usage, limit, span, lag, lives);
      && |steps| == lives && LivesInTime(usage, limit, span, lag, 0, steps)
      && CountedIn(limit, span, 0, steps) == Copies(limit * lives, 0) + Closed(usage, limit, span, lag)
  {
    hide MeterRun, InTimeRun, Closing, Closed;
    var steps := Busy(usage, limit, span, lag, lives);
    FillRuns(limit, span, lag, limit);
    assert Full(0) == NewMeter(0);
    assert Uses(usage, 0, Fill(limit));
    if lives == 1 {
      ClosingRuns(usage, limit, span, lag);
      RunsOn(limit, span, lag, NewMeter(0), Fill(limit), Closing(usage, span, lag));
      ClosingUses(usage, span, lag);
      assert steps[1..] == [];
    } else {
      BusyIsCounted(usage, limit, span, lag, lives - 1);
      assert steps[0] == Fill(limit) && steps[1..] == Busy(usage, limit, span, lag, lives - 1);
      assert limit * lives == limit + limit * (lives - 1);
      assert Copies(limit, 0) + Copies(limit * (lives - 1), 0) == Copies(limit * lives, 0);
    }
  }

  lemma {:induction false} ClosingUses(usage: Usage, span: nat, lag: nat)
    ensures Uses(usage, 0, Closing(usage, span, lag))
  {}

  /** Entries that many places apart, at most the limit for each life, are a gap
      apart exactly when they are the whole limit for each life apart and the gap
      fits one life: after a restart the window is empty, and what was counted
      before it can follow at once. */
  lemma {:induction false} RestartsAreExact(
      usage: Usage, limit: nat, span: nat, lag: nat, lives: nat, places: nat, gap: int)
    requires span > 0 && limit > 0 && lives > 0 && places <= limit * lives && gap > 0
    ensures SpacedOver(usage, limit, span, lag, lives, places, gap) <==>
      places == limit * lives && gap <= Room(usage, limit, span, lag)
  {
    hide LivesInTime, CountedIn, Busy;
    if places == limit * lives && gap <= Room(usage, limit, span, lag) {
      forall boot: nat, steps | |steps| == lives && LivesInTime(usage, limit, span, lag, boot, steps)
        ensures Spaced(CountedIn(limit, span, boot, steps), places, gap)
      {
        LivesAreSpaced(usage, limit, span, lag, boot, steps);
      }
    } else {
      BusyIsCounted(usage, limit, span, lag, lives);
      var times, i := CountedIn(limit, span, 0, Busy(usage, limit, span, lag, lives)),
        if places == limit * lives && usage.AllCounted? && limit > 1 then 1 else 0;
      assert times[i] + gap > times[i + places];
    }
  }
}
