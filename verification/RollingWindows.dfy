/** The rolling window behind every rate limit: `roll` (`grants/group.rs`) and
    the windows of `authorise` (`grants/device_auth.rs`).  A request reads the
    clock before it has the lock, and is counted and trims by that reading. */
module RollingWindows {

  import opened Arithmetic

  const GRANTS_WINDOW: nat := 60

  /** An entry and the one `limit` places later are at least `gap` apart. */
  ghost predicate Spaced(times: seq<nat>, limit: nat, gap: int) {
    forall i, j | 0 <= i && i + limit <= j < |times| :: times[i] + gap <= times[j]
  }

  /** `window` is the end of `times`, and what is gone was `span` old by `now`. */
  ghost predicate Recent(window: seq<nat>, times: seq<nat>, now: nat, span: nat) {
    && |window| <= |times| && window == times[|times| - |window|..]
    && forall i | 0 <= i < |times| - |window| :: times[i] + span <= now
  }

  /** Every entry counted so far and the window kept of them, at `now`, if no
      request waited longer than `lag` for the lock. */
  ghost predicate Counted(window: seq<nat>, times: seq<nat>, now: nat, limit: nat, span: nat, lag: nat) {
    Spaced(times, limit, span - lag) && Recent(window, times, now, span) && |window| <= limit
  }

  /** Forget from the front what is `span` old. */
  function Trim(window: seq<nat>, at: nat, span: nat): seq<nat> {
    if window != [] && SatSub(at, window[0]) >= span then Trim(window[1..], at, span) else window
  }

  lemma {:induction false} TrimKeeps(
      window: seq<nat>, times: seq<nat>, at: nat, now: nat, limit: nat, span: nat, lag: nat)
    requires span > 0 && at <= now && Counted(window, times, now, limit, span, lag)
    ensures Counted(Trim(window, at, span), times, now, limit, span, lag)
    ensures var w := Trim(window, at, span); w != [] ==> at < w[0] + span
    decreases |window|
  {
    if window != [] && SatSub(at, window[0]) >= span {
      var gone := |times| - |window|;
      assert window[0] == times[gone] && window[1..] == times[gone + 1..];
      TrimKeeps(window[1..], times, at, now, limit, span, lag);
    }
  }

  lemma {:induction false} CountKeeps(
      window: seq<nat>, times: seq<nat>, at: nat, now: nat, limit: nat, span: nat, lag: nat)
    requires Counted(window, times, now, limit, span, lag) && |window| < limit && now <= at + lag
    ensures Counted(window + [at], times + [at], now, limit, span, lag)
  {
    var all, gone := times + [at], |times| - |window|;
    assert window + [at] == all[gone..];
    forall i, j | 0 <= i && i + limit <= j < |all| ensures all[i] + (span - lag) <= all[j] {
      if j == |times| {
        assert i < gone;
      }
    }
  }

  /** Trimming leaves room exactly when there was room or the oldest entry kept is old. */
  lemma {:induction false} TrimMakesRoom(window: seq<nat>, at: nat, limit: nat, span: nat)
    requires span > 0 && |window| <= limit
    ensures |Trim(window, at, span)| < limit <==> |window| < limit || (window != [] && window[0] + span <= at)
  {
    TrimShortens(window, at, span);
    if window != [] {
      TrimShortens(window[1..], at, span);
    }
  }

  lemma {:induction false} TrimShortens(window: seq<nat>, at: nat, span: nat)
    ensures |Trim(window, at, span)| <= |window|
    decreases |window|
  {
    if window != [] {
      TrimShortens(window[1..], at, span);
    }
  }

  /** What room in the window, or none, says of all that was ever counted. */
  lemma {:induction false} RoomMeans(window: seq<nat>, times: seq<nat>, now: nat, limit: nat, span: nat, lag: nat)
    requires Counted(window, times, now, limit, span, lag)
    ensures |window| < limit ==> |times| < limit || times[|times| - limit] + span <= now
    ensures |window| >= limit ==> limit <= |times| && (window != [] ==> times[|times| - limit] == window[0])
  {}

  method TrimLoop(window: seq<nat>, at: nat, span: nat) returns (kept: seq<nat>)
    ensures kept == Trim(window, at, span)
  {
    kept := window;
    while kept != [] && SatSub(at, kept[0]) >= span
      invariant Trim(kept, at, span) == Trim(window, at, span)
      decreases |kept|
    {
      kept := kept[1..];
    }
  }

  /** `roll`: forget old entries, refuse at the limit, and count when asked.
      `at` is the reading of the clock, `now` the time at which the lock is held,
      and `times` every entry ever counted. */
  method Roll(window: seq<nat>, at: nat, limit: nat, count: bool, ghost times: seq<nat>, ghost now: nat, ghost lag: nat)
    returns (within: bool, window': seq<nat>, ghost times': seq<nat>)
    requires at <= now <= at + lag && Counted(window, times, now, limit, GRANTS_WINDOW, lag)
    ensures times' == if within && count then times + [at] else times
    ensures Counted(window', times', now, limit, GRANTS_WINDOW, lag)
    ensures within <==> |window| < limit || (window != [] && window[0] + GRANTS_WINDOW <= at)
    ensures within ==> |times| < limit || times[|times| - limit] + GRANTS_WINDOW <= now
    ensures !within && limit > 0 ==> limit <= |times| && at < times[|times| - limit] + GRANTS_WINDOW
  {
    hide Counted, Trim;
    window' := TrimLoop(window, at, GRANTS_WINDOW);
    times' := times;
    TrimKeeps(window, times, at, now, limit, GRANTS_WINDOW, lag);
    WindowFits(window, times, now, limit, GRANTS_WINDOW, lag);
    TrimMakesRoom(window, at, limit, GRANTS_WINDOW);
    RoomMeans(window', times, now, limit, GRANTS_WINDOW, lag);
    within := |window'| < limit;
    if within && count {
      CountKeeps(window', times, at, now, limit, GRANTS_WINDOW, lag);
      window' := window' + [at];
      times' := times + [at];
    }
  }

  lemma {:induction false} WindowFits(window: seq<nat>, times: seq<nat>, now: nat, limit: nat, span: nat, lag: nat)
    requires Counted(window, times, now, limit, span, lag)
    ensures |window| <= limit
  {}

  // ---------- every history of one window ----------

  /** A window and all that was counted in it. */
  datatype Meter = Meter(now: nat, window: seq<nat>, times: seq<nat>)

  datatype Step = Wait(until: nat) | Turn(at: nat, count: bool)

  function MeterStep(limit: nat, span: nat, m: Meter, step: Step): Meter {
    match step
    case Wait(until) => m.(now := Max(m.now, until))
    case Turn(at, count) =>
      var kept := Trim(m.window, at, span);
      if count && |kept| < limit then m.(window := kept + [at], times := m.times + [at]) else m.(window := kept)
  }

  function MeterRun(limit: nat, span: nat, m: Meter, steps: seq<Step>): Meter
    decreases |steps|
  {
    if steps == [] then m else MeterRun(limit, span, MeterStep(limit, span, m, steps[0]), steps[1..])
  }

  /** The clock was read before the lock was had, and at most `lag` before. */
  ghost predicate InTime(lag: nat, now: nat, step: Step) {
    step.Turn? ==> step.at <= now <= step.at + lag
  }

  ghost predicate InTimeRun(limit: nat, span: nat, lag: nat, m: Meter, steps: seq<Step>)
    decreases |steps|
  {
    steps == [] || (InTime(lag, m.now, steps[0])
      && InTimeRun(limit, span, lag, MeterStep(limit, span, m, steps[0]), steps[1..]))
  }

  function NewMeter(now: nat): Meter {
    Meter(now, [], [])
  }

  ghost predicate MeterInv(limit: nat, span: nat, lag: nat, m: Meter) {
    Counted(m.window, m.times, m.now, limit, span, lag)
  }

  lemma {:induction false} StepKeeps(limit: nat, span: nat, lag: nat, m: Meter, step: Step)
    requires span > 0 && MeterInv(limit, span, lag, m) && InTime(lag, m.now, step)
    ensures MeterInv(limit, span, lag, MeterStep(limit, span, m, step))
  {
    if step.Turn? {
      hide Counted, Trim;
      TrimKeeps(m.window, m.times, step.at, m.now, limit, span, lag);
      var kept := Trim(m.window, step.at, span);
      if |kept| < limit {
        CountKeeps(kept, m.times, step.at, m.now, limit, span, lag);
      }
    }
  }

  lemma {:induction false} RunKeeps(limit: nat, span: nat, lag: nat, m: Meter, steps: seq<Step>)
    requires span > 0 && MeterInv(limit, span, lag, m) && InTimeRun(limit, span, lag, m, steps)
    ensures MeterInv(limit, span, lag, MeterRun(limit, span, m, steps))
    decreases |steps|
  {
    hide MeterInv, MeterStep, InTime;
    if steps != [] {
      StepKeeps(limit, span, lag, m, steps[0]);
      RunKeeps(limit, span, lag, MeterStep(limit, span, m, steps[0]), steps[1..]);
    }
  }

  /** Over every history within the lag, entries `limit` places apart are `gap` apart. */
  ghost predicate SpacedWithin(limit: nat, span: nat, lag: nat, gap: int) {
    forall now: nat, steps | InTimeRun(limit, span, lag, NewMeter(now), steps) ::
      Spaced(MeterRun(limit, span, NewMeter(now), steps).times, limit, gap)
  }

  // ---------- a history that attains the bound ----------

  /** The time of the first entries of the late history. */
  function Early(span: nat, lag: nat): nat {
    SatSub(lag, span)
  }

  /** The reading of the request that waits. */
  function Read(span: nat, lag: nat): nat {
    Early(span, lag) + span - lag
  }

  function Copies(n: nat, at: nat): (times: seq<nat>)
    ensures |times| == n
  {
    seq(n, i requires 0 <= i => at)
  }

  /** A full window; a request whose reading empties it; one that read before and
      locks after.  Where every request counts, `RestartedWindows` has the history. */
  function Late(limit: nat, span: nat, lag: nat): seq<Step> {
    var at := Early(span, lag);
    seq(limit, i requires 0 <= i => Turn(at, true))
    + [Wait(at + span), Turn(at + span, false), Turn(Read(span, lag), true)]
  }

  lemma {:induction false} TrimCopies(n: nat, at: nat, span: nat)
    ensures Trim(Copies(n, at), at + span, span) == []
  {
    if n > 0 {
      assert Copies(n, at)[1..] == Copies(n - 1, at);
      TrimCopies(n - 1, at, span);
    }
  }

  lemma {:induction false} LateEnds(limit: nat, span: nat, lag: nat)
    requires span > 0 && limit > 0
    ensures var at := Early(span, lag); var m := Meter(at, Copies(limit, at), Copies(limit, at));
      && InTimeRun(limit, span, lag, m, Late(limit, span, lag)[limit..])
      && MeterRun(limit, span, m, Late(limit, span, lag)[limit..]).times == Copies(limit, at) + [Read(span, lag)]
  {
    var at, all := Early(span, lag), Late(limit, span, lag)[limit..];
    var m := Meter(at, Copies(limit, at), Copies(limit, at));
    TrimCopies(limit, at, span);
    hide Trim;
    assert all == [Wait(at + span), Turn(at + span, false), Turn(Read(span, lag), true)];
    var m1 := MeterStep(limit, span, m, all[0]);
    var m2 := MeterStep(limit, span, m1, all[1]);
    assert m2 == Meter(at + span, [], Copies(limit, at));
    assert Trim([], Read(span, lag), span) == [] by { TrimShortens([], Read(span, lag), span); }
    var m3 := MeterStep(limit, span, m2, all[2]);
    assert m3.times == Copies(limit, at) + [Read(span, lag)];
    hide MeterStep;
    assert all[1..][1..] == [all[2]] && all[1..][0] == all[1];
    assert MeterRun(limit, span, m2, [all[2]]) == m3 && InTimeRun(limit, span, lag, m2, [all[2]]);
    assert MeterRun(limit, span, m1, all[1..]) == m3 && InTimeRun(limit, span, lag, m1, all[1..]);
  }

  lemma {:induction false} LateFrom(limit: nat, span: nat, lag: nat, n: nat)
    requires span > 0 && 0 < limit && n <= limit
    ensures var at := Early(span, lag); var m := Meter(at, Copies(n, at), Copies(n, at));
      && InTimeRun(limit, span, lag, m, Late(limit, span, lag)[n..])
      && MeterRun(limit, span, m, Late(limit, span, lag)[n..]).times == Copies(limit, at) + [Read(span, lag)]
    decreases limit - n
  {
    if n == limit {
      LateEnds(limit, span, lag);
    } else {
      var at, rest := Early(span, lag), Late(limit, span, lag)[n..];
      var m := Meter(at, Copies(n, at), Copies(n, at));
      assert Trim(m.window, at, span) == m.window;
      assert Copies(n, at) + [at] == Copies(n + 1, at);
      assert MeterStep(limit, span, m, rest[0]) == Meter(at, Copies(n + 1, at), Copies(n + 1, at));
      LateFrom(limit, span, lag, n + 1);
      assert rest[1..] == Late(limit, span, lag)[n + 1..];
    }
  }

  /** The late history keeps to the lag, and its last entry is `span - lag` after its first. */
  lemma {:induction false} LateIsCounted(limit: nat, span: nat, lag: nat)
    requires span > 0 && limit > 0
    ensures InTimeRun(limit, span, lag, NewMeter(Early(span, lag)), Late(limit, span, lag))
    ensures var times := MeterRun(limit, span, NewMeter(Early(span, lag)), Late(limit, span, lag)).times;
      |times| == limit + 1 && times[limit] == times[0] + span - lag
  {
    hide InTimeRun, MeterRun, Late;
    LateFrom(limit, span, lag, 0);
    assert Copies(0, Early(span, lag)) == [];
    assert Late(limit, span, lag)[0..] == Late(limit, span, lag);
  }

  /** Entries `limit` places apart are `gap` apart in every history of one process exactly when
      the gap and the longest wait for the lock fit the span together. */
  lemma {:induction false} SpacingIsExact(limit: nat, span: nat, lag: nat, gap: int)
    requires span > 0 && limit > 0
    ensures SpacedWithin(limit, span, lag, gap) <==> gap + lag <= span
  {
    hide InTimeRun, MeterRun, Late;
    if gap + lag <= span {
      forall now: nat, steps | InTimeRun(limit, span, lag, NewMeter(now), steps)
        ensures Spaced(MeterRun(limit, span, NewMeter(now), steps).times, limit, gap)
      {
        RunKeeps(limit, span, lag, NewMeter(now), steps);
      }
    } else {
      LateIsCounted(limit, span, lag);
      var times := MeterRun(limit, span, NewMeter(Early(span, lag)), Late(limit, span, lag)).times;
      assert times[0] + gap > times[limit];
    }
  }
}
