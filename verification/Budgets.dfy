/** Single-use ids, which both databases prune, and what a device must pass to
    be issued something (`authorise`, `grants/device_auth.rs`). */
module Budgets {

  import opened Arithmetic
  import RollingWindows

  const RATE_WINDOW: nat := 60 * 60
  const REPLAY_WINDOW: nat := 120
  const FRESH_AHEAD: nat := 30
  const FRESH_BEHIND: nat := 60
  const FUTURE_SKEW: nat := 30
  /** How long a verified NIP-98 event may wait for its id to be spent. */
  const NIP98_LAG: nat := REPLAY_WINDOW - FRESH_AHEAD - FRESH_BEHIND

  // ---------- single use ----------

  /** When a request carrying an id verifies, and until when the row that spends
      the id is kept, given when the request was verified. */
  datatype Rule = Rule(valid: (string, nat) -> bool, keep: (string, nat) -> nat)

  /** A request whose id was verified at `at` and is not spent yet. */
  datatype Seen = Seen(task: nat, id: string, at: nat)

  datatype Table = Table(used: map<string, nat>, accepted: seq<string>)

  /** `consume_event`: the first to insert the id has it; the clock is not read again. */
  function Spend(rule: Rule, t: Table, seen: Seen): Table {
    if seen.id in t.used then t
    else Table(t.used[seen.id := rule.keep(seen.id, seen.at)], t.accepted + [seen.id])
  }

  /** `prune` drops the rows that ended before `at`. */
  function PruneTable(t: Table, at: nat): Table {
    t.(used := map id | id in t.used && t.used[id] >= at :: t.used[id])
  }

  datatype Desk = Desk(now: nat, seen: set<Seen>, table: Table)

  datatype Step = Wait(until: nat) | Verify(task: nat, id: string) | Consume(seen: Seen) | Prune(at: nat)

  function DeskStep(rule: Rule, d: Desk, step: Step): Desk {
    match step
    case Wait(until) => d.(now := Max(d.now, until))
    case Verify(task, id) => if rule.valid(id, d.now) then d.(seen := d.seen + {Seen(task, id, d.now)}) else d
    case Consume(seen) => if seen in d.seen then Desk(d.now, d.seen - {seen}, Spend(rule, d.table, seen)) else d
    // The clock is read before the lock is taken.
    case Prune(at) => if at <= d.now then d.(table := PruneTable(d.table, at)) else d
  }

  function DeskRun(rule: Rule, d: Desk, steps: seq<Step>): Desk
    decreases |steps|
  {
    if steps == [] then d else DeskRun(rule, DeskStep(rule, d, steps[0]), steps[1..])
  }

  function OpenDesk(now: nat): Desk {
    Desk(now, {}, Table(map[], []))
  }

  /** No more than `lag` passes between a verification and its spending. */
  ghost predicate PromptSteps(rule: Rule, lag: nat, d: Desk, steps: seq<Step>)
    decreases |steps|
  {
    steps == [] || (
      && (steps[0].Consume? ==> d.now <= steps[0].seen.at + lag)
      && PromptSteps(rule, lag, DeskStep(rule, d, steps[0]), steps[1..]))
  }

  /** The row of any verified request outlasts every other request with its id. */
  ghost predicate Outlasts(rule: Rule, lag: nat) {
    forall id, at: nat, other: nat | rule.valid(id, at) && rule.valid(id, other) :: other + lag <= rule.keep(id, at)
  }

  /** Nothing verified with this id could be spent in time any more. */
  ghost predicate Gone(rule: Rule, lag: nat, id: string, now: nat) {
    forall at: nat | rule.valid(id, at) :: at + lag < now
  }

  ghost predicate TableInv(rule: Rule, lag: nat, t: Table, now: nat) {
    && (forall id, at: nat | id in t.used && rule.valid(id, at) :: at + lag <= t.used[id])
    && (forall i | 0 <= i < |t.accepted| :: t.accepted[i] in t.used || Gone(rule, lag, t.accepted[i], now))
    && (forall i, j | 0 <= i < j < |t.accepted| :: t.accepted[i] != t.accepted[j])
  }

  lemma {:induction false} TableWaits(rule: Rule, lag: nat, t: Table, before: nat, now: nat)
    requires TableInv(rule, lag, t, before) && before <= now
    ensures TableInv(rule, lag, t, now)
  {
    forall i | 0 <= i < |t.accepted| ensures t.accepted[i] in t.used || Gone(rule, lag, t.accepted[i], now) {
      assert t.accepted[i] in t.used || Gone(rule, lag, t.accepted[i], before);
    }
  }

  lemma {:induction false} SpendKeeps(rule: Rule, lag: nat, t: Table, now: nat, seen: Seen)
    requires TableInv(rule, lag, t, now) && Outlasts(rule, lag)
    requires rule.valid(seen.id, seen.at) && now <= seen.at + lag
    ensures TableInv(rule, lag, Spend(rule, t, seen), now)
  {
    var next := Spend(rule, t, seen);
    if next != t {
      forall i | 0 <= i < |t.accepted| ensures t.accepted[i] != seen.id {
        assert t.accepted[i] in t.used || Gone(rule, lag, t.accepted[i], now);
      }
      forall i | 0 <= i < |next.accepted|
        ensures next.accepted[i] in next.used || Gone(rule, lag, next.accepted[i], now)
      {
        assert i < |t.accepted| ==> t.accepted[i] in t.used || Gone(rule, lag, t.accepted[i], now);
      }
    }
  }

  lemma {:induction false} PruneKeeps(rule: Rule, lag: nat, t: Table, now: nat, at: nat)
    requires TableInv(rule, lag, t, now) && at <= now
    ensures TableInv(rule, lag, PruneTable(t, at), now)
  {
    var next := PruneTable(t, at);
    forall i | 0 <= i < |t.accepted| ensures t.accepted[i] in next.used || Gone(rule, lag, t.accepted[i], now) {
      assert t.accepted[i] in t.used || Gone(rule, lag, t.accepted[i], now);
    }
  }

  ghost predicate DeskInv(rule: Rule, lag: nat, d: Desk) {
    && TableInv(rule, lag, d.table, d.now)
    && (forall seen | seen in d.seen :: rule.valid(seen.id, seen.at))
  }

  lemma {:induction false} StepsKeep(rule: Rule, lag: nat, d: Desk, steps: seq<Step>)
    requires Outlasts(rule, lag) && DeskInv(rule, lag, d) && PromptSteps(rule, lag, d, steps)
    ensures DeskInv(rule, lag, DeskRun(rule, d, steps))
    decreases |steps|
  {
    hide TableInv, Outlasts, Spend, PruneTable;
    if steps != [] {
      var step := steps[0];
      match step {
        case Wait(until) => TableWaits(rule, lag, d.table, d.now, Max(d.now, until));
        case Verify(_, _) =>
        case Consume(seen) =>
          if seen in d.seen {
            SpendKeeps(rule, lag, d.table, d.now, seen);
          }
        case Prune(at) =>
          if at <= d.now {
            PruneKeeps(rule, lag, d.table, d.now, at);
          }
      }
      StepsKeep(rule, lag, DeskStep(rule, d, step), steps[1..]);
    }
  }

  ghost predicate Distinct(ids: seq<string>) {
    forall i, j | 0 <= i < j < |ids| :: ids[i] != ids[j]
  }

  /** Over every history in which requests are spent within `lag`, no id is accepted twice. */
  ghost predicate SpentOnce(rule: Rule, lag: nat) {
    forall now: nat, steps | PromptSteps(rule, lag, OpenDesk(now), steps) ::
      Distinct(DeskRun(rule, OpenDesk(now), steps).table.accepted)
  }

  /** Two requests with one id, the row of the one verified at `at` ending
      before the one verified at `other` has to be spent. */
  ghost predicate Overdue(rule: Rule, lag: nat, id: string, at: nat, other: nat) {
    rule.valid(id, at) && rule.valid(id, other) && at <= rule.keep(id, at) < other + lag
  }

  /** Both requests are verified, in the order of their times, and the first is spent. */
  function Opening(id: string, at: nat, other: nat): seq<Step> {
    if at <= other then [Verify(0, id), Consume(Seen(0, id, at)), Wait(other), Verify(1, id)]
    else [Verify(1, id), Wait(at), Verify(0, id), Consume(Seen(0, id, at))]
  }

  function Closing(lag: nat, id: string, other: nat): seq<Step> {
    [Wait(other + lag), Prune(other + lag), Consume(Seen(1, id, other))]
  }

  lemma {:induction false} OpeningRuns(rule: Rule, lag: nat, id: string, at: nat, other: nat)
    requires Overdue(rule, lag, id, at, other)
    ensures var start := OpenDesk(Min(at, other));
      && PromptSteps(rule, lag, start, Opening(id, at, other))
      && DeskRun(rule, start, Opening(id, at, other)) ==
           Desk(Max(at, other), {Seen(1, id, other)}, Table(map[id := rule.keep(id, at)], [id]))
  {
    var start, steps, row := OpenDesk(Min(at, other)), Opening(id, at, other),
      Table(map[id := rule.keep(id, at)], [id]);
    var one, two := Seen(0, id, at), Seen(1, id, other);
    var s1, s2, s3, s4 := steps[1..], steps[2..], steps[3..], steps[4..];
    assert s1 == steps[1..] && s1[1..] == s2 && s2[1..] == s3 && s3[1..] == s4 == [];
    var d1 := DeskStep(rule, start, steps[0]);
    var d2 := DeskStep(rule, d1, steps[1]);
    var d3 := DeskStep(rule, d2, steps[2]);
    var d4 := DeskStep(rule, d3, steps[3]);
    if at <= other {
      assert d1 == Desk(at, {one}, Table(map[], []));
      assert d2 == Desk(at, {}, row);
      assert d3 == Desk(other, {}, row);
      assert d4 == Desk(other, {two}, row);
    } else {
      assert d1 == Desk(other, {two}, Table(map[], []));
      assert d2 == Desk(at, {two}, Table(map[], []));
      assert d3 == Desk(at, {two, one}, Table(map[], []));
      assert d4 == Desk(at, {two}, row);
    }
    hide DeskStep;
    assert DeskRun(rule, d3, s3) == d4 && PromptSteps(rule, lag, d3, s3);
    assert DeskRun(rule, d2, s2) == d4 && PromptSteps(rule, lag, d2, s2);
    assert DeskRun(rule, d1, s1) == d4 && PromptSteps(rule, lag, d1, s1);
  }

  lemma {:induction false} ClosingRuns(rule: Rule, lag: nat, id: string, at: nat, other: nat)
    requires Overdue(rule, lag, id, at, other)
    ensures var d := Desk(Max(at, other), {Seen(1, id, other)}, Table(map[id := rule.keep(id, at)], [id]));
      && PromptSteps(rule, lag, d, Closing(lag, id, other))
      && DeskRun(rule, d, Closing(lag, id, other)).table.accepted == [id, id]
  {
    var steps, two := Closing(lag, id, other), Seen(1, id, other);
    var d := Desk(Max(at, other), {two}, Table(map[id := rule.keep(id, at)], [id]));
    var s1, s2 := steps[1..], steps[2..];
    assert s1[1..] == s2 && s2[1..] == [];
    var d1 := DeskStep(rule, d, steps[0]);
    var d2 := DeskStep(rule, d1, steps[1]);
    var d3 := DeskStep(rule, d2, steps[2]);
    assert d1.now == other + lag && d2 == Desk(other + lag, {two}, Table(map[], [id])) && d3.table.accepted == [id, id];
    hide DeskStep;
    assert DeskRun(rule, d2, s2) == d3 && PromptSteps(rule, lag, d2, s2);
    assert DeskRun(rule, d1, s1) == d3 && PromptSteps(rule, lag, d1, s1);
  }

  lemma {:induction false} DeskRunsOn(rule: Rule, lag: nat, d: Desk, front: seq<Step>, back: seq<Step>)
    ensures DeskRun(rule, d, front + back) == DeskRun(rule, DeskRun(rule, d, front), back)
    ensures PromptSteps(rule, lag, d, front) && PromptSteps(rule, lag, DeskRun(rule, d, front), back)
      ==> PromptSteps(rule, lag, d, front + back)
    decreases |front|
  {
    hide DeskStep;
    if front == [] {
      assert front + back == back;
    } else {
      DeskRunsOn(rule, lag, DeskStep(rule, d, front[0]), front[1..], back);
      assert (front + back)[1..] == front[1..] + back;
    }
  }

  /** A row pruned before the other request is spent lets both through. */
  lemma {:induction false} OverdueSpendsTwice(rule: Rule, lag: nat, id: string, at: nat, other: nat)
    requires Overdue(rule, lag, id, at, other)
    ensures !SpentOnce(rule, lag)
  {
    hide DeskRun, PromptSteps, Overdue, Opening, Closing;
    var start := OpenDesk(Min(at, other));
    OpeningRuns(rule, lag, id, at, other);
    ClosingRuns(rule, lag, id, at, other);
    DeskRunsOn(rule, lag, start, Opening(id, at, other), Closing(lag, id, other));
    var end := DeskRun(rule, start, Opening(id, at, other) + Closing(lag, id, other));
    assert end.table.accepted[0] == end.table.accepted[1];
  }

  /** Ids are spent at most once exactly when the rows outlast the requests and the lag. */
  lemma {:induction false} SpentOnceIsExact(rule: Rule, lag: nat)
    requires forall id, at: nat | rule.valid(id, at) :: at <= rule.keep(id, at)
    ensures SpentOnce(rule, lag) <==> Outlasts(rule, lag)
  {
    hide DeskRun, PromptSteps;
    if Outlasts(rule, lag) {
      forall now: nat, steps | PromptSteps(rule, lag, OpenDesk(now), steps)
        ensures Distinct(DeskRun(rule, OpenDesk(now), steps).table.accepted)
      {
        StepsKeep(rule, lag, OpenDesk(now), steps);
      }
    } else {
      var id, at: nat, other: nat :| rule.valid(id, at) && rule.valid(id, other) && other + lag > rule.keep(id, at);
      OverdueSpendsTwice(rule, lag, id, at, other);
    }
  }

  /** NIP-98: at most 30 s ahead and 60 s behind; the row is kept for 120 s
      after the reading of the clock that verified the event. */
  function Nip98(created: string -> nat): Rule {
    Rule((id: string, now: nat) => created(id) <= now + FRESH_AHEAD && now <= created(id) + FRESH_BEHIND,
         (_: string, at: nat) => at + REPLAY_WINDOW)
  }

  /** A delete token: at most 30 s ahead and before its expiration, until which its row is kept. */
  function DeleteTokens(created: string -> nat, expiration: string -> nat): Rule {
    Rule((id: string, now: nat) => created(id) <= now + FUTURE_SKEW && now < expiration(id),
         (id: string, _: nat) => expiration(id))
  }

  lemma {:induction false} Nip98Outlasts(created: string -> nat)
    ensures Outlasts(Nip98(created), NIP98_LAG)
  {}

  /** NIP-98 ids are accepted at most once exactly when no request waits more
      than 30 s between its verification and its spending. */
  lemma {:induction false} Nip98LagIsExact(created: string -> nat, id: string, lag: nat)
    requires created(id) >= FRESH_AHEAD
    ensures SpentOnce(Nip98(created), lag) <==> lag <= NIP98_LAG
  {
    hide SpentOnce;
    var rule := Nip98(created);
    SpentOnceIsExact(rule, lag);
    if lag > NIP98_LAG {
      var at, other := created(id) - FRESH_AHEAD, created(id) + FRESH_BEHIND;
      assert rule.valid(id, at) && rule.valid(id, other) && other + lag > rule.keep(id, at);
    } else {
      Nip98Outlasts(created);
    }
  }

  /** Delete tokens are spent at most once exactly when no delete waits more than
      1 s between the verification of its token and its spending. */
  lemma {:induction false} DeleteLagIsExact(created: string -> nat, expiration: string -> nat, id: string, lag: nat)
    requires created(id) <= expiration(id) && expiration(id) > 0
    ensures SpentOnce(DeleteTokens(created, expiration), lag) <==> lag <= 1
  {
    hide SpentOnce;
    var rule := DeleteTokens(created, expiration);
    SpentOnceIsExact(rule, lag);
    if lag > 1 {
      var last := expiration(id) - 1;
      assert rule.valid(id, last) && last + lag > rule.keep(id, last);
    }
  }

  // ---------- the windows of all devices ----------

  function WindowOf(rate: map<string, seq<nat>>, device: string): seq<nat> {
    if device in rate then rate[device] else []
  }

  /** Forget old entries of every device, and devices with none left. */
  function TrimRate(rate: map<string, seq<nat>>, at: nat): map<string, seq<nat>> {
    map d | d in rate && RollingWindows.Trim(rate[d], at, RATE_WINDOW) != [] ::
      RollingWindows.Trim(rate[d], at, RATE_WINDOW)
  }

  /** The windows, and every grant ever made to each device. */
  datatype Gate = Gate(now: nat, rate: map<string, seq<nat>>, granted: map<string, seq<nat>>)

  /** `Admit` is a request under the rate lock that read the clock at `at`;
      `unused` is whether its id is still to be spent. */
  datatype GateStep = Pause(until: nat) | Admit(device: string, at: nat, unused: bool)

  predicate Refused(limit: nat, rate: map<string, seq<nat>>, device: string) {
    device in rate && |rate[device]| >= limit
  }

  function NextGate(limit: nat, g: Gate, step: GateStep): Gate {
    match step
    case Pause(until) => g.(now := Max(g.now, until))
    case Admit(device, at, unused) =>
      var rate := TrimRate(g.rate, at);
      if Refused(limit, rate, device) || !unused then g.(rate := rate)
      else g.(rate := rate[device := WindowOf(rate, device) + [at]],
              granted := g.granted[device := WindowOf(g.granted, device) + [at]])
  }

  function GateRun(limit: nat, g: Gate, steps: seq<GateStep>): Gate
    decreases |steps|
  {
    if steps == [] then g else GateRun(limit, NextGate(limit, g, steps[0]), steps[1..])
  }

  function NewGate(now: nat): Gate {
    Gate(now, map[], map[])
  }

  /** The clock was read before the rate lock was had, and at most `lag` before. */
  ghost predicate GateInTime(limit: nat, lag: nat, g: Gate, steps: seq<GateStep>)
    decreases |steps|
  {
    steps == [] || (
      && (steps[0].Admit? ==> steps[0].at <= g.now <= steps[0].at + lag)
      && GateInTime(limit, lag, NextGate(limit, g, steps[0]), steps[1..]))
  }

  /** A device with no entry is never refused, so a limit of zero admits like one. */
  function Effective(limit: nat): (n: nat)
    ensures n > 0
  {
    if limit == 0 then 1 else limit
  }

  // ---------- one device at a time ----------

  function MeterOf(g: Gate, device: string): RollingWindows.Meter {
    RollingWindows.Meter(g.now, WindowOf(g.rate, device), WindowOf(g.granted, device))
  }

  function TurnOf(step: GateStep, device: string): RollingWindows.Step {
    match step
    case Pause(until) => RollingWindows.Wait(until)
    case Admit(d, at, unused) => RollingWindows.Turn(at, d == device && unused)
  }

  function TurnsOf(steps: seq<GateStep>, device: string): seq<RollingWindows.Step> {
    seq(|steps|, i requires 0 <= i < |steps| => TurnOf(steps[i], device))
  }

  /** No window is empty. */
  ghost predicate Kept(rate: map<string, seq<nat>>) {
    forall d | d in rate :: rate[d] != []
  }

  lemma {:induction false} TrimmedWindow(rate: map<string, seq<nat>>, at: nat, device: string)
    ensures WindowOf(TrimRate(rate, at), device) == RollingWindows.Trim(WindowOf(rate, device), at, RATE_WINDOW)
    ensures Kept(TrimRate(rate, at))
  {}

  lemma {:induction false} RefusedIsFull(limit: nat, rate: map<string, seq<nat>>, device: string)
    requires Kept(rate)
    ensures Refused(limit, rate, device) <==> |WindowOf(rate, device)| >= Effective(limit)
  {}

  /** To one device every request is a turn of its own window; its own requests may count. */
  lemma {:induction false} StepProjects(limit: nat, g: Gate, step: GateStep, device: string)
    ensures MeterOf(NextGate(limit, g, step), device) ==
      RollingWindows.MeterStep(Effective(limit), RATE_WINDOW, MeterOf(g, device), TurnOf(step, device))
  {
    hide TrimRate, Refused, Effective, RollingWindows.Trim;
    if step.Admit? {
      TrimmedWindow(g.rate, step.at, device);
      RefusedIsFull(limit, TrimRate(g.rate, step.at), step.device);
    }
  }

  lemma {:induction false} RunProjects(limit: nat, lag: nat, g: Gate, steps: seq<GateStep>, device: string)
    ensures MeterOf(GateRun(limit, g, steps), device) ==
      RollingWindows.MeterRun(Effective(limit), RATE_WINDOW, MeterOf(g, device), TurnsOf(steps, device))
    ensures GateInTime(limit, lag, g, steps) <==>
      RollingWindows.InTimeRun(Effective(limit), RATE_WINDOW, lag, MeterOf(g, device), TurnsOf(steps, device))
    decreases |steps|
  {
    hide NextGate, Effective, RollingWindows.MeterStep;
    if steps != [] {
      StepProjects(limit, g, steps[0], device);
      assert TurnsOf(steps, device)[1..] == TurnsOf(steps[1..], device);
      RunProjects(limit, lag, NextGate(limit, g, steps[0]), steps[1..], device);
    }
  }

  // ---------- the exact budget ----------

  /** Over every history within the lag, a grant to a device and the one `limit`
      places later are `gap` apart. */
  ghost predicate BudgetHolds(limit: nat, lag: nat, gap: int) {
    forall now: nat, steps, device | GateInTime(limit, lag, NewGate(now), steps) ::
      RollingWindows.Spaced(WindowOf(GateRun(limit, NewGate(now), steps).granted, device), Effective(limit), gap)
  }

  /** The late history of one device, as requests: the turn that does not count is another device's. */
  function RequestOf(turn: RollingWindows.Step): GateStep {
    match turn
    case Wait(until) => Pause(until)
    case Turn(at, count) => Admit(if count then "d" else "e", at, true)
  }

  function Requests(turns: seq<RollingWindows.Step>): seq<GateStep> {
    seq(|turns|, i requires 0 <= i < |turns| => RequestOf(turns[i]))
  }

  /** `d` is granted up to its limit and asks once more, waiting; a request of
      `e` that read the clock later locks first and forgets the grants of `d`. */
  lemma {:induction false} LateRequestIsGranted(limit: nat, lag: nat)
    ensures var n := Effective(limit); var start := RollingWindows.Early(RATE_WINDOW, lag);
      var steps := Requests(RollingWindows.Late(n, RATE_WINDOW, lag));
      && GateInTime(limit, lag, NewGate(start), steps)
      && var times := WindowOf(GateRun(limit, NewGate(start), steps).granted, "d");
      && |times| == n + 1 && times[n] == times[0] + RATE_WINDOW - lag
  {
    hide RollingWindows.Late, RollingWindows.MeterRun, RollingWindows.InTimeRun, GateRun, GateInTime, Effective;
    var n, start := Effective(limit), RollingWindows.Early(RATE_WINDOW, lag);
    var turns := RollingWindows.Late(n, RATE_WINDOW, lag);
    assert TurnsOf(Requests(turns), "d") == turns;
    RollingWindows.LateIsCounted(n, RATE_WINDOW, lag);
    RunProjects(limit, lag, NewGate(start), Requests(turns), "d");
  }

  /** A grant and the one `limit` places later are `gap` apart, over every
      history, exactly when the gap and the longest wait for the rate lock fit
      the hour together: the full hour for no wait at all. */
  lemma {:induction false} BudgetIsExact(limit: nat, lag: nat, gap: int)
    ensures BudgetHolds(limit, lag, gap) <==> gap + lag <= RATE_WINDOW
  {
    hide GateRun, GateInTime, Effective, RollingWindows.MeterRun, RollingWindows.InTimeRun, RollingWindows.SpacedWithin;
    var n := Effective(limit);
    if gap + lag <= RATE_WINDOW {
      forall now: nat, steps, device | GateInTime(limit, lag, NewGate(now), steps)
        ensures RollingWindows.Spaced(WindowOf(GateRun(limit, NewGate(now), steps).granted, device), n, gap)
      {
        RunProjects(limit, lag, NewGate(now), steps, device);
        RollingWindows.RunKeeps(n, RATE_WINDOW, lag, MeterOf(NewGate(now), device), TurnsOf(steps, device));
      }
    } else {
      LateRequestIsGranted(limit, lag);
    }
  }

  // ---------- authorise ----------

  datatype Answer = Granted | Unauthorised | Inactive | Spent | Replayed

  /** Each device's window is what is left of its grants, and those keep to the limit. */
  ghost predicate GateInv(limit: nat, lag: nat, g: Gate) {
    forall d :: RollingWindows.MeterInv(Effective(limit), RATE_WINDOW, lag, MeterOf(g, d))
  }

  lemma {:induction false} GateKeeps(limit: nat, lag: nat, g: Gate, step: GateStep)
    requires GateInv(limit, lag, g) && (step.Admit? ==> step.at <= g.now <= step.at + lag)
    ensures GateInv(limit, lag, NextGate(limit, g, step))
  {
    hide NextGate, Effective, RollingWindows.MeterInv, RollingWindows.MeterStep;
    forall d ensures RollingWindows.MeterInv(Effective(limit), RATE_WINDOW, lag, MeterOf(NextGate(limit, g, step), d)) {
      StepProjects(limit, g, step, d);
      RollingWindows.StepKeeps(Effective(limit), RATE_WINDOW, lag, MeterOf(g, d), TurnOf(step, d));
    }
  }

  /** There is room in the window, or its oldest entry is an hour old at this reading. */
  predicate HasBudget(window: seq<nat>, at: nat, limit: nat) {
    |window| < Effective(limit) || window[0] + RATE_WINDOW <= at
  }

  lemma {:induction false} BudgetMeansRoom(limit: nat, lag: nat, g: Gate, device: string, at: nat)
    requires GateInv(limit, lag, g)
    ensures HasBudget(WindowOf(g.rate, device), at, limit) <==> !Refused(limit, TrimRate(g.rate, at), device)
  {
    hide TrimRate, Refused, Effective, RollingWindows.Trim, RollingWindows.Counted;
    var window, n := WindowOf(g.rate, device), Effective(limit);
    assert RollingWindows.MeterInv(n, RATE_WINDOW, lag, MeterOf(g, device));
    RollingWindows.WindowFits(window, WindowOf(g.granted, device), g.now, n, RATE_WINDOW, lag);
    TrimmedWindow(g.rate, at, device);
    RefusedIsFull(limit, TrimRate(g.rate, at), device);
    RollingWindows.TrimMakesRoom(window, at, n, RATE_WINDOW);
  }

  /** What the budget says of all grants ever made to the device: one is refused
      only while the grant `limit` places back is within the hour before its
      reading, and given only once it is an hour before the lock. */
  lemma {:induction false} BudgetMeans(limit: nat, lag: nat, g: Gate, device: string, at: nat)
    requires GateInv(limit, lag, g) && at <= g.now
    ensures var times, n := WindowOf(g.granted, device), Effective(limit);
      if HasBudget(WindowOf(g.rate, device), at, limit) then |times| < n || times[|times| - n] + RATE_WINDOW <= g.now
      else n <= |times| && at < times[|times| - n] + RATE_WINDOW
  {
    hide Effective;
    assert RollingWindows.MeterInv(Effective(limit), RATE_WINDOW, lag, MeterOf(g, device));
    var n := Effective(limit);
    RollingWindows.RoomMeans(WindowOf(g.rate, device), WindowOf(g.granted, device), g.now, n, RATE_WINDOW, lag);
  }

  lemma {:induction false} FreshKeeps(created: string -> nat, t: Table, id: string, now: nat, spent: nat)
    requires TableInv(Nip98(created), NIP98_LAG, t, spent) && spent <= now + NIP98_LAG && id !in t.used
    requires created(id) <= now + FRESH_AHEAD && now <= created(id) + FRESH_BEHIND
    ensures TableInv(Nip98(created), NIP98_LAG, Table(t.used[id := now + REPLAY_WINDOW], t.accepted + [id]), spent)
  {
    hide TableInv, Outlasts;
    Nip98Outlasts(created);
    SpendKeeps(Nip98(created), NIP98_LAG, t, spent, Seen(0, id, now));
  }

  method TrimAll(rate: map<string, seq<nat>>, at: nat) returns (kept: map<string, seq<nat>>)
    ensures kept == TrimRate(rate, at)
  {
    kept := map[];
    var todo := rate.Keys;
    while todo != {}
      invariant todo <= rate.Keys
      invariant forall d | d in kept :: d in TrimRate(rate, at) && d !in todo && kept[d] == TrimRate(rate, at)[d]
      invariant forall d | d in TrimRate(rate, at) :: d in kept || d in todo
      decreases todo
    {
      var d :| d in todo;
      var window := RollingWindows.TrimLoop(rate[d], at, RATE_WINDOW);
      if window != [] {
        kept := kept[d := window];
      }
      todo := todo - {d};
    }
  }

  /** One issuing route: a rolling-hour budget for each device, and the used
      event ids it shares with the database. */
  class DeviceAuth {
    const limit: nat
    /** The creation time an event id commits to. */
    ghost const created: string -> nat
    /** No request waits longer than this for the locks. */
    ghost const lag: nat
    var rate: map<string, seq<nat>>
    var table: Table
    ghost var clock: nat
    ghost var granted: map<string, seq<nat>>

    ghost function View(): Gate
      reads this
    {
      Gate(clock, rate, granted)
    }

    /** Over the whole life of the object, grants to a device are spaced as its
        limit and the lag say, and, if the lag is within 30 s, no event id was accepted twice. */
    ghost predicate Valid()
      reads this
    {
      && GateInv(limit, lag, View())
      && (lag <= NIP98_LAG ==> TableInv(Nip98(created), NIP98_LAG, table, clock))
    }

    constructor (limit: nat, ghost created: string -> nat, ghost lag: nat)
      ensures Valid() && this.limit == limit && this.created == created && this.lag == lag
      ensures View() == NewGate(0) && table == Table(map[], [])
    {
      this.limit, this.created, this.lag := limit, created, lag;
      rate, table, clock, granted := map[], Table(map[], []), 0, map[];
    }

    /** The database forgets ids whose rows had ended when the clock was read. */
    method PruneUsed(at: nat, ghost now: nat)
      requires Valid() && clock <= now && at <= now
      modifies this`table, this`clock
      ensures Valid() && clock == now && table == PruneTable(old(table), at)
    {
      hide GateInv, TableInv, Nip98;
      GateKeeps(limit, lag, View(), Pause(now));
      if lag <= NIP98_LAG {
        TableWaits(Nip98(created), NIP98_LAG, table, clock, now);
        PruneKeeps(Nip98(created), NIP98_LAG, table, now, at);
      }
      clock := now;
      table := PruneTable(table, at);
    }

    /** `now` is the reading the request is judged by; the locks are held at `spent`. */
    method Authorise(
        device: string, id: string, now: nat, ghost spent: nat, at: nat, active: bool) returns (answer: Answer)
      requires Valid() && clock <= spent && now <= spent <= now + lag && at == created(id)
      modifies this
      ensures Valid() && clock == spent
      ensures answer == Granted <==>
        && at <= now + FRESH_AHEAD && now <= at + FRESH_BEHIND && active
        && HasBudget(WindowOf(old(rate), device), now, limit)
        && id !in old(table.used)
      ensures answer == Granted ==> table.accepted == old(table.accepted) + [id]
      ensures answer != Granted ==> granted == old(granted) && table == old(table)
      ensures answer !in {Unauthorised, Inactive} ==>
        View() == NextGate(limit, old(View()).(now := spent), Admit(device, now, id !in old(table.used)))
    {
      hide GateInv, TableInv, Nip98, HasBudget, TrimRate;
      GateKeeps(limit, lag, View(), Pause(spent));
      ghost var waited := View().(now := spent);
      assert GateInv(limit, lag, waited);
      if lag <= NIP98_LAG {
        TableWaits(Nip98(created), NIP98_LAG, table, clock, spent);
      }
      clock := spent;
      if at > now + FRESH_AHEAD || now > at + FRESH_BEHIND {
        return Unauthorised;
      }
      if !active {
        return Inactive;
      }
      GateKeeps(limit, lag, waited, Admit(device, now, id !in table.used));
      BudgetMeansRoom(limit, lag, waited, device, now);
      rate := TrimAll(rate, now);
      var window := WindowOf(rate, device);
      if device in rate && |window| >= limit {
        return Spent;
      }
      if id in table.used {
        return Replayed;
      }
      if lag <= NIP98_LAG {
        FreshKeeps(created, table, id, now, spent);
      }
      table := Table(table.used[id := now + REPLAY_WINDOW], table.accepted + [id]);
      rate := rate[device := window + [now]];
      granted := granted[device := WindowOf(granted, device) + [now]];
      answer := Granted;
    }
  }

  /** Of any `limit + 1` grants to a device, the last is an hour less the longest
      wait for the locks, or more, after the first. */
  lemma {:induction false} HourlyBudget(auth: DeviceAuth, device: string, i: nat, j: nat)
    requires auth.Valid() && i + Effective(auth.limit) <= j < |WindowOf(auth.granted, device)|
    ensures WindowOf(auth.granted, device)[i] + RATE_WINDOW <= WindowOf(auth.granted, device)[j] + auth.lag
  {
    assert RollingWindows.MeterInv(Effective(auth.limit), RATE_WINDOW, auth.lag, MeterOf(auth.View(), device));
  }

  /** A limit of zero still lets the first request of an hour through. */
  method ZeroLimitGrantsOne(device: string, id: string, now: nat) returns (answer: Answer)
    ensures answer == Granted
  {
    var auth := new DeviceAuth(0, _ => now, 0);
    answer := auth.Authorise(device, id, now, now, now, true);
  }
}
