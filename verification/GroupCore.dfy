/** What the core was told against what the node has committed: the friend set
    of the core is that of the key entries, but for the device of the last push
    that the core applied and no post committed. */
module GroupCore {

  import opened Wrappers
  import opened GroupGrants
  import opened GroupNode
  import opened GroupTheorems
  import opened GroupLatePush

  /** The friend an upload grant asks for. */
  function Wanted(e: Event): Friend
    requires e.body.Grant? && e.body.bytes.Some?
  {
    Friend(e.body.bytes.value, GroupGrantId(e.keeper, e.body.room), e.keeper)
  }

  ghost predicate IsUpload(e: Event) {
    e.body.Grant? && e.body.bytes.Some?
  }

  /** The friend set once the event is committed. */
  ghost function Asked(friends: map<string, Friend>, e: Event): map<string, Friend>
    requires IsUpload(e)
  {
    friends[e.body.device := Wanted(e)]
  }

  ghost predicate FlightAsks(friends: map<string, Friend>, f: Flight) {
    !f.Screened? ==>
      && IsUpload(f.event)
      && (f.Planned? && f.projected.Some? ==> friends != f.projected.value == Asked(friends, f.event))
      && ((f.Planned? && f.projected.None?) || (f.Pushed? && !f.told) ==> friends == Asked(friends, f.event))
  }

  /** Every post behind the first plan asks for its own friend, and a push under
      way would tell the core what is committed and, of a post, that friend. */
  ghost predicate AskInv(s: State) {
    var friends := Friends(s.snap.keys);
    && (s.lock.ByDevice? ==> s.lock.friends == friends)
    && (forall id | id in s.flights :: FlightAsks(friends, s.flights[id]))
  }

  // ---------- how the committed friend set changes ----------

  lemma {:induction false} FriendsAfterKey(keys: map<string, GroupKey>, device: string, key: GroupKey)
    ensures Friends(keys[device := key]) == Projected(keys, device, key)
  {}

  lemma {:induction false} CommitFriends(others: set<string>, s: State, e: Event, plan: Plan)
    requires PrunedFrom(s.db, s.snap, s.now) && Evaluate(s.cfg, others, s.snap, e, s.now) == Accepted(plan)
    ensures Friends(CommitEvent(s, e, plan).snap.keys) ==
      if plan.key.Some? then Projected(s.snap.keys, plan.key.value.0, plan.key.value.1) else Friends(s.snap.keys)
  {
    KeysAfterCommit(s.cfg, others, s.snap, e, s.now, plan);
    CommitPruned(s.cfg, others, s.db, s.snap, e, s.now, plan);
    hide Evaluate, Commit, Friends, Projected;
    if plan.key.Some? {
      FriendsAfterKey(s.snap.keys, plan.key.value.0, plan.key.value.1);
    }
  }

  /** What an upload grant changes is its device's friend. */
  lemma {:induction false} UploadAsks(cfg: Config, others: set<string>, rows: Rows, e: Event, now: nat, plan: Plan)
    requires IsUpload(e) && !e.body.revoked && Evaluate(cfg, others, rows, e, now) == Accepted(plan) && plan.Changes()
    ensures plan.key.Some? ==>
      Friends(rows.keys) != Projected(rows.keys, plan.key.value.0, plan.key.value.1) == Asked(Friends(rows.keys), e)
    ensures plan.key.None? ==> Friends(rows.keys) == Asked(Friends(rows.keys), e)
  {
    KeysAfterCommit(cfg, others, rows, e, now, plan);
    if plan.key.Some? {
      NewKeyIsNew(cfg, others, rows, e, now, plan);
      var friends, d := Friends(rows.keys), e.body.device;
      assert !(d in friends && friends[d] == Wanted(e)) && Asked(friends, e)[d] == Wanted(e);
    }
    hide Evaluate;
  }

  lemma {:induction false} NewKeyIsNew(cfg: Config, others: set<string>, rows: Rows, e: Event, now: nat, plan: Plan)
    requires Evaluate(cfg, others, rows, e, now) == Accepted(plan) && plan.key.Some?
    ensures e.body.Grant? && (e.body.device in rows.keys ==> rows.keys[e.body.device] != NewKey(rows, e))
  {}

  /** A grant that changes the friend set is an upload grant. */
  lemma {:induction false} ChangeIsUpload(cfg: Config, others: set<string>, rows: Rows, e: Event, now: nat, plan: Plan)
    requires Evaluate(cfg, others, rows, e, now) == Accepted(plan) && ChangesFriends(rows.keys, plan)
    ensures IsUpload(e) && !e.body.revoked
  {
    KeysAfterCommit(cfg, others, rows, e, now, plan);
    hide Evaluate;
  }

  // ---------- every step ----------

  /** Nothing but a pushed post changes the committed friend set. */
  ghost predicate SameFriends(s: State, next: State) {
    Friends(next.snap.keys) == Friends(s.snap.keys)
  }

  lemma {:induction false} PlanPostAsks(s: State, id: nat, others: set<string>, throttled: bool)
    requires Inv(s) && AskInv(s) && PlanPostStep(s, id, others, throttled).Some?
    ensures var next := PlanPostStep(s, id, others, throttled).value; SameFriends(s, next) && AskInv(next)
  {
    hide RowsInv, PushInv, Evaluate, CommitEvent, Friends, Projected;
    var e := s.flights[id].event;
    var v := Evaluate(s.cfg, others, s.snap, e, s.now);
    if v.Accepted? && v.plan.Changes() {
      CommitFriends(others, s, e, v.plan);
      if ChangesFriends(s.snap.keys, v.plan) {
        ChangeIsUpload(s.cfg, others, s.snap, e, s.now, v.plan);
      }
      CommitFlights(s, e, v.plan);
    }
  }

  lemma {:induction false} CommitFlights(s: State, e: Event, plan: Plan)
    ensures var next := CommitEvent(s, e, plan); next.flights == s.flights && next.lock == s.lock && next.core == s.core
  {}

  lemma {:induction false} TakePushAsks(s: State, id: nat, others: set<string>)
    requires Inv(s) && AskInv(s) && TakePushStep(s, id, others).Some?
    ensures AskInv(TakePushStep(s, id, others).value)
  {
    hide RowsInv, Covers, Ready, Evaluate, Friends, Projected;
    var e := s.flights[id].event;
    assert FlightOk(s, s.flights[id]) && FlightAsks(Friends(s.snap.keys), s.flights[id]);
    var v := Evaluate(s.cfg, others, s.snap, e, s.now);
    if v.Accepted? && v.plan.Changes() {
      UploadAsks(s.cfg, others, s.snap, e, s.now, v.plan);
    }
  }

  /** The post that is committed gives its device the friend it asked for. */
  lemma {:induction false} CommitPushAsks(s: State, id: nat, others: set<string>)
    requires Inv(s) && AskInv(s) && CommitPushStep(s, id, others).Some?
    ensures var next, friends, v := CommitPushStep(s, id, others).value, Friends(s.snap.keys),
        Evaluate(s.cfg, others, s.snap, s.flights[id].event, s.now);
      && AskInv(next) && next.core == s.core && IsUpload(s.flights[id].event)
      && Friends(next.snap.keys) == if v.Accepted? && v.plan.Changes() then Asked(friends, s.flights[id].event)
        else friends
  {
    hide RowsInv, Covers, Ready, Evaluate, CommitEvent, Friends, Projected;
    var e := s.flights[id].event;
    assert FlightOk(s, s.flights[id]) && FlightAsks(Friends(s.snap.keys), s.flights[id]);
    var next, v := CommitPushStep(s, id, others).value, Evaluate(s.cfg, others, s.snap, e, s.now);
    if v.Accepted? && v.plan.Changes() {
      CommitFriends(others, s, e, v.plan);
      UploadAsks(s.cfg, others, s.snap, e, s.now, v.plan);
      CommitFlights(s, e, v.plan);
    }
    assert !s.lock.ByDevice?;
    forall i | i in next.flights ensures FlightAsks(Friends(next.snap.keys), next.flights[i]) {
      assert FlightAsks(Friends(s.snap.keys), s.flights[i]) && !s.flights[i].Planned?;
    }
  }

  lemma {:induction false} RestartAsks(s: State, cfg: Config)
    requires Inv(s)
    ensures var next := Next(s, Restart(cfg)).value;
      AskInv(next) && SameFriends(s, next) && next.core == Friends(s.snap.keys)
  {
    hide Friends, RowsInv;
  }

  lemma {:induction false} StepAsks(s: State, a: Action)
    requires Inv(s) && AskInv(s) && Next(s, a).Some?
    ensures AskInv(Next(s, a).value) && (!a.CommitPush? ==> SameFriends(s, Next(s, a).value))
  {
    hide RowsInv, PushInv, PrunedFrom, Evaluate, CommitEvent, Friends, Projected;
    match a
    case Restart(cfg) => RestartAsks(s, cfg);
    case PlanPost(id, others, throttled) => PlanPostAsks(s, id, others, throttled);
    case TakePush(id, others) => TakePushAsks(s, id, others);
    case CommitPush(id, others) => CommitPushAsks(s, id, others);
    case _ =>
  }

  // ---------- the core ----------

  /** The post whose push the core applied last, while nothing has committed it or put the core right. */
  function Owes(s: State, a: Action, debt: Option<Event>): Option<Event> {
    match a
    case SendPush(id, applied, ok) =>
      if id in s.flights && s.flights[id].Planned? && s.flights[id].projected.Some? && (applied || ok)
      then Some(s.flights[id].event) else debt
    case CommitPush(id, others) =>
      if id in s.flights && s.flights[id].Pushed? && s.flights[id].told && Lands(s, id, others) then None else debt
    case Restart(_) => None
    case DevicePushDone(applied) => if applied then None else debt
    case _ => debt
  }

  predicate Lands(s: State, id: nat, others: set<string>)
    requires id in s.flights
  {
    var v := Evaluate(s.cfg, others, s.snap, s.flights[id].event, s.now);
    v.Accepted? && v.plan.Changes()
  }

  /** What is owed after a run. */
  function Debt(s: State, actions: seq<Action>, debt: Option<Event>): Option<Event>
    decreases |actions|
  {
    if actions == [] then debt
    else
      var next := Next(s, actions[0]);
      if next.None? then debt else Debt(next.value, actions[1..], Owes(s, actions[0], debt))
  }

  /** The core holds what is committed and, of a post it is owed, what that asks for. */
  ghost predicate CoreIs(core: map<string, Friend>, friends: map<string, Friend>, debt: Option<Event>) {
    if debt.None? then core == friends
    else IsUpload(debt.value) && friends != core == Asked(friends, debt.value)
  }

  ghost predicate DebtInv(s: State, debt: Option<Event>) {
    && CoreIs(s.core, Friends(s.snap.keys), debt)
    && (forall id | id in s.flights && s.flights[id].Pushed? && s.flights[id].told :: debt == Some(s.flights[id].event))
  }

  /** A post holds the push lock from its second plan on. */
  lemma {:induction false} OnePusher(s: State, id: nat, other: nat)
    requires PushInv(s) && id in s.flights && other in s.flights && s.flights[other].Pushed?
    requires s.flights[id].Planned? || s.flights[id].Pushed?
    ensures id == other && s.lock == ByPost(id)
  {}

  lemma {:induction false} SendPushOwes(s: State, id: nat, applied: bool, ok: bool, debt: Option<Event>)
    requires Inv(s) && AskInv(s) && DebtInv(s, debt) && SendPushStep(s, id, applied, ok).Some?
    ensures DebtInv(SendPushStep(s, id, applied, ok).value, Owes(s, SendPush(id, applied, ok), debt))
  {
    hide RowsInv, Friends, PushInv;
    var next := SendPushStep(s, id, applied, ok).value;
    assert FlightAsks(Friends(s.snap.keys), s.flights[id]);
    forall i | i in next.flights && i != id ensures !next.flights[i].Pushed? {
      if s.flights[i].Pushed? {
        OnePusher(s, id, i);
      }
    }
  }

  lemma {:induction false} CommitPushOwes(s: State, id: nat, others: set<string>, debt: Option<Event>)
    requires Inv(s) && AskInv(s) && DebtInv(s, debt) && CommitPushStep(s, id, others).Some?
    ensures DebtInv(CommitPushStep(s, id, others).value, Owes(s, CommitPush(id, others), debt))
  {
    hide RowsInv, Friends, PushInv, Evaluate;
    CommitPushAsks(s, id, others);
    var next := CommitPushStep(s, id, others).value;
    assert FlightAsks(Friends(s.snap.keys), s.flights[id]);
    forall i | i in next.flights ensures !next.flights[i].Pushed? {
      if s.flights[i].Pushed? {
        OnePusher(s, id, i);
      }
    }
  }

  lemma {:induction false} DevicePushOwes(s: State, applied: bool, debt: Option<Event>)
    requires Inv(s) && AskInv(s) && DebtInv(s, debt) && s.lock.ByDevice?
    ensures DebtInv(Next(s, DevicePushDone(applied)).value, Owes(s, DevicePushDone(applied), debt))
  {
    hide RowsInv, Friends;
  }

  /** The steps that neither tell the core nor commit a push. */
  ghost predicate Aside(a: Action) {
    !a.SendPush? && !a.CommitPush? && !a.DevicePushDone? && !a.Restart?
  }

  lemma {:induction false} AsideLeavesPushed(s: State, a: Action)
    requires Next(s, a).Some? && Aside(a)
    ensures var next := Next(s, a).value;
      && next.core == s.core
      && (forall i | i in next.flights && next.flights[i].Pushed? :: i in s.flights && s.flights[i] == next.flights[i])
  {
    hide Evaluate, Friends, Projected, Commit;
  }

  lemma {:induction false} StepOwes(s: State, a: Action, debt: Option<Event>)
    requires Inv(s) && AskInv(s) && DebtInv(s, debt) && Next(s, a).Some?
    ensures DebtInv(Next(s, a).value, Owes(s, a, debt))
  {
    hide Inv, AskInv, Evaluate, CommitEvent, Friends, Projected, CoreIs;
    StepAsks(s, a);
    if a.SendPush? {
      SendPushOwes(s, a.id, a.applied, a.ok, debt);
    } else if a.CommitPush? {
      CommitPushOwes(s, a.id, a.others, debt);
    } else if a.DevicePushDone? {
      DevicePushOwes(s, a.applied, debt);
    } else if a.Restart? {
      RestartAsks(s, a.cfg);
      NothingOwed(Friends(s.snap.keys));
    } else {
      AsideLeavesPushed(s, a);
    }
  }

  lemma {:induction false} NothingOwed(friends: map<string, Friend>)
    ensures CoreIs(friends, friends, None)
  {}

  lemma {:induction false} RunOwes(s: State, actions: seq<Action>, debt: Option<Event>)
    requires Inv(s) && AskInv(s) && DebtInv(s, debt) && Run(s, actions).Some?
    ensures DebtInv(Run(s, actions).value, Debt(s, actions, debt))
    decreases |actions|
  {
    hide Inv, AskInv, DebtInv, Next, Owes;
    if actions != [] {
      StepKeeps(s, actions[0]);
      StepAsks(s, actions[0]);
      StepOwes(s, actions[0], debt);
      RunOwes(Next(s, actions[0]).value, actions[1..], Owes(s, actions[0], debt));
    }
  }

  /** Over every run: the core's friend set, ids and limits included, is that of
      the key entries exactly when every push it applied was committed or undone
      since; otherwise it has, beside them, what the last such push asks for. */
  lemma {:induction false} CoreMatches(cfg: Config, start: nat, actions: seq<Action>)
    requires Run(Initial(cfg, start), actions).Some?
    ensures var s, debt := Run(Initial(cfg, start), actions).value, Debt(Initial(cfg, start), actions, None);
      && (s.core == Friends(s.snap.keys) <==> debt.None?)
      && (debt.Some? ==> IsUpload(debt.value) && s.core == Asked(Friends(s.snap.keys), debt.value))
  {
    assert Friends(map[]) == map[];
    hide Run, Debt;
    Reachable(cfg, start, []);
    RunOwes(Initial(cfg, start), actions, None);
  }

  ghost predicate Off(core: map<string, Friend>, friends: map<string, Friend>, device: string) {
    core - {device} == friends - {device}
  }

  /** So in every reachable state the two differ in at most one device. */
  lemma {:induction false} CoreDiffersInOne(s: State)
    requires Reached(s)
    ensures exists device :: Off(s.core, Friends(s.snap.keys), device)
  {
    var cfg, start, actions :| Run(Initial(cfg, start), actions) == Some(s);
    hide Run, Debt, Friends;
    CoreMatches(cfg, start, actions);
    var debt := Debt(Initial(cfg, start), actions, None);
    assert Off(s.core, Friends(s.snap.keys), if debt.Some? then debt.value.body.device else "");
  }

  // ---------- a push that is not committed ----------

  /** The first post of `LateGrant` is pushed; the core applies the set and then says no. */
  function Unanswered(): seq<Action> {
    seq(5, i requires 0 <= i => GrantDoes(i)) + [SendPush(1, true, false)]
  }

  /** The core knows a device that no key entry has. */
  lemma {:induction false} UnansweredPushStays()
    ensures var s := Run(Initial(Setup(), 0), Unanswered());
      s.Some? && s.value.snap.keys == map[] && s.value.core == Told() && "d" in s.value.core
  {
    var trace := seq(7, i requires 0 <= i => if i < 6 then GrantAt(i) else Refused());
    assert trace[0] == Initial(Setup(), 0) && trace[6] == Refused() && "d" in Told();
    assert Refused().snap.keys == map[] && Refused().core == Told();
    hide Next, GrantDoes, GrantAt, Refused, Initial;
    forall i | 0 <= i < 6 ensures Next(trace[i], Unanswered()[i]) == Some(trace[i + 1]) {
      if i < 5 {
        GrantSteps(i);
      } else {
        LastIsRefused();
      }
    }
    TraceRuns(trace, Unanswered());
  }

  function Refused(): State {
    GrantAt(5).(flights := map[2 := Waiting(Twice(), 0)], lock := Free, core := Told())
  }

  lemma {:induction false} LastIsRefused()
    ensures Next(GrantAt(5), SendPush(1, true, false)) == Some(Refused())
  {
    assert GrantAt(5).flights - {1} == Refused().flights;
  }
}
