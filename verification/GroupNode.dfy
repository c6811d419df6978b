/** A running group node as a transition system: posts split into screening,
    plan, push and commit under the push and update locks (`post_group_event`),
    pruning, restarts, and the friend set the core was last told (`grants/group.rs`). */
module GroupNode {
  import opened Arithmetic
  import opened Wrappers
  import opened GroupGrants

  /** A core friend grant as the node pushes it. */
  datatype Friend = Friend(byteLimit: nat, grantId: string, issuer: string)

  /** A post between its screening and its end.  A push that would change
      nothing is not sent, and then the core was not `told`. */
  datatype Flight =
    | Screened(event: Event, screenedAt: nat)
    | Waiting(event: Event, screenedAt: nat)
    | Planned(event: Event, screenedAt: nat, projected: Option<map<string, Friend>>)
    | Pushed(event: Event, screenedAt: nat, told: bool)

  datatype PushLock = Free | ByPost(id: nat) | ByDevice(friends: map<string, Friend>)

  /** `cfg` is what the node was last started with, `db` the database, `snap` the
      rows last loaded from it, `core` the friend set last accepted by the core, `log` every event committed so far. */
  datatype State = State(cfg: Config, now: nat, db: Rows, snap: Rows, core: map<string, Friend>,
                         lock: PushLock, flights: map<nat, Flight>, log: seq<Event>)

  /** Every choice the environment makes is a parameter of the action. */
  datatype Action =
    | Tick(to: nat)
    | PruneDatabase(at: nat)
    | Restart(cfg: Config)
    | Post(id: nat, event: Event)
    | PlanPost(id: nat, others: set<string>, throttled: bool)
    | TakePush(id: nat, others: set<string>)
    | SendPush(id: nat, applied: bool, ok: bool)
    | CommitPush(id: nat, others: set<string>)
    | DropPost(id: nat)
    | DevicePush
    | DevicePushDone(applied: bool)

  // ---------- the friend set ----------

  function GroupGrantId(keeper: string, room: string): string {
    "wildbloom-group:" + keeper + ":" + room
  }

  function FriendOf(key: GroupKey): Friend
    requires key.byteLimit.Some?
  {
    Friend(key.byteLimit.value, GroupGrantId(key.keeper, key.room), key.keeper)
  }

  function Friends(keys: map<string, GroupKey>): map<string, Friend> {
    map d | d in keys && keys[d].byteLimit.Some? :: FriendOf(keys[d])
  }

  /** The friend set once `key` is committed for `device`. */
  function Projected(keys: map<string, GroupKey>, device: string, key: GroupKey): map<string, Friend> {
    var rest := Friends(keys) - {device};
    if key.byteLimit.Some? then rest[device := FriendOf(key)] else rest
  }

  predicate ChangesFriends(keys: map<string, GroupKey>, plan: Plan) {
    plan.key.Some? && Projected(keys, plan.key.value.0, plan.key.value.1) != Friends(keys)
  }

  // ---------- steps ----------

  function CommitEvent(s: State, e: Event, plan: Plan): State {
    var db := Commit(s.db, plan);
    s.(db := db, snap := db, log := s.log + [e])
  }

  function Leave(s: State, id: nat): State {
    s.(flights := s.flights - {id})
  }

  function Finish(s: State, id: nat): State {
    Leave(s, id).(lock := if s.lock == ByPost(id) then Free else s.lock)
  }

  function PostStep(s: State, id: nat, e: Event): Option<State> {
    if !Parsed(e) || id in s.flights then None
    else if Screen(s.cfg, e, s.now).Some? then Some(s)
    else Some(s.(flights := s.flights[id := Screened(e, s.now)]))
  }

  /** The first plan, once the post has the update lock. */
  function PlanPostStep(s: State, id: nat, others: set<string>, throttled: bool): Option<State> {
    if id !in s.flights || !s.flights[id].Screened? then None
    else
      var f := s.flights[id];
      var verdict := Evaluate(s.cfg, others, s.snap, f.event, s.now);
      if verdict.Refused? || !verdict.plan.Changes() then Some(Leave(s, id))
      else if throttled && verdict.plan.grant.Some? && verdict.plan.grant.value.active then Some(Leave(s, id))
      else if ChangesFriends(s.snap.keys, verdict.plan) then
        Some(s.(flights := s.flights[id := Waiting(f.event, f.screenedAt)]))
      else Some(Leave(CommitEvent(s, f.event, verdict.plan), id))
  }

  function TakePushStep(s: State, id: nat, others: set<string>): Option<State> {
    if id !in s.flights || !s.flights[id].Waiting? || s.lock != Free then None
    else
      var f := s.flights[id];
      var verdict := Evaluate(s.cfg, others, s.snap, f.event, s.now);
      if verdict.Refused? || !verdict.plan.Changes() then Some(Finish(s, id))
      else
        var projected := if verdict.plan.key.None? then None
                         else Some(Projected(s.snap.keys, verdict.plan.key.value.0, verdict.plan.key.value.1));
        Some(s.(flights := s.flights[id := Planned(f.event, f.screenedAt, projected)], lock := ByPost(id)))
  }

  /** A push the core refused may still have been applied. */
  function SendPushStep(s: State, id: nat, applied: bool, ok: bool): Option<State> {
    if id !in s.flights || !s.flights[id].Planned? then None
    else
      var f := s.flights[id];
      if f.projected.None? then
        Some(s.(flights := s.flights[id := Pushed(f.event, f.screenedAt, false)]))
      else
        var told := if applied || ok then s.(core := f.projected.value) else s;
        if ok then Some(told.(flights := s.flights[id := Pushed(f.event, f.screenedAt, true)]))
        else Some(Finish(told, id))
  }

  /** The post is planned a last time, but not screened again. */
  function CommitPushStep(s: State, id: nat, others: set<string>): Option<State> {
    if id !in s.flights || !s.flights[id].Pushed? then None
    else
      var e := s.flights[id].event;
      var verdict := Evaluate(s.cfg, others, s.snap, e, s.now);
      if verdict.Refused? || !verdict.plan.Changes() then Some(Finish(s, id))
      else Some(Finish(CommitEvent(s, e, verdict.plan), id))
  }

  function Next(s: State, a: Action): Option<State> {
    match a
    case Tick(to) => if to < s.now then None else Some(s.(now := to))
    // The clock is read before the database is locked.
    case PruneDatabase(at) => if s.now < at then None else Some(s.(db := Prune(s.db, at)))
    case Restart(cfg) => Some(s.(cfg := cfg, snap := s.db, core := Friends(s.db.keys), lock := Free, flights := map[]))
    case Post(id, e) => PostStep(s, id, e)
    case PlanPost(id, others, throttled) => PlanPostStep(s, id, others, throttled)
    case TakePush(id, others) => TakePushStep(s, id, others)
    case SendPush(id, applied, ok) => SendPushStep(s, id, applied, ok)
    case CommitPush(id, others) => CommitPushStep(s, id, others)
    case DropPost(id) => if id in s.flights then Some(Finish(s, id)) else None
    case DevicePush => if s.lock != Free then None else Some(s.(lock := ByDevice(Friends(s.snap.keys))))
    case DevicePushDone(applied) =>
      if !s.lock.ByDevice? then None
      else Some(s.(lock := Free, core := if applied then s.lock.friends else s.core))
  }

  function Initial(cfg: Config, now: nat): State {
    var none := Rows(map[], map[], map[]);
    State(cfg, now, none, none, map[], Free, map[], [])
  }

  /** The state after a run, or nothing if some action was not possible. */
  function Run(s: State, actions: seq<Action>): Option<State>
    decreases |actions|
  {
    if actions == [] then Some(s)
    else
      var next := Next(s, actions[0]);
      if next.None? then None else Run(next.value, actions[1..])
  }

  // ---------- the invariant ----------

  /** Every key with a ceiling is in `core` under the grant id of its group. */
  ghost predicate Covers(core: map<string, Friend>, keys: map<string, GroupKey>) {
    forall d | d in keys && keys[d].byteLimit.Some? ::
      d in core && core[d].grantId == GroupGrantId(keys[d].keeper, keys[d].room) && core[d].issuer == keys[d].keeper
  }

  /** The device an upload grant names is in `core` under the grant's group. */
  ghost predicate Ready(core: map<string, Friend>, e: Event)
    requires e.body.Grant?
  {
    e.body.bytes.Some? ==>
      && e.body.device in core
      && core[e.body.device].grantId == GroupGrantId(e.keeper, e.body.room)
      && core[e.body.device].issuer == e.keeper
  }

  ghost predicate FlightOk(s: State, f: Flight) {
    && Parsed(f.event) && f.screenedAt < f.event.expiration
    && (!f.Screened? ==> f.event.body.Grant? && !f.event.body.revoked)
    && (f.Planned? && f.projected.Some? ==> Covers(f.projected.value, s.snap.keys) && Ready(f.projected.value, f.event))
    && (f.Planned? && f.projected.None? ==> Ready(s.core, f.event))
    && (f.Pushed? ==> Ready(s.core, f.event))
  }

  ghost predicate PushInv(s: State) {
    && Covers(s.core, s.snap.keys)
    && (s.lock.ByDevice? ==> Covers(s.lock.friends, s.snap.keys) )
    && (forall id | id in s.flights :: FlightOk(s, s.flights[id]))
    && (forall id | id in s.flights && (s.flights[id].Planned? || s.flights[id].Pushed?) :: s.lock == ByPost(id))
  }

  /** Posts in flight were screened against the present configuration. */
  ghost predicate Enrolled(s: State) {
    forall id | id in s.flights :: s.flights[id].event.keeper in s.cfg.enrolments
  }

  /** A stored version of `createdAt` and `eventId` refuses or already is `e`. */
  ghost predicate Supersedes(createdAt: nat, eventId: string, e: Event) {
    e.createdAt < createdAt || (e.createdAt == createdAt && eventId == e.id)
  }

  /** Replaying a committed event changes nothing: its id or room has moved on,
      still holds it, or was pruned only after the event had expired. */
  ghost predicate Spent(rows: Rows, e: Event, now: nat) {
    if e.body.Grant? then
      (e.GrantKey() in rows.grants
       && Supersedes(rows.grants[e.GrantKey()].createdAt, rows.grants[e.GrantKey()].eventId, e)
       && e.expiration <= rows.grants[e.GrantKey()].retainUntil)
      || e.expiration < SatSub(now, SELF_DELETE_GRACE)
    else
      (e.Group() in rows.floors
       && Supersedes(rows.floors[e.Group()].createdAt, rows.floors[e.Group()].eventId, e)
       && e.expiration <= rows.floors[e.Group()].expiresAt)
      || e.expiration < now
  }

  ghost predicate LogInv(s: State) {
    && (forall i | 0 <= i < |s.log| :: Parsed(s.log[i]) && Spent(s.snap, s.log[i], s.now))
    && (forall i, j | 0 <= i < j < |s.log| :: s.log[i] != s.log[j])
  }

  ghost predicate Inv(s: State) {
    RowsInv(s.snap, s.now) && PrunedFrom(s.db, s.snap, s.now) && PushInv(s) && Enrolled(s)
  }

  // ---------- pruning commutes with committing ----------

  lemma {:induction false} WriteGrantPruned(part: Rows, whole: Rows, row: Row, now: nat)
    requires PrunedFrom(part, whole, now)
    requires (row.keeper, row.grantId) in whole.grants ==>
      var kept := whole.grants[(row.keeper, row.grantId)];
      (kept.room, kept.device, kept.server) == (row.room, row.device, row.server)
    ensures PrunedFrom(WriteGrant(part, row), WriteGrant(whole, row), now)
  {
    var id := (row.keeper, row.grantId);
    assert WriteGrant(part, row).grants == part.grants[id := row];
    assert WriteGrant(whole, row).grants == whole.grants[id := row];
    hide WriteGrant;
  }

  lemma {:induction false} WriteFloorPruned(part: Rows, whole: Rows, group: GroupId, floor: Floor, now: nat)
    requires PrunedFrom(part, whole, now)
    ensures PrunedFrom(WriteFloor(part, group, floor), WriteFloor(whole, group, floor), now)
  {}

  lemma {:induction false} WriteKeyPruned(part: Rows, whole: Rows, device: string, key: GroupKey, now: nat)
    requires PrunedFrom(part, whole, now)
    ensures PrunedFrom(WriteKey(part, device, key), WriteKey(whole, device, key), now)
  {}

  lemma {:induction false} CommitPruned(
    cfg: Config, others: set<string>, part: Rows, whole: Rows, e: Event, now: nat, plan: Plan)
    requires PrunedFrom(part, whole, now) && Evaluate(cfg, others, whole, e, now) == Accepted(plan)
    ensures PrunedFrom(Commit(part, plan), Commit(whole, plan), now)
  {
    if plan.grant.Some? {
      var row := plan.grant.value;
      assert plan.floor.None? && (row.keeper, row.grantId) in whole.grants ==>
        var kept := whole.grants[(row.keeper, row.grantId)];
        (kept.room, kept.device, kept.server) == (row.room, row.device, row.server);
      hide PrunedFrom, Evaluate, WriteGrant, WriteKey;
      WriteGrantPruned(part, whole, row, now);
      if plan.key.Some? {
        WriteKeyPruned(WriteGrant(part, row), WriteGrant(whole, row), plan.key.value.0, plan.key.value.1, now);
      }
    } else {
      assert plan.key.None?;
      hide PrunedFrom, Evaluate, WriteFloor;
      if plan.floor.Some? {
        WriteFloorPruned(part, whole, plan.floor.value.0, plan.floor.value.1, now);
      }
    }
  }

  // ---------- replays ----------

  lemma {:induction false} SpentStaysByWaiting(rows: Rows, e: Event, now: nat, later: nat)
    requires Spent(rows, e, now) && now <= later
    ensures Spent(rows, e, later)
  {}

  lemma {:induction false} SpentStaysByPruning(part: Rows, whole: Rows, e: Event, now: nat)
    requires Spent(whole, e, now) && PrunedFrom(part, whole, now)
    ensures Spent(part, e, now)
  {}

  lemma {:induction false} SpentStaysByCommit(
    cfg: Config, others: set<string>, rows: Rows, e: Event, now: nat, plan: Plan, earlier: Event)
    requires WellFormed(rows) && Parsed(e) && Evaluate(cfg, others, rows, e, now) == Accepted(plan) && plan.Changes()
    requires Spent(rows, earlier, now)
    ensures Spent(Commit(rows, plan), earlier, now)
  {
    if e.body.Grant? {
      GrantCommitted(cfg, others, rows, e, now, plan);
      CommitIsNewer(cfg, others, rows, e, now, plan);
      hide Commit, EvaluateGrant;
    }
  }

  lemma {:induction false} CommitIsNewer(cfg: Config, others: set<string>, rows: Rows, e: Event, now: nat, plan: Plan)
    requires e.body.Grant? && EvaluateGrant(cfg, others, rows, e, now) == Accepted(plan) && plan.grant.Some?
    ensures e.GrantKey() in rows.grants ==> rows.grants[e.GrantKey()].createdAt < e.createdAt
  {}

  lemma {:induction false} CommitSpends(cfg: Config, others: set<string>, rows: Rows, e: Event, now: nat, plan: Plan)
    requires WellFormed(rows) && Parsed(e) && Evaluate(cfg, others, rows, e, now) == Accepted(plan) && plan.Changes()
    ensures Spent(Commit(rows, plan), e, now)
  {
    if e.body.Grant? {
      GrantCommitted(cfg, others, rows, e, now, plan);
    }
  }

  /** A spent event that is still being admitted is refused or found unchanged. */
  lemma {:induction false} SpentChangesNothing(cfg: Config, others: set<string>, rows: Rows, e: Event, now: nat)
    requires Spent(rows, e, now)
    requires if e.body.Grant? then now <= e.expiration + SELF_DELETE_GRACE else now <= e.expiration
    ensures var v := Evaluate(cfg, others, rows, e, now); v.Refused? || !v.plan.Changes()
  {}

  lemma {:induction false} CommitKeepsLog(others: set<string>, s: State, e: Event, plan: Plan)
    requires LogInv(s) && WellFormed(s.snap) && PrunedFrom(s.db, s.snap, s.now) && Parsed(e)
    requires Evaluate(s.cfg, others, s.snap, e, s.now) == Accepted(plan) && plan.Changes()
    requires if e.body.Grant? then s.now <= e.expiration + SELF_DELETE_GRACE else s.now <= e.expiration
    ensures LogInv(CommitEvent(s, e, plan))
  {
    var after := CommitEvent(s, e, plan);
    CommitPruned(s.cfg, others, s.db, s.snap, e, s.now, plan);
    forall i | 0 <= i < |after.log|
      ensures Parsed(after.log[i]) && Spent(after.snap, after.log[i], s.now)
      ensures i < |s.log| ==> after.log[i] != e
    {
      if i < |s.log| {
        SpentStaysByCommit(s.cfg, others, s.snap, e, s.now, plan, s.log[i]);
        if s.log[i] == e {
          SpentChangesNothing(s.cfg, others, s.snap, e, s.now);
        }
      } else {
        CommitSpends(s.cfg, others, s.snap, e, s.now, plan);
      }
      SpentStaysByPruning(Commit(s.db, plan), Commit(s.snap, plan), after.log[i], s.now);
    }
  }

  // ---------- the core hears first ----------

  /** A key change that leaves the friend set alone keeps it covered. */
  lemma {:induction false} QuietChangeCovered(
      core: map<string, Friend>, keys: map<string, GroupKey>, d: string, key: GroupKey)
    requires Covers(core, keys) && Projected(keys, d, key) == Friends(keys)
    requires d in keys ==> keys[d].Group() == key.Group()
    ensures Covers(core, keys[d := key])
  {
    if key.byteLimit.Some? {
      assert d in Projected(keys, d, key);
    }
  }

  lemma {:induction false} ProjectedCovers(keys: map<string, GroupKey>, d: string, key: GroupKey)
    ensures Covers(Friends(keys), keys)
    ensures d in keys ==> keys[d].Group() == key.Group() && (keys[d].byteLimit.Some? ==> key.byteLimit.Some?) ==>
      Covers(Projected(keys, d, key), keys)
  {
  }

  // ---------- every step keeps the invariant ----------

  lemma {:induction false} CommitKeepsRows(others: set<string>, s: State, e: Event, plan: Plan)
    requires RowsInv(s.snap, s.now) && PrunedFrom(s.db, s.snap, s.now) && Parsed(e) && e.keeper in s.cfg.enrolments
    requires Evaluate(s.cfg, others, s.snap, e, s.now) == Accepted(plan)
    ensures var after := CommitEvent(s, e, plan);
      RowsInv(after.snap, s.now) && PrunedFrom(after.db, after.snap, s.now)
      && after.snap.keys == Commit(s.snap, plan).keys
  {
    CommitKeeps(s.cfg, others, s.snap, e, s.now, plan);
    CommitPruned(s.cfg, others, s.db, s.snap, e, s.now, plan);
    PruningKeeps(Commit(s.db, plan), Commit(s.snap, plan), s.now);
  }

  /** How a committed event changes the key entries. */
  lemma {:induction false} KeysAfterCommit(cfg: Config, others: set<string>, rows: Rows, e: Event, now: nat, plan: Plan)
    requires Evaluate(cfg, others, rows, e, now) == Accepted(plan)
    ensures Commit(rows, plan).keys ==
      if plan.key.Some? then rows.keys[plan.key.value.0 := plan.key.value.1] else rows.keys
    ensures plan.key.Some? ==> e.body.Grant? && !e.body.revoked && plan.key.value == (e.body.device, NewKey(rows, e))
    ensures plan.key.Some? && plan.key.value.0 in rows.keys ==>
      rows.keys[plan.key.value.0].Group() == plan.key.value.1.Group()
    ensures e.body.Grant? && !e.body.revoked && plan.Changes() && plan.key.None? ==>
      e.body.device in rows.keys && rows.keys[e.body.device] == NewKey(rows, e)
  {}

  lemma {:induction false} DirectCommitKeepsPush(others: set<string>, s: State, e: Event, plan: Plan)
    requires PushInv(s) && PrunedFrom(s.db, s.snap, s.now)
    requires Evaluate(s.cfg, others, s.snap, e, s.now) == Accepted(plan) && !ChangesFriends(s.snap.keys, plan)
    ensures PushInv(CommitEvent(s, e, plan))
  {
    hide Evaluate, Commit;
    var keys, after := s.snap.keys, CommitEvent(s, e, plan);
    assert after.snap.keys == Commit(s.snap, plan).keys by {
      CommitPruned(s.cfg, others, s.db, s.snap, e, s.now, plan);
    }
    KeysAfterCommit(s.cfg, others, s.snap, e, s.now, plan);
    forall core | Covers(core, keys) ensures Covers(core, after.snap.keys) {
      if plan.key.Some? {
        QuietChangeCovered(core, keys, plan.key.value.0, plan.key.value.1);
      }
    }
    hide Covers;
    forall id | id in s.flights ensures FlightOk(after, s.flights[id]) {
      assert FlightOk(s, s.flights[id]);
    }
  }

  /** Ending a post, or letting go of the lock, leaves the rest as it was. */
  lemma {:induction false} FinishKeepsPush(s: State, id: nat)
    requires PushInv(s) && id in s.flights
    ensures PushInv(Leave(s, id)) && PushInv(Finish(s, id))
  {
    hide Covers, Ready;
    forall i | i in s.flights && i != id
      ensures FlightOk(Leave(s, id), s.flights[i]) && FlightOk(Finish(s, id), s.flights[i])
    {
      assert FlightOk(s, s.flights[i]);
    }
  }

  /** Planning under the push lock: the projected set covers the keys and the device. */
  lemma {:induction false} TakePushKeeps(s: State, id: nat, others: set<string>)
    requires PushInv(s) && TakePushStep(s, id, others).Some?
    ensures PushInv(TakePushStep(s, id, others).value)
  {
    hide Evaluate, Commit;
    var f, keys := s.flights[id], s.snap.keys;
    var verdict := Evaluate(s.cfg, others, s.snap, f.event, s.now);
    assert FlightOk(s, f);
    if verdict.Refused? || !verdict.plan.Changes() {
      FinishKeepsPush(s, id);
    } else {
      var after, plan := TakePushStep(s, id, others).value, verdict.plan;
      KeysAfterCommit(s.cfg, others, s.snap, f.event, s.now, plan);
      if plan.key.Some? {
        ProjectedCovers(keys, plan.key.value.0, plan.key.value.1);
      }
      assert FlightOk(after, after.flights[id]);
      hide Covers, Ready;
      forall i | i in after.flights && i != id ensures FlightOk(after, after.flights[i]) {
        assert FlightOk(s, s.flights[i]);
      }
    }
  }

  lemma {:induction false} SendPushKeeps(s: State, id: nat, applied: bool, ok: bool)
    requires PushInv(s) && SendPushStep(s, id, applied, ok).Some?
    ensures PushInv(SendPushStep(s, id, applied, ok).value)
  {
    hide Covers, Ready;
    var f, after := s.flights[id], SendPushStep(s, id, applied, ok).value;
    assert FlightOk(s, f);
    var told := if f.projected.Some? && (applied || ok) then s.(core := f.projected.value) else s;
    forall i | i in s.flights ensures FlightOk(told, s.flights[i]) {
      assert FlightOk(s, s.flights[i]);
    }
    assert PushInv(told);
    if f.projected.Some? && !ok {
      FinishKeepsPush(told, id);
    } else {
      forall i | i in after.flights ensures FlightOk(after, after.flights[i]) {
        assert FlightOk(told, s.flights[i]);
      }
    }
  }

  lemma {:induction false} CommitPushKeeps(s: State, id: nat, others: set<string>, plan: Plan)
    requires PushInv(s) && PrunedFrom(s.db, s.snap, s.now) && id in s.flights && s.flights[id].Pushed?
    requires Evaluate(s.cfg, others, s.snap, s.flights[id].event, s.now) == Accepted(plan) && plan.Changes()
    ensures PushInv(Finish(CommitEvent(s, s.flights[id].event, plan), id))
  {
    hide Evaluate, Commit;
    var e, keys := s.flights[id].event, s.snap.keys;
    var after := Finish(CommitEvent(s, e, plan), id);
    assert FlightOk(s, s.flights[id]);
    assert after.snap.keys == Commit(s.snap, plan).keys by {
      CommitPruned(s.cfg, others, s.db, s.snap, e, s.now, plan);
    }
    KeysAfterCommit(s.cfg, others, s.snap, e, s.now, plan);
    assert Covers(s.core, after.snap.keys);
    hide Covers, Ready;
    forall i | i in after.flights ensures FlightOk(after, after.flights[i]) {
      assert FlightOk(s, s.flights[i]);
    }
  }

  lemma {:induction false} TickKeeps(s: State, to: nat)
    requires Inv(s) && s.now <= to
    ensures Inv(s.(now := to))
  {
    WaitingKeeps(s.snap, s.now, to);
    var after := s.(now := to);
    assert PushInv(after) by {
      forall i | i in after.flights ensures FlightOk(after, after.flights[i]) {
        assert FlightOk(s, s.flights[i]);
      }
    }
  }

  lemma {:induction false} PruneKeepsPart(part: Rows, whole: Rows, at: nat, now: nat)
    requires PrunedFrom(part, whole, now) && at <= now
    ensures PrunedFrom(Prune(part, at), whole, now)
  {}

  /** Whatever the new configuration. */
  lemma {:induction false} RestartKeeps(s: State, cfg: Config)
    requires Inv(s)
    ensures Inv(Next(s, Restart(cfg)).value)
  {
    PruningKeeps(s.db, s.snap, s.now);
    hide RowsInv;
  }

  lemma {:induction false} PostKeeps(s: State, id: nat, e: Event)
    requires Inv(s) && PostStep(s, id, e).Some?
    ensures Inv(PostStep(s, id, e).value)
  {
    hide RowsInv, Covers, Ready;
    var after := PostStep(s, id, e).value;
    if after != s {
      forall i | i in after.flights && i != id ensures FlightOk(after, after.flights[i]) {
        assert FlightOk(s, s.flights[i]);
      }
    }
  }

  lemma {:induction false} PlanPostKeeps(s: State, id: nat, others: set<string>, throttled: bool)
    requires Inv(s) && PlanPostStep(s, id, others, throttled).Some?
    ensures Inv(PlanPostStep(s, id, others, throttled).value)
  {
    hide Evaluate, Commit, RowsInv;
    var after, e := PlanPostStep(s, id, others, throttled).value, s.flights[id].event;
    var verdict := Evaluate(s.cfg, others, s.snap, e, s.now);
    assert FlightOk(s, s.flights[id]);
    FinishKeepsPush(s, id);
    if verdict.Accepted? && verdict.plan.Changes() {
      KeysAfterCommit(s.cfg, others, s.snap, e, s.now, verdict.plan);
      if ChangesFriends(s.snap.keys, verdict.plan) {
        hide Covers, Ready;
        forall i | i in after.flights && i != id ensures FlightOk(after, after.flights[i]) {
          assert FlightOk(s, s.flights[i]);
        }
      } else {
        CommitKeepsRows(others, s, e, verdict.plan);
        DirectCommitKeepsPush(others, s, e, verdict.plan);
        FinishKeepsPush(CommitEvent(s, e, verdict.plan), id);
      }
    }
  }

  lemma {:induction false} RowsWellFormed(rows: Rows, now: nat)
    requires RowsInv(rows, now)
    ensures WellFormed(rows)
  {}

  lemma {:induction false} FlightStepKeeps(s: State, a: Action)
    requires Inv(s) && Next(s, a).Some?
    requires a.TakePush? || a.SendPush? || a.CommitPush? || a.DropPost? || a.DevicePush? || a.DevicePushDone?
    ensures Inv(Next(s, a).value)
  {
    hide RowsInv, Evaluate, Commit, Covers, Ready;
    var after := Next(s, a).value;
    match a
    case TakePush(id, others) => TakePushKeeps(s, id, others);
    case SendPush(id, applied, ok) => SendPushKeeps(s, id, applied, ok);
    case CommitPush(id, others) =>
      var e := s.flights[id].event;
      var verdict := Evaluate(s.cfg, others, s.snap, e, s.now);
      assert FlightOk(s, s.flights[id]);
      if verdict.Refused? || !verdict.plan.Changes() {
        FinishKeepsPush(s, id);
      } else {
        CommitKeepsRows(others, s, e, verdict.plan);
        CommitPushKeeps(s, id, others, verdict.plan);
      }
    case DropPost(id) => FinishKeepsPush(s, id);
    case DevicePush =>
      ProjectedCovers(s.snap.keys, "", GroupKey("", "", None));
      KeepFlights(s, after);
    case DevicePushDone(_) => KeepFlights(s, after);
  }

  /** No post holds the push lock: nothing in flight depends on `core`. */
  lemma {:induction false} KeepFlights(s: State, after: State)
    requires PushInv(s) && !s.lock.ByPost? && !after.lock.ByPost?
    requires after.flights == s.flights && after.snap == s.snap
    ensures forall i | i in after.flights ::
      FlightOk(after, after.flights[i]) && !after.flights[i].Planned? && !after.flights[i].Pushed?
  {
    forall i | i in after.flights ensures FlightOk(after, after.flights[i]) {
      assert FlightOk(s, s.flights[i]);
    }
  }

  lemma {:induction false} StepKeeps(s: State, a: Action)
    requires Inv(s) && Next(s, a).Some?
    ensures Inv(Next(s, a).value)
  {
    match a
    case Tick(to) => TickKeeps(s, to);
    case PruneDatabase(at) =>
      PruneKeepsPart(s.db, s.snap, at, s.now);
      forall i | i in s.flights ensures FlightOk(Next(s, a).value, s.flights[i]) {
        assert FlightOk(s, s.flights[i]);
      }
    case Restart(cfg) => RestartKeeps(s, cfg);
    case Post(id, e) => PostKeeps(s, id, e);
    case PlanPost(id, others, throttled) => PlanPostKeeps(s, id, others, throttled);
    case _ => FlightStepKeeps(s, a);
  }

  lemma {:induction false} RunKeeps(s: State, actions: seq<Action>)
    requires Inv(s) && Run(s, actions).Some?
    ensures Inv(Run(s, actions).value)
    decreases |actions|
  {
    hide Inv, Next;
    if actions != [] {
      StepKeeps(s, actions[0]);
      RunKeeps(Next(s, actions[0]).value, actions[1..]);
    }
  }

  lemma {:induction false} Reachable(cfg: Config, start: nat, actions: seq<Action>)
    requires Run(Initial(cfg, start), actions).Some?
    ensures Inv(Run(Initial(cfg, start), actions).value)
  {
    RunKeeps(Initial(cfg, start), actions);
  }

  // ---------- replay ----------

  /** How long after its screening a post may be committed. */
  datatype Waits = Waits(grants: nat, resets: nat) {
    function For(e: Event): nat { if e.body.Grant? then grants else resets }
  }

  ghost predicate Prompt(waits: Waits, s: State, a: Action) {
    (a.PlanPost? || a.CommitPush?) && a.id in s.flights ==>
      s.now <= s.flights[a.id].screenedAt + waits.For(s.flights[a.id].event)
  }

  ghost predicate PromptRun(waits: Waits, s: State, actions: seq<Action>)
    decreases |actions|
  {
    actions == [] ||
    (Prompt(waits, s, actions[0])
     && var next := Next(s, actions[0]); next.Some? ==> PromptRun(waits, next.value, actions[1..]))
  }

  /** A grant or revocation was screened before it expired, and its row is kept
      for the delete grace after that; a floor is kept until its reset expires. */
  const GRANT_WINDOW: nat := SELF_DELETE_GRACE + 1
  const RESET_WINDOW: nat := 1

  ghost predicate Within(waits: Waits) {
    waits.grants <= GRANT_WINDOW && waits.resets <= RESET_WINDOW
  }

  /** A post judged in time is committed at most once. */
  lemma {:induction false} LandingKeepsLog(waits: Waits, s: State, id: nat, others: set<string>, plan: Plan)
    requires Within(waits) && Inv(s) && LogInv(s) && id in s.flights
    requires s.now <= s.flights[id].screenedAt + waits.For(s.flights[id].event)
    requires Evaluate(s.cfg, others, s.snap, s.flights[id].event, s.now) == Accepted(plan) && plan.Changes()
    ensures LogInv(CommitEvent(s, s.flights[id].event, plan))
  {
    hide Evaluate, Commit, RowsInv, Spent;
    RowsWellFormed(s.snap, s.now);
    assert FlightOk(s, s.flights[id]);
    CommitKeepsLog(others, s, s.flights[id].event, plan);
  }

  lemma {:induction false} StepKeepsLog(waits: Waits, s: State, a: Action)
    requires Within(waits) && Inv(s) && LogInv(s) && Prompt(waits, s, a) && Next(s, a).Some?
    ensures LogInv(Next(s, a).value)
  {
    hide Evaluate, CommitEvent, RowsInv, PushInv, Spent;
    var after := Next(s, a).value;
    match a
    case Tick(to) =>
      forall i | 0 <= i < |s.log| ensures Spent(s.snap, s.log[i], to) {
        SpentStaysByWaiting(s.snap, s.log[i], s.now, to);
      }
    case Restart(_) =>
      forall i | 0 <= i < |s.log| ensures Spent(s.db, s.log[i], s.now) {
        SpentStaysByPruning(s.db, s.snap, s.log[i], s.now);
      }
    case PlanPost(id, others, _) =>
      var v := Evaluate(s.cfg, others, s.snap, s.flights[id].event, s.now);
      if v.Accepted? && v.plan.Changes() {
        LandingKeepsLog(waits, s, id, others, v.plan);
      }
    case CommitPush(id, others) =>
      var v := Evaluate(s.cfg, others, s.snap, s.flights[id].event, s.now);
      if v.Accepted? && v.plan.Changes() {
        LandingKeepsLog(waits, s, id, others, v.plan);
      }
    case _ =>
  }

  lemma {:induction false} RunKeepsLog(waits: Waits, s: State, actions: seq<Action>)
    requires Within(waits) && Inv(s) && LogInv(s) && PromptRun(waits, s, actions)
    requires Run(s, actions).Some?
    ensures LogInv(Run(s, actions).value)
    decreases |actions|
  {
    hide Inv, Next, LogInv, Prompt;
    if actions != [] {
      StepKeeps(s, actions[0]);
      StepKeepsLog(waits, s, actions[0]);
      RunKeepsLog(waits, Next(s, actions[0]).value, actions[1..]);
    }
  }

  // ---------- runs given by their states ----------

  ghost predicate Traces(trace: seq<State>, actions: seq<Action>) {
    && |trace| == |actions| + 1
    && forall i | 0 <= i < |actions| :: Next(trace[i], actions[i]) == Some(trace[i + 1])
  }

  lemma {:induction false} TraceRuns(trace: seq<State>, actions: seq<Action>)
    requires Traces(trace, actions)
    ensures Run(trace[0], actions) == Some(trace[|actions|])
    decreases |actions|
  {
    hide Next;
    if actions != [] {
      assert Traces(trace[1..], actions[1..]);
      TraceRuns(trace[1..], actions[1..]);
    }
  }

  lemma {:induction false} TracePrompt(waits: Waits, trace: seq<State>, actions: seq<Action>)
    requires Traces(trace, actions) && forall i | 0 <= i < |actions| :: Prompt(waits, trace[i], actions[i])
    ensures PromptRun(waits, trace[0], actions)
    decreases |actions|
  {
    hide Next, Prompt;
    if actions != [] {
      assert Traces(trace[1..], actions[1..]);
      TracePrompt(waits, trace[1..], actions[1..]);
    }
  }
}
