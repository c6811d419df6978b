/** The node's locked state as an object: each method is one critical section
    of `grants/group.rs` or `grants/group_db.rs`, and refines one step of the
    transition system. */
module GroupServer {
  import opened Wrappers
  import opened GroupGrants
  import opened GroupNode

  class Server {
    const cfg: Config
    var now: nat
    var db: Rows
    var snapshot: Rows
    var core: map<string, Friend>
    var lock: PushLock
    var flights: map<nat, Flight>
    ghost var log: seq<Event>

    constructor (cfg: Config, now: nat)
      ensures this.cfg == cfg && Abs() == Initial(cfg, now)
    {
      this.cfg, this.now := cfg, now;
      db, snapshot := Rows(map[], map[], map[]), Rows(map[], map[], map[]);
      core, lock, flights, log := map[], Free, map[], [];
    }

    ghost function Abs(): State
      reads this
    {
      State(cfg, now, db, snapshot, core, lock, flights, log)
    }

    /** One transaction, then a reload. */
    method CommitGroupPlan(plan: Plan, ghost e: Event)
      modifies this`db, this`snapshot, this`log
      ensures Abs() == CommitEvent(old(Abs()), e, plan)
    {
      if plan.grant.Some? {
        db := WriteGrant(db, plan.grant.value);
      }
      if plan.floor.Some? {
        db := WriteFloor(db, plan.floor.value.0, plan.floor.value.1);
      }
      if plan.key.Some? {
        db := WriteKey(db, plan.key.value.0, plan.key.value.1);
      }
      snapshot := db;
      log := log + [e];
    }

    /** Pruning touches the database only; the snapshot follows at the next commit. */
    method PruneGroup(at: nat)
      requires at <= now
      modifies this`db
      ensures Some(Abs()) == Next(old(Abs()), PruneDatabase(at))
    {
      db := Prune(db, at);
    }

    /** Rules 5 to 7, before the update lock is asked for. */
    method ScreenGroupEvent(id: nat, e: Event)
      requires Parsed(e) && id !in flights
      modifies this`flights
      ensures Some(Abs()) == PostStep(old(Abs()), id, e)
    {
      if Screen(cfg, e, now).None? {
        flights := flights[id := Screened(e, now)];
      }
    }

    /** The first locked section of `post_group_event`, up to the point where a
        changed friend set sends the post to wait for the push lock. */
    method PlanGroupEvent(id: nat, others: set<string>, throttled: bool)
      requires id in flights && flights[id].Screened?
      modifies this
      ensures Some(Abs()) == PlanPostStep(old(Abs()), id, others, throttled)
    {
      hide Evaluate, Commit;
      var f := flights[id];
      var verdict := Evaluate(cfg, others, snapshot, f.event, now);
      if verdict.Accepted? && verdict.plan.Changes() {
        var plan := verdict.plan;
        if !(plan.grant.Some? && plan.grant.value.active && throttled) {
          if ChangesFriends(snapshot.keys, plan) {
            flights := flights[id := Waiting(f.event, f.screenedAt)];
            return;
          }
          CommitGroupPlan(plan, f.event);
        }
      }
      flights := flights - {id};
    }

    /** Under the push lock: plan again and compute the set the core must hear. */
    method TakePushLock(id: nat, others: set<string>)
      requires id in flights && flights[id].Waiting? && lock == Free
      modifies this
      ensures Some(Abs()) == TakePushStep(old(Abs()), id, others)
    {
      hide Evaluate;
      var f := flights[id];
      var verdict := Evaluate(cfg, others, snapshot, f.event, now);
      if verdict.Refused? || !verdict.plan.Changes() {
        flights := flights - {id};
        return;
      }
      var key := verdict.plan.key;
      var projected := if key.None? then None else Some(Projected(snapshot.keys, key.value.0, key.value.1));
      flights := flights[id := Planned(f.event, f.screenedAt, projected)];
      lock := ByPost(id);
    }

    /** The core is told: `applied` is whether it took the set, `ok` whether it said so. */
    method SendPush(id: nat, applied: bool, ok: bool)
      requires id in flights && flights[id].Planned?
      modifies this
      ensures Some(Abs()) == SendPushStep(old(Abs()), id, applied, ok)
    {
      var f := flights[id];
      if f.projected.Some? {
        if applied || ok {
          core := f.projected.value;
        }
        if !ok {
          flights := flights - {id};
          if lock == ByPost(id) {
            lock := Free;
          }
          return;
        }
      }
      flights := flights[id := Pushed(f.event, f.screenedAt, f.projected.Some?)];
    }

    /** Plan a third time under the update lock and commit what still holds. */
    method CommitPushed(id: nat, others: set<string>)
      requires id in flights && flights[id].Pushed?
      modifies this
      ensures Some(Abs()) == CommitPushStep(old(Abs()), id, others)
    {
      hide Evaluate, Commit;
      var e := flights[id].event;
      var verdict := Evaluate(cfg, others, snapshot, e, now);
      if verdict.Accepted? && verdict.plan.Changes() {
        CommitGroupPlan(verdict.plan, e);
      }
      flights := flights - {id};
      if lock == ByPost(id) {
        lock := Free;
      }
    }
  }

  // ---------- the per-device index ----------

  /** `ids` lists the keys of `grants`, each once: the order of the table. */
  ghost predicate Lists(ids: seq<GrantId>, grants: map<GrantId, Row>) {
    && (forall id :: id in ids <==> id in grants)
    && (forall i, j | 0 <= i < j < |ids| :: ids[i] != ids[j])
  }

  function IdsFor(index: map<string, seq<GrantId>>, device: string): seq<GrantId> {
    if device in index then index[device] else []
  }

  /** `index` files exactly the listed ids under their devices. */
  ghost predicate Files(index: map<string, seq<GrantId>>, grants: map<GrantId, Row>, listed: seq<GrantId>) {
    forall device, id :: id in IdsFor(index, device) <==> id in listed && id in grants && grants[id].device == device
  }

  lemma {:induction false} FileOne(
      index: map<string, seq<GrantId>>, grants: map<GrantId, Row>, listed: seq<GrantId>, id: GrantId)
    requires Files(index, grants, listed) && id in grants
    ensures Files(index[grants[id].device := IdsFor(index, grants[id].device) + [id]], grants, listed + [id])
  {
    var d := grants[id].device;
    var next := index[d := IdsFor(index, d) + [id]];
    forall device, i
      ensures i in IdsFor(next, device) <==> i in listed + [id] && i in grants && grants[i].device == device
    {
      assert i in IdsFor(next, device) <==> i in IdsFor(index, device) || (device == d && i == id);
    }
  }

  /** `index`: the grant ids of each device, in table order. */
  method Index(grants: map<GrantId, Row>, ids: seq<GrantId>) returns (index: map<string, seq<GrantId>>)
    requires Lists(ids, grants)
    ensures forall device, id :: id in IdsFor(index, device) <==> id in grants && grants[id].device == device
  {
    index := map[];
    assert Files(index, grants, ids[..0]);
    for n := 0 to |ids|
      invariant Files(index, grants, ids[..n])
    {
      var id := ids[n];
      FileOne(index, grants, ids[..n], id);
      assert ids[..n + 1] == ids[..n] + [id];
      index := index[grants[id].device := IdsFor(index, grants[id].device) + [id]];
    }
    assert ids[..|ids|] == ids;
  }

  /** `active_for`: of a device's grants, the first that is active.  In a state the node
      can reach it is the only one, whatever order the rows come in. */
  method ActiveFor(cfg: Config, rows: Rows, index: map<string, seq<GrantId>>, device: string, now: nat)
    returns (found: Option<Row>)
    requires forall id :: id in IdsFor(index, device) <==> id in rows.grants && rows.grants[id].device == device
    ensures found.None? <==>
      forall id | id in rows.grants && rows.grants[id].device == device :: !IsActive(cfg, rows, rows.grants[id], now)
    ensures found.Some? ==> found.value.device == device && IsActive(cfg, rows, found.value, now)
    ensures found.Some? && RowsInv(rows, now) ==>
      forall id | id in rows.grants && rows.grants[id].device == device && IsActive(cfg, rows, rows.grants[id], now) ::
        rows.grants[id] == found.value
  {
    var ids := IdsFor(index, device);
    for n := 0 to |ids|
      invariant forall i | 0 <= i < n :: !IsActive(cfg, rows, rows.grants[ids[i]], now)
    {
      if IsActive(cfg, rows, rows.grants[ids[n]], now) {
        return Some(rows.grants[ids[n]]);
      }
    }
    found := None;
  }
}
