/** What an accepted group event does: a grant takes effect at once, a
    revocation and a reset end what they name, for good and for nothing else. */
module GroupEffects {

  import opened GroupGrants
  import opened GroupNode

  /** A grant that is written is active from then on, with its own scopes and ceiling. */
  lemma {:induction false} GrantTakesEffect(
      cfg: Config, others: set<string>, rows: Rows, e: Event, now: nat, plan: Plan)
    requires e.body.Grant? && !e.body.revoked && Screen(cfg, e, now).None?
    requires Evaluate(cfg, others, rows, e, now) == Accepted(plan) && plan.Changes()
    ensures var after := Commit(rows, plan); var id := e.GrantKey(); var d := e.body.device;
      && id in after.grants && IsActive(cfg, after, after.grants[id], now)
      && after.grants[id].device == d && after.grants[id].Group() == e.Group()
      && after.grants[id].server == e.body.server && after.grants[id].scopes == e.body.scopes
      && after.grants[id].bytes == e.body.bytes && after.grants[id].expiration == e.expiration
      && d in after.keys && after.keys[d].Group() == e.Group()
      && (e.body.bytes.Some? ==> after.keys[d].byteLimit == e.body.bytes)
      && (e.body.bytes.None? && d in rows.keys ==> after.keys[d].byteLimit == rows.keys[d].byteLimit)
  {
    KeysAfterCommit(cfg, others, rows, e, now, plan);
  }

  /** A screened grant for a device the node knows nothing of is admitted, unless a reset covers it. */
  lemma {:induction false} NewDeviceIsAdmitted(cfg: Config, others: set<string>, rows: Rows, e: Event, now: nat)
    requires e.body.Grant? && e.GrantKey() !in rows.grants
    requires e.body.device !in others && e.body.device !in cfg.enrolments && e.body.device !in rows.keys
    requires forall id | id in rows.grants :: rows.grants[id].device != e.body.device
    ensures var v := Evaluate(cfg, others, rows, e, now);
      if e.Group() in rows.floors && e.createdAt <= rows.floors[e.Group()].createdAt then v == Refused(FloorRefused)
      else v.Accepted? && v.plan.created && v.plan.grant.Some?
  {
  }

  /** A newer revocation by the same keeper lands, and its grant is never active again in those rows. */
  lemma {:induction false} RevocationEndsGrant(cfg: Config, others: set<string>, rows: Rows, e: Event, now: nat)
    requires e.body.Grant? && e.body.revoked && e.GrantKey() in rows.grants
    requires !Conflict(cfg, others, rows, e.Group(), e.body.device)
    requires var row := rows.grants[e.GrantKey()];
      && (row.room, row.device, row.server) == (e.body.room, e.body.device, e.body.server)
      && row.createdAt < e.createdAt && row.eventId != e.id
    requires e.Group() in rows.floors ==> rows.floors[e.Group()].createdAt < e.createdAt
    ensures var v := Evaluate(cfg, others, rows, e, now);
      && v.Accepted? && v.plan.Changes()
      && var after := Commit(rows, v.plan);
      && !after.grants[e.GrantKey()].active && (forall t :: !IsActive(cfg, after, after.grants[e.GrantKey()], t))
      && after.keys == rows.keys && after.floors == rows.floors
      && forall id | id in rows.grants && id != e.GrantKey() ::
        id in after.grants && after.grants[id] == rows.grants[id]
  {
  }

  /** A newer reset lands, ends every grant of its group made up to then, and touches no other group. */
  lemma {:induction false} ResetEndsGroup(
      cfg: Config, others: set<string>, rows: Rows, e: Event, now: nat, id: GrantId, t: nat)
    requires e.body.Reset? && id in rows.grants
    requires e.Group() in rows.floors ==>
      rows.floors[e.Group()].createdAt < e.createdAt && rows.floors[e.Group()].eventId != e.id
    ensures var v := Evaluate(cfg, others, rows, e, now);
      && v.Accepted? && v.plan.Changes()
      && var after := Commit(rows, v.plan);
      && after.grants == rows.grants && after.keys == rows.keys
      && (rows.grants[id].Group() == e.Group() && rows.grants[id].createdAt <= e.createdAt ==>
        !IsActive(cfg, after, after.grants[id], t))
      && (rows.grants[id].Group() != e.Group() ==>
          (IsActive(cfg, after, after.grants[id], t) <==> IsActive(cfg, rows, rows.grants[id], t)))
  {
  }

  /** The row of `id` is revoked, or gone. */
  predicate RevokedOrGone(rows: Rows, id: GrantId) {
    id in rows.grants ==> !rows.grants[id].active
  }

  lemma {:induction false} CommitKeepsRevoked(others: set<string>, s: State, e: Event, plan: Plan, id: GrantId)
    requires PrunedFrom(s.db, s.snap, s.now) && id in s.snap.grants && !s.snap.grants[id].active
    requires Evaluate(s.cfg, others, s.snap, e, s.now) == Accepted(plan)
    ensures RevokedOrGone(CommitEvent(s, e, plan).snap, id)
  {
  }

  lemma {:induction false} StepKeepsRevoked(s: State, a: Action, id: GrantId)
    requires Inv(s) && Next(s, a).Some? && id in s.snap.grants && !s.snap.grants[id].active
    ensures RevokedOrGone(Next(s, a).value.snap, id)
  {
    hide Evaluate, CommitEvent, RowsInv, PushInv;
    match a
    case PlanPost(i, others, _) =>
      var e := s.flights[i].event;
      var v := Evaluate(s.cfg, others, s.snap, e, s.now);
      if v.Accepted? {
        CommitKeepsRevoked(others, s, e, v.plan, id);
      }
    case CommitPush(i, others) =>
      var e := s.flights[i].event;
      var v := Evaluate(s.cfg, others, s.snap, e, s.now);
      if v.Accepted? {
        CommitKeepsRevoked(others, s, e, v.plan, id);
      }
    case _ =>
  }

  /** The row of `id` is kept all through the run. */
  ghost predicate Kept(s: State, actions: seq<Action>, id: GrantId)
    decreases |actions|
  {
    && id in s.snap.grants
    && (actions == [] || (var next := Next(s, actions[0]); next.Some? ==> Kept(next.value, actions[1..], id)))
  }

  /** Once revoked, a grant is never active again for as long as its row is kept. */
  lemma {:induction false} RevokedStays(s: State, actions: seq<Action>, id: GrantId, t: nat)
    requires Inv(s) && Run(s, actions).Some? && Kept(s, actions, id) && !s.snap.grants[id].active
    ensures var rows := Run(s, actions).value.snap;
      id in rows.grants && !rows.grants[id].active && !IsLive(rows, rows.grants[id], t)
    decreases |actions|
  {
    hide Next, Inv;
    if actions != [] {
      var next := Next(s, actions[0]).value;
      StepKeeps(s, actions[0]);
      StepKeepsRevoked(s, actions[0], id);
      RevokedStays(next, actions[1..], id, t);
    }
  }

  // ---------- resets ----------

  /** Nothing the group was granted up to `bound` can be active from `now` on. */
  ghost predicate Barred(rows: Rows, group: GroupId, bound: nat, now: nat) {
    || (group in rows.floors && bound <= rows.floors[group].createdAt)
    || bound + FLOOR_RETENTION < now
  }

  lemma {:induction false} BarredInPart(part: Rows, whole: Rows, group: GroupId, bound: nat, now: nat)
    requires WellFormed(whole) && PrunedFrom(part, whole, now) && Barred(whole, group, bound, now)
    ensures Barred(part, group, bound, now)
  {}

  lemma {:induction false} CommitKeepsBarred(
      others: set<string>, s: State, e: Event, plan: Plan, group: GroupId, bound: nat)
    requires WellFormed(s.snap) && PrunedFrom(s.db, s.snap, s.now) && Barred(s.snap, group, bound, s.now)
    requires Evaluate(s.cfg, others, s.snap, e, s.now) == Accepted(plan)
    ensures CommitEvent(s, e, plan).now == s.now && Barred(CommitEvent(s, e, plan).snap, group, bound, s.now)
  {
    BarredInPart(s.db, s.snap, group, bound, s.now);
  }

  lemma {:induction false} StepKeepsBarred(s: State, a: Action, group: GroupId, bound: nat)
    requires Inv(s) && Next(s, a).Some? && Barred(s.snap, group, bound, s.now)
    ensures var next := Next(s, a).value; Barred(next.snap, group, bound, next.now)
  {
    hide Evaluate, CommitEvent, RowsInv, PushInv, PrunedFrom;
    RowsWellFormed(s.snap, s.now);
    if a.Restart? {
      BarredInPart(s.db, s.snap, group, bound, s.now);
    } else if a.PlanPost? || a.CommitPush? {
      var e := s.flights[a.id].event;
      var v := Evaluate(s.cfg, a.others, s.snap, e, s.now);
      if v.Accepted? {
        CommitKeepsBarred(a.others, s, e, v.plan, group, bound);
      }
    }
  }

  lemma {:induction false} RunKeepsBarred(s: State, actions: seq<Action>, group: GroupId, bound: nat)
    requires Inv(s) && Run(s, actions).Some? && Barred(s.snap, group, bound, s.now)
    ensures var end := Run(s, actions).value; Inv(end) && Barred(end.snap, group, bound, end.now)
    decreases |actions|
  {
    hide Next, Inv, Barred;
    if actions != [] {
      StepKeeps(s, actions[0]);
      StepKeepsBarred(s, actions[0], group, bound);
      RunKeepsBarred(Next(s, actions[0]).value, actions[1..], group, bound);
    }
  }

  /** Once a group is reset, no grant made up to then is ever active again: not
      after the floor is pruned, and not when it is posted or pushed only then. */
  lemma {:induction false} ResetIsFinal(s: State, actions: seq<Action>, group: GroupId, id: GrantId, t: nat)
    requires Inv(s) && group in s.snap.floors && Run(s, actions).Some?
    requires var end := Run(s, actions).value;
      && end.now <= t && id in end.snap.grants && end.snap.grants[id].Group() == group
      && end.snap.grants[id].createdAt <= s.snap.floors[group].createdAt
    ensures var rows := Run(s, actions).value.snap; !IsLive(rows, rows.grants[id], t)
  {
    hide Next, Run, PushInv;
    var bound := s.snap.floors[group].createdAt;
    assert Barred(s.snap, group, bound, s.now);
    RunKeepsBarred(s, actions, group, bound);
  }
}
