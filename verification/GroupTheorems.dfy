/** What holds in every reachable state of a group node, over every run of
    posts, pushes, prunes, clock steps and restarts. */
module GroupTheorems {
  import opened Wrappers
  import opened GroupGrants
  import opened GroupNode

  /** Some run of the node from its empty start ends in `s`. */
  ghost predicate Reached(s: State) {
    exists cfg, start, actions :: Run(Initial(cfg, start), actions) == Some(s)
  }

  lemma {:induction false} ReachedInv(s: State)
    requires Reached(s)
    ensures Inv(s)
  {
    var cfg, start, actions :| Run(Initial(cfg, start), actions) == Some(s);
    Reachable(cfg, start, actions);
  }

  /** From now on a device never has two live grants, let alone active ones,
      however enrolments change at restarts; all its rows are of one group, and
      its key entry, which every live grant has, names that group. */
  lemma {:induction false} DeviceHasOneGrant(s: State, t: nat, i: GrantId, j: GrantId)
    requires Reached(s) && s.now <= t
    requires i in s.snap.grants && j in s.snap.grants && s.snap.grants[i].device == s.snap.grants[j].device
    ensures s.snap.grants[i].Group() == s.snap.grants[j].Group()
    ensures s.snap.grants[i].device in s.snap.keys ==>
      s.snap.keys[s.snap.grants[i].device].Group() == s.snap.grants[i].Group()
    ensures IsLive(s.snap, s.snap.grants[i], t) ==> s.snap.grants[i].device in s.snap.keys
    ensures IsLive(s.snap, s.snap.grants[i], t) && IsLive(s.snap, s.snap.grants[j], t) ==> i == j
  {
    ReachedInv(s);
    WaitingKeeps(s.snap, s.now, t);
  }

  /** The ceiling in a device's key entry is that of its live upload grant, whoever is enrolled. */
  lemma {:induction false} CeilingFollowsGrant(s: State, t: nat, i: GrantId)
    requires Reached(s) && s.now <= t && i in s.snap.grants
    requires IsLive(s.snap, s.snap.grants[i], t) && Upload in s.snap.grants[i].scopes
    ensures s.snap.grants[i].bytes.Some?
    ensures s.snap.grants[i].device in s.snap.keys
    ensures s.snap.keys[s.snap.grants[i].device].byteLimit == s.snap.grants[i].bytes
  {
    ReachedInv(s);
    WaitingKeeps(s.snap, s.now, t);
  }

  /** No event is committed twice, whatever was pruned in between, if posts wait no longer than the windows. */
  lemma {:induction false} EventsLandOnce(cfg: Config, waits: Waits, start: nat, actions: seq<Action>, i: nat, j: nat)
    requires Within(waits) && PromptRun(waits, Initial(cfg, start), actions) && Run(Initial(cfg, start), actions).Some?
    requires i < j < |Run(Initial(cfg, start), actions).value.log|
    ensures var log := Run(Initial(cfg, start), actions).value.log; log[i] != log[j]
  {
    RunKeepsLog(waits, Initial(cfg, start), actions);
  }

  /** Every key with an upload ceiling is in the friend set the core holds,
      under the grant id of its group. */
  lemma {:induction false} CoreHearsFirst(s: State, d: string)
    requires Reached(s) && d in s.snap.keys && s.snap.keys[d].byteLimit.Some?
    ensures s.db.keys == s.snap.keys
    ensures d in s.core && s.core[d].grantId == GroupGrantId(s.snap.keys[d].keeper, s.snap.keys[d].room)
  {
    ReachedInv(s);
  }

  /** A device never changes group. */
  ghost predicate KeysStay(before: map<string, GroupKey>, after: map<string, GroupKey>) {
    forall d | d in before :: d in after && after[d].Group() == before[d].Group()
  }

  lemma {:induction false} CommitKeepsKeys(others: set<string>, s: State, e: Event, plan: Plan)
    requires PrunedFrom(s.db, s.snap, s.now) && Evaluate(s.cfg, others, s.snap, e, s.now) == Accepted(plan)
    ensures KeysStay(s.snap.keys, CommitEvent(s, e, plan).snap.keys)
  {
    KeysAfterCommit(s.cfg, others, s.snap, e, s.now, plan);
    CommitPruned(s.cfg, others, s.db, s.snap, e, s.now, plan);
    hide Evaluate, Commit;
  }

  lemma {:induction false} StepKeepsKeys(s: State, a: Action)
    requires Inv(s) && Next(s, a).Some?
    ensures KeysStay(s.snap.keys, Next(s, a).value.snap.keys)
  {
    hide Evaluate, CommitEvent, RowsInv, PushInv;
    if (a.PlanPost? || a.CommitPush?) && Evaluate(s.cfg, a.others, s.snap, s.flights[a.id].event, s.now).Accepted? {
      var e := s.flights[a.id].event;
      CommitKeepsKeys(a.others, s, e, Evaluate(s.cfg, a.others, s.snap, e, s.now).plan);
    }
  }

  lemma {:induction false} DeviceKeepsGroup(s: State, actions: seq<Action>)
    requires Inv(s) && Run(s, actions).Some?
    ensures KeysStay(s.snap.keys, Run(s, actions).value.snap.keys)
    decreases |actions|
  {
    if actions != [] {
      hide Inv, Next;
      var next := Next(s, actions[0]).value;
      StepKeeps(s, actions[0]);
      StepKeepsKeys(s, actions[0]);
      DeviceKeepsGroup(next, actions[1..]);
    }
  }
}
