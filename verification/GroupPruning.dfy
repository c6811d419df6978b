/** Floors are pruned when 90 days old (`group_db::prune`): a node that
    prunes floors and one that keeps them judge every event alike, exactly as
    long as no event is judged later than 90 days after it was made. */
module GroupPruning {

  import opened Wrappers
  import opened GroupGrants
  import opened GroupNode
  import opened GroupLatePush

  // ---------- one verdict ----------

  /** `part` is `whole` without some floors that are dead at `now`. */
  ghost predicate FloorsPart(part: map<GroupId, Floor>, whole: map<GroupId, Floor>, now: nat) {
    && part.Keys <= whole.Keys
    && (forall g | g in part :: part[g] == whole[g])
    && (forall g | g in whole :: whole[g].expiresAt == whole[g].createdAt + FLOOR_RETENTION)
    && (forall g | g in whole && g !in part :: whole[g].expiresAt < now)
  }

  /** The same rows, but for some dead floors. */
  ghost predicate Thinned(thin: Rows, full: Rows, now: nat) {
    thin == full.(floors := thin.floors) && FloorsPart(thin.floors, full.floors, now)
  }

  /** Event ids are hashes, so they name the time their event was made at. */
  ghost predicate Named(created: string -> nat, floors: map<GroupId, Floor>) {
    forall g | g in floors :: floors[g].createdAt == created(floors[g].eventId)
  }

  /** The event is not older than the 90 days for which a floor is kept. */
  ghost predicate Young(e: Event, now: nat) {
    now <= e.createdAt + FLOOR_RETENTION
  }

  lemma {:induction false} SameActivity(cfg: Config, thin: Rows, full: Rows, now: nat, t: nat, id: GrantId)
    requires WellFormed(thin) && Thinned(thin, full, now) && now <= t && id in full.grants
    ensures IsActive(cfg, thin, thin.grants[id], t) <==> IsActive(cfg, full, full.grants[id], t)
    ensures Covered(full, full.grants[id]) ==> !IsActive(cfg, thin, thin.grants[id], t)
  {}

  lemma {:induction false} SameTaken(cfg: Config, thin: Rows, full: Rows, e: Event, now: nat)
    requires WellFormed(thin) && Thinned(thin, full, now) && e.body.Grant?
    ensures Taken(cfg, thin, e, now) <==> Taken(cfg, full, e, now)
  {
    forall id | id in full.grants
      ensures IsActive(cfg, thin, thin.grants[id], now) <==> IsActive(cfg, full, full.grants[id], now)
    {
      SameActivity(cfg, thin, full, now, now, id);
    }
    hide IsActive;
  }

  lemma {:induction false} SameVerdict(
      cfg: Config, created: string -> nat, others: set<string>, thin: Rows, full: Rows, e: Event, now: nat)
    requires WellFormed(thin) && Thinned(thin, full, now) && Young(e, now)
    requires Named(created, full.floors) && e.createdAt == created(e.id)
    ensures Evaluate(cfg, others, thin, e, now) == Evaluate(cfg, others, full, e, now)
  {
    if e.body.Grant? {
      SameTaken(cfg, thin, full, e, now);
      hide Taken;
    }
  }

  ghost predicate Alike(
      cfg: Config, created: string -> nat, others: set<string>, thin: Rows, full: Rows, e: Event, now: nat) {
    WellFormed(thin) && Thinned(thin, full, now) && Named(created, full.floors) && e.createdAt == created(e.id) ==>
      Evaluate(cfg, others, thin, e, now) == Evaluate(cfg, others, full, e, now)
  }

  /** Whatever the node holds, a floor that may be pruned at `now` does not touch the verdict. */
  ghost predicate Untouched(e: Event, now: nat) {
    forall cfg, created, others, thin, full :: Alike(cfg, created, others, thin, full, e, now)
  }

  /** `rows` as they would be if the group had been reset when `e` was made. */
  function WithReset(rows: Rows, e: Event): Rows {
    WriteFloor(rows, e.Group(), Floor(e.createdAt, e.createdAt + FLOOR_RETENTION, e.id + "'"))
  }

  /** Rows that accept an old event may have lost a floor that would refuse it. */
  lemma {:induction false} OldMayBeRefused(cfg: Config, others: set<string>, rows: Rows, e: Event, now: nat)
    requires WellFormed(rows) && e.Group() !in rows.floors && Evaluate(cfg, others, rows, e, now).Accepted?
    requires !Young(e, now)
    ensures Thinned(rows, WithReset(rows, e), now) && Evaluate(cfg, others, WithReset(rows, e), e, now).Refused?
  {
    assert |e.id + "'"| != |e.id|;
  }

  lemma {:induction false} OldIsTouched(e: Event, now: nat)
    requires !Young(e, now)
    ensures !Untouched(e, now)
  {
    var cfg, none, created: string -> nat := Config(map[], {}), Rows(map[], map[], map[]), _ => e.createdAt;
    assert Evaluate(cfg, {}, none, e, now).Accepted?;
    OldMayBeRefused(cfg, {}, none, e, now);
    hide Evaluate;
    assert !Alike(cfg, created, {}, none, WithReset(none, e), e, now);
  }

  /** Dead floors are without effect on exactly the events that are still young. */
  lemma {:induction false} UntouchedIsYoung(e: Event, now: nat)
    ensures Untouched(e, now) <==> Young(e, now)
  {
    hide Evaluate;
    if Young(e, now) {
      forall cfg, created, others, thin, full ensures Alike(cfg, created, others, thin, full, e, now) {
        if WellFormed(thin) && Thinned(thin, full, now) && Named(created, full.floors) && e.createdAt == created(e.id) {
          SameVerdict(cfg, created, others, thin, full, e, now);
        }
      }
    } else {
      OldIsTouched(e, now);
    }
  }

  // ---------- two nodes, one run ----------

  /** The node as it would be if a prune left the floors alone. */
  function NextKept(s: State, a: Action): Option<State> {
    if a.PruneDatabase? then
      if s.now < a.at then None else Some(s.(db := Prune(s.db, a.at).(floors := s.db.floors)))
    else Next(s, a)
  }

  function Step(keep: bool, s: State, a: Action): Option<State> {
    if keep then NextKept(s, a) else Next(s, a)
  }

  /** The event an action judges. */
  function Judges(s: State, a: Action): Option<Event> {
    if (a.PlanPost? && a.id in s.flights && s.flights[a.id].Screened?)
       || (a.TakePush? && a.id in s.flights && s.flights[a.id].Waiting? && s.lock == Free)
       || (a.CommitPush? && a.id in s.flights && s.flights[a.id].Pushed?)
    then Some(s.flights[a.id].event) else None
  }

  function VerdictOf(s: State, a: Action): Option<Verdict> {
    if Judges(s, a).Some? then Some(Evaluate(s.cfg, a.others, s.snap, Judges(s, a).value, s.now)) else None
  }

  /** What each action of a run found, up to one that is not possible. */
  function Verdicts(keep: bool, s: State, actions: seq<Action>): seq<Option<Verdict>>
    decreases |actions|
  {
    if actions == [] then []
    else
      var next := Step(keep, s, actions[0]);
      [VerdictOf(s, actions[0])] + if next.None? then [] else Verdicts(keep, next.value, actions[1..])
  }

  /** Every event of the run is judged while it is young. */
  ghost predicate YoungRun(s: State, actions: seq<Action>)
    decreases |actions|
  {
    actions == [] ||
    ((Judges(s, actions[0]).Some? ==> Young(Judges(s, actions[0]).value, s.now))
     && var next := Next(s, actions[0]); next.Some? ==> YoungRun(next.value, actions[1..]))
  }

  ghost predicate NamedPosts(created: string -> nat, actions: seq<Action>) {
    forall i | 0 <= i < |actions| && actions[i].Post? :: actions[i].event.createdAt == created(actions[i].event.id)
  }

  /** The two nodes differ in dead floors and in nothing else. */
  ghost predicate Twins(created: string -> nat, s: State, f: State) {
    && s == f.(db := s.db, snap := s.snap)
    && Thinned(s.db, f.db, s.now) && Thinned(s.snap, f.snap, s.now)
    && Named(created, f.db.floors) && Named(created, f.snap.floors)
    && (forall id | id in f.flights :: f.flights[id].event.createdAt == created(f.flights[id].event.id))
  }

  lemma {:induction false} GrantThins(thin: Rows, full: Rows, now: nat, row: Row)
    requires Thinned(thin, full, now)
    ensures Thinned(WriteGrant(thin, row), WriteGrant(full, row), now) && WriteGrant(full, row).floors == full.floors
  {
    hide FloorsPart;
  }

  lemma {:induction false} KeyThins(thin: Rows, full: Rows, now: nat, device: string, key: GroupKey)
    requires Thinned(thin, full, now)
    ensures Thinned(WriteKey(thin, device, key), WriteKey(full, device, key), now)
    ensures WriteKey(full, device, key).floors == full.floors
  {
    hide FloorsPart;
  }

  lemma {:induction false} FloorThins(
      created: string -> nat, thin: Rows, full: Rows, now: nat, group: GroupId, floor: Floor)
    requires Thinned(thin, full, now) && Named(created, full.floors)
    requires floor.expiresAt == floor.createdAt + FLOOR_RETENTION && floor.createdAt == created(floor.eventId)
    ensures Thinned(WriteFloor(thin, group, floor), WriteFloor(full, group, floor), now)
    ensures Named(created, WriteFloor(full, group, floor).floors)
  {}

  lemma {:induction false} CommitThins(created: string -> nat, thin: Rows, full: Rows, now: nat, plan: Plan)
    requires Thinned(thin, full, now) && Named(created, full.floors)
    requires plan.floor.Some? ==>
      var floor := plan.floor.value.1;
      floor.expiresAt == floor.createdAt + FLOOR_RETENTION && floor.createdAt == created(floor.eventId)
    ensures Thinned(Commit(thin, plan), Commit(full, plan), now) && Named(created, Commit(full, plan).floors)
  {
    hide Thinned, Named, WriteGrant, WriteFloor, WriteKey;
    var a, b := thin, full;
    if plan.grant.Some? {
      GrantThins(a, b, now, plan.grant.value);
      a, b := WriteGrant(a, plan.grant.value), WriteGrant(b, plan.grant.value);
    }
    if plan.floor.Some? {
      FloorThins(created, a, b, now, plan.floor.value.0, plan.floor.value.1);
      a, b := WriteFloor(a, plan.floor.value.0, plan.floor.value.1),
        WriteFloor(b, plan.floor.value.0, plan.floor.value.1);
    }
    if plan.key.Some? {
      KeyThins(a, b, now, plan.key.value.0, plan.key.value.1);
    }
  }

  lemma {:induction false} PlannedFloor(cfg: Config, others: set<string>, rows: Rows, e: Event, now: nat)
    ensures var v := Evaluate(cfg, others, rows, e, now);
      v.Accepted? && v.plan.floor.Some? ==>
        var floor := v.plan.floor.value.1;
        floor.createdAt == e.createdAt && floor.expiresAt == floor.createdAt + FLOOR_RETENTION && floor.eventId == e.id
  {}

  lemma {:induction false} CommitTwins(
      created: string -> nat, others: set<string>, s: State, f: State, e: Event, plan: Plan)
    requires Twins(created, s, f) && e.createdAt == created(e.id)
    requires Evaluate(s.cfg, others, s.snap, e, s.now) == Accepted(plan)
    ensures Twins(created, CommitEvent(s, e, plan), CommitEvent(f, e, plan))
  {
    PlannedFloor(s.cfg, others, s.snap, e, s.now);
    CommitThins(created, s.db, f.db, s.now, plan);
    hide Thinned, Named, Commit, Evaluate;
  }

  lemma {:induction false} JudgedAlike(created: string -> nat, s: State, f: State, a: Action)
    requires WellFormed(s.snap) && Twins(created, s, f)
    requires Judges(s, a).Some? ==> Young(Judges(s, a).value, s.now)
    ensures VerdictOf(s, a) == VerdictOf(f, a)
  {
    if Judges(s, a).Some? {
      SameVerdict(s.cfg, created, a.others, s.snap, f.snap, Judges(s, a).value, s.now);
    }
  }

  lemma {:induction false} LeaveTwins(created: string -> nat, s: State, f: State, id: nat)
    requires Twins(created, s, f)
    ensures Twins(created, Leave(s, id), Leave(f, id)) && Twins(created, Finish(s, id), Finish(f, id))
  {
    hide Thinned, Named;
  }

  /** The step that ends in a commit or with the end of the post. */
  lemma {:induction false} LandsAlike(created: string -> nat, s: State, f: State, a: Action)
    requires WellFormed(s.snap) && Twins(created, s, f) && (a.PlanPost? || a.CommitPush?)
    requires Judges(s, a).Some? && Young(Judges(s, a).value, s.now)
    ensures Next(s, a).Some? && Next(f, a).Some?
    ensures Twins(created, Next(s, a).value, Next(f, a).value)
  {
    hide Thinned, Named, Evaluate, CommitEvent, Projected, Friends;
    var e := s.flights[a.id].event;
    JudgedAlike(created, s, f, a);
    SameKeys(s, f, created);
    LeaveTwins(created, s, f, a.id);
    var v := Evaluate(s.cfg, a.others, s.snap, e, s.now);
    if v.Accepted? {
      CommitTwins(created, a.others, s, f, e, v.plan);
      LeaveTwins(created, CommitEvent(s, e, v.plan), CommitEvent(f, e, v.plan), a.id);
    }
  }

  lemma {:induction false} SameKeys(s: State, f: State, created: string -> nat)
    requires Twins(created, s, f)
    ensures s.snap.keys == f.snap.keys && s.db.keys == f.db.keys && s.db.grants == f.db.grants
  {}

  lemma {:induction false} PlansAlike(created: string -> nat, s: State, f: State, a: Action)
    requires WellFormed(s.snap) && Twins(created, s, f) && a.TakePush?
    requires Judges(s, a).Some? && Young(Judges(s, a).value, s.now)
    ensures Next(s, a).Some? && Next(f, a).Some?
    ensures Twins(created, Next(s, a).value, Next(f, a).value)
  {
    hide Thinned, Named, Evaluate, Projected;
    JudgedAlike(created, s, f, a);
    SameKeys(s, f, created);
    LeaveTwins(created, s, f, a.id);
  }

  lemma {:induction false} PruneTwins(created: string -> nat, s: State, f: State, at: nat)
    requires Twins(created, s, f) && at <= s.now
    ensures Twins(created, Next(s, PruneDatabase(at)).value, NextKept(f, PruneDatabase(at)).value)
  {}

  lemma {:induction false} TickTwins(created: string -> nat, s: State, f: State, to: nat)
    requires Twins(created, s, f) && s.now <= to
    ensures Twins(created, s.(now := to), f.(now := to))
  {}

  lemma {:induction false} StepAlike(created: string -> nat, s: State, f: State, a: Action)
    requires WellFormed(s.snap) && Twins(created, s, f)
    requires a.Post? ==> a.event.createdAt == created(a.event.id)
    requires Judges(s, a).Some? ==> Young(Judges(s, a).value, s.now)
    ensures Next(s, a).Some? <==> NextKept(f, a).Some?
    ensures Next(s, a).Some? ==> Twins(created, Next(s, a).value, NextKept(f, a).value)
  {
    hide Thinned, Named, Evaluate, CommitEvent;
    SameKeys(s, f, created);
    match a
    case Tick(to) =>
      if s.now <= to {
        TickTwins(created, s, f, to);
      }
    case PruneDatabase(at) =>
      if at <= s.now {
        PruneTwins(created, s, f, at);
      }
    case PlanPost(_, _, _) =>
      if Judges(s, a).Some? {
        LandsAlike(created, s, f, a);
      }
    case CommitPush(_, _) =>
      if Judges(s, a).Some? {
        LandsAlike(created, s, f, a);
      }
    case TakePush(_, _) =>
      if Judges(s, a).Some? {
        PlansAlike(created, s, f, a);
      }
    case DropPost(id) => LeaveTwins(created, s, f, id);
    case SendPush(id, _, _) => LeaveTwins(created, s, f, id);
    case _ =>
  }

  lemma {:induction false} RunAlike(created: string -> nat, s: State, f: State, actions: seq<Action>)
    requires Inv(s) && Twins(created, s, f) && NamedPosts(created, actions) && YoungRun(s, actions)
    ensures Verdicts(false, s, actions) == Verdicts(true, f, actions)
    decreases |actions|
  {
    hide Next, NextKept, VerdictOf, Twins, Young, RowsInv, PushInv;
    if actions != [] {
      var a := actions[0];
      RowsWellFormed(s.snap, s.now);
      JudgedAlike(created, s, f, a);
      StepAlike(created, s, f, a);
      if Next(s, a).Some? {
        StepKeeps(s, a);
        RunAlike(created, Next(s, a).value, NextKept(f, a).value, actions[1..]);
      }
    }
  }

  /** Over every run in which events are judged while they are young, each
      verdict is the one a node that prunes no floor would reach. */
  lemma {:induction false} DeadFloorsAreInvisible(cfg: Config, created: string -> nat, start: nat, actions: seq<Action>)
    requires NamedPosts(created, actions) && YoungRun(Initial(cfg, start), actions)
    ensures Verdicts(false, Initial(cfg, start), actions) == Verdicts(true, Initial(cfg, start), actions)
  {
    RunAlike(created, Initial(cfg, start), Initial(cfg, start), actions);
  }

  // ---------- how long a post may wait ----------

  /** An event is judged at most `delay` after it was screened. */
  ghost predicate Timely(delay: nat, s: State, a: Action) {
    Judges(s, a).Some? ==> s.now <= s.flights[a.id].screenedAt + delay
  }

  ghost predicate TimelyRun(delay: nat, s: State, actions: seq<Action>)
    decreases |actions|
  {
    actions == [] ||
    (Timely(delay, s, actions[0])
     && var next := Next(s, actions[0]); next.Some? ==> TimelyRun(delay, next.value, actions[1..]))
  }

  lemma {:induction false} TimelyIsYoung(delay: nat, s: State, actions: seq<Action>)
    requires delay <= RESET_WINDOW && Inv(s) && TimelyRun(delay, s, actions)
    ensures YoungRun(s, actions)
    decreases |actions|
  {
    hide Next, RowsInv, Covers, Ready;
    if actions != [] {
      if Judges(s, actions[0]).Some? {
        assert FlightOk(s, s.flights[actions[0].id]);
      }
      if Next(s, actions[0]).Some? {
        StepKeeps(s, actions[0]);
        TimelyIsYoung(delay, Next(s, actions[0]).value, actions[1..]);
      }
    }
  }

  /** No run whose posts are judged within `delay` of their screening shows that floors are pruned. */
  ghost predicate InvisibleFor(delay: nat) {
    forall cfg, created, start, actions |
      NamedPosts(created, actions) && TimelyRun(delay, Initial(cfg, start), actions) ::
      Verdicts(false, Initial(cfg, start), actions) == Verdicts(true, Initial(cfg, start), actions)
  }

  // ---------- a run that shows it ----------

  /** A grant made with the reset of its room, posted just before both expire. */
  function Old(): Event {
    Event("e", "k", 0, MAX_GRANT_SECONDS, Grant("g", "r", "d", "h", {Upload}, Some(1), false))
  }

  function Times(): string -> nat {
    id => if id == "f" then OVER else 0
  }

  function ShowDoes(i: nat): Action {
    match i
    case 0 => Post(1, Old())
    case 1 => PlanPost(1, {}, false)
    case 2 => Post(2, Again())
    case 3 => PlanPost(2, {}, false)
    case 4 => Tick(OVER)
    case 5 => PruneDatabase(OVER)
    case 6 => Post(3, Between(OVER))
    case 7 => PlanPost(3, {}, false)
    case _ => TakePush(1, {})
  }

  function Show(): seq<Action> {
    seq(9, i requires 0 <= i => ShowDoes(i))
  }

  function Left(keep: bool): Rows {
    if keep then ResetRows() else Nothing()
  }

  function Loaded(keep: bool): Rows {
    WriteFloor(Left(keep), ("k", "q"), BetweenFloor(OVER))
  }

  function ShowReset(): State {
    State(Setup(), OVER - 2, ResetRows(), ResetRows(), map[], Free, map[1 := Waiting(Old(), OVER - 2)], [Again()])
  }

  function ShowAt(keep: bool, i: nat): State {
    match i
    case 0 => Initial(Setup(), OVER - 2)
    case 1 => Initial(Setup(), OVER - 2).(flights := map[1 := Screened(Old(), OVER - 2)])
    case 2 => Initial(Setup(), OVER - 2).(flights := map[1 := Waiting(Old(), OVER - 2)])
    case 3 =>
      Initial(Setup(), OVER - 2).(flights := map[1 := Waiting(Old(), OVER - 2), 2 := Screened(Again(), OVER - 2)])
    case 4 => ShowReset()
    case 5 => ShowReset().(now := OVER)
    case 6 => ShowReset().(now := OVER, db := Left(keep))
    case 7 =>
      ShowReset().(now := OVER, db := Left(keep),
                   flights := map[1 := Waiting(Old(), OVER - 2), 3 := Screened(Between(OVER), OVER)])
    case _ => ShowReset().(now := OVER, db := Loaded(keep), snap := Loaded(keep), log := [Again(), Between(OVER)])
  }

  ghost predicate ShowStep(keep: bool, i: nat) {
    Step(keep, ShowAt(keep, i), ShowDoes(i)) == Some(ShowAt(keep, i + 1))
  }

  function OldPlan(): Plan {
    Plan(true,
         Some(Row("k", "g", "r", "d", "h", {Upload}, Some(1), true, 0,
                  MAX_GRANT_SECONDS, MAX_GRANT_SECONDS, None, "e")),
         None, Some(("d", GroupKey("k", "r", Some(1)))))
  }

  lemma {:induction false} OldVerdict(rows: Rows, now: nat)
    requires rows.grants == map[] && rows.keys == map[]
    ensures ("k", "r") !in rows.floors ==> Evaluate(Setup(), {}, rows, Old(), now) == Accepted(OldPlan())
    ensures ("k", "r") in rows.floors && rows.floors[("k", "r")] == AgainFloor() ==>
      Evaluate(Setup(), {}, rows, Old(), now).Refused?
    ensures ChangesFriends(map[], OldPlan())
  {
    assert Friends(map[]) == map[];
    assert "d" in Projected(map[], "d", GroupKey("k", "r", Some(1)));
  }

  lemma {:induction false} ShowPosts(keep: bool)
    ensures ShowStep(keep, 0) && ShowStep(keep, 1) && ShowStep(keep, 2)
  {
    OldVerdict(Nothing(), OVER - 2);
    hide Evaluate, ChangesFriends;
    assert ShowAt(keep, 1).flights[1 := Waiting(Old(), OVER - 2)] == ShowAt(keep, 2).flights;
    assert ShowAt(keep, 2).flights[2 := Screened(Again(), OVER - 2)] == ShowAt(keep, 3).flights;
  }

  lemma {:induction false} ShowResets(keep: bool)
    ensures ShowStep(keep, 3)
  {
    AgainLands(Nothing(), OVER - 2);
    hide Evaluate, Commit;
    assert ShowAt(keep, 3).flights - {2} == ShowAt(keep, 4).flights;
    assert [] + [Again()] == ShowAt(keep, 4).log;
    assert WriteFloor(Nothing(), ("k", "r"), AgainFloor()) == ResetRows();
  }

  lemma {:induction false} ShowAges(keep: bool)
    ensures ShowStep(keep, 4) && ShowStep(keep, 5)
  {
    assert Prune(ResetRows(), OVER) == Nothing();
  }

  lemma {:induction false} ShowReloads(keep: bool)
    ensures ShowStep(keep, 6) && ShowStep(keep, 7)
  {
    BetweenLands(ResetRows(), OVER);
    BetweenLands(Left(keep), OVER);
    hide Evaluate, Commit, Screen;
    assert ShowAt(keep, 6).flights[3 := Screened(Between(OVER), OVER)] == ShowAt(keep, 7).flights;
    assert ShowAt(keep, 7).flights - {3} == ShowAt(keep, 8).flights;
    assert [Again()] + [Between(OVER)] == ShowAt(keep, 8).log;
  }

  lemma {:induction false} ShowSteps(keep: bool, i: nat)
    requires i < 8
    ensures ShowStep(keep, i)
  {
    hide ShowStep;
    ShowPosts(keep);
    ShowResets(keep);
    ShowAges(keep);
    ShowReloads(keep);
  }

  lemma {:induction false} ShowVerdicts()
    ensures VerdictOf(ShowAt(false, 8), ShowDoes(8)) != VerdictOf(ShowAt(true, 8), ShowDoes(8))
  {
    OldVerdict(Loaded(false), OVER);
    OldVerdict(Loaded(true), OVER);
    hide Evaluate;
  }

  lemma {:induction false} ShowTimely(delay: nat, i: nat)
    requires delay >= 2 && i <= 8
    ensures Timely(delay, ShowAt(false, i), ShowDoes(i))
  {
    if !(i == 1 || i == 3 || i == 7 || i == 8) {
      assert Judges(ShowAt(false, i), ShowDoes(i)).None?;
    }
  }

  lemma {:induction false} ShowRuns(keep: bool, i: nat)
    requires i <= 8
    ensures |Verdicts(keep, ShowAt(keep, i), Show()[i..])| > 8 - i
    ensures Verdicts(keep, ShowAt(keep, i), Show()[i..])[8 - i] ==
      VerdictOf(ShowAt(keep, 8), ShowDoes(8))
    decreases 8 - i
  {
    hide Step, ShowAt, ShowDoes, VerdictOf;
    if i < 8 {
      ShowSteps(keep, i);
      ShowRuns(keep, i + 1);
      assert Show()[i..][1..] == Show()[i + 1..];
    }
  }

  lemma {:induction false} ShowIsTimely(delay: nat, i: nat)
    requires delay >= 2 && i <= 9
    ensures TimelyRun(delay, ShowAt(false, i), Show()[i..])
    decreases 9 - i
  {
    hide Next, ShowAt, ShowDoes, Timely;
    if i < 8 {
      ShowSteps(false, i);
      ShowTimely(delay, i);
      ShowIsTimely(delay, i + 1);
      assert Show()[i..][1..] == Show()[i + 1..];
    } else if i == 8 {
      ShowTimely(delay, i);
      assert Show()[8..][1..] == [];
    }
  }

  lemma {:induction false} ShowStarts()
    ensures ShowAt(false, 0) == ShowAt(true, 0) == Initial(Setup(), OVER - 2) && NamedPosts(Times(), Show())
  {}

  /** A grant judged a second late is planned where a pruned reset would have refused it. */
  lemma {:induction false} PrunedFloorShows(delay: nat)
    requires delay >= 2
    ensures NamedPosts(Times(), Show()) && TimelyRun(delay, Initial(Setup(), OVER - 2), Show())
    ensures Verdicts(false, Initial(Setup(), OVER - 2), Show()) != Verdicts(true, Initial(Setup(), OVER - 2), Show())
  {
    hide Verdicts, TimelyRun, NamedPosts, ShowAt, ShowDoes, VerdictOf, Initial;
    ShowStarts();
    assert Show()[0..] == Show();
    ShowVerdicts();
    ShowRuns(false, 0);
    ShowRuns(true, 0);
    ShowIsTimely(delay, 0);
  }

  /** Pruned floors never show exactly when posts wait at most a second. */
  lemma {:induction false} PruningDelayIsExact(delay: nat)
    ensures InvisibleFor(delay) <==> delay <= 1
  {
    hide Verdicts, TimelyRun, Initial;
    if delay <= 1 {
      forall cfg, created, start, actions | NamedPosts(created, actions)
        && TimelyRun(delay, Initial(cfg, start), actions)
        ensures Verdicts(false, Initial(cfg, start), actions) == Verdicts(true, Initial(cfg, start), actions)
      {
        Reachable(cfg, start, []);
        TimelyIsYoung(delay, Initial(cfg, start), actions);
        DeadFloorsAreInvisible(cfg, created, start, actions);
      }
    } else {
      PrunedFloorShows(delay);
    }
  }
}
