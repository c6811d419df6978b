/** The rows a group node stores (`grants/group_db.rs`) and the rules by which a
    keeper-signed event changes them (`grants/group.rs`, `grants/group_event.rs`). */
module GroupGrants {

  import opened Arithmetic
  import opened Wrappers

  const MAX_GRANT_SECONDS: nat := 90 * 24 * 60 * 60
  const FUTURE_SKEW: nat := 30
  const SELF_DELETE_GRACE: nat := 7 * 24 * 60 * 60
  const FLOOR_RETENTION: nat := MAX_GRANT_SECONDS

  type GrantId = (string, string)
  type GroupId = (string, string)

  datatype Scope = Upload | Get | Delete | Purge | Turn | RelayRead | RelayWrite

  datatype Body =
    | Grant(grantId: string, room: string, device: string, server: string,
            scopes: set<Scope>, bytes: Option<nat>, revoked: bool)
    | Reset(room: string, server: string)

  datatype Event = Event(id: string, keeper: string, createdAt: nat, expiration: nat, body: Body) {
    function Group(): GroupId { (keeper, body.room) }
    function GrantKey(): GrantId requires body.Grant? { (keeper, body.grantId) }
  }

  datatype Row = Row(keeper: string, grantId: string, room: string, device: string, server: string,
                     scopes: set<Scope>, bytes: Option<nat>, active: bool, createdAt: nat, expiration: nat,
                     retainUntil: nat, revokedAt: Option<nat>, eventId: string) {
    function Group(): GroupId { (keeper, room) }
  }

  datatype Floor = Floor(createdAt: nat, expiresAt: nat, eventId: string)

  datatype GroupKey = GroupKey(keeper: string, room: string, byteLimit: Option<nat>) {
    function Group(): GroupId { (keeper, room) }
  }

  datatype Rows = Rows(grants: map<GrantId, Row>, floors: map<GroupId, Floor>, keys: map<string, GroupKey>)

  /** What the owner of the node configured: enrolled keepers with the rooms
      expected of them (none means any), and the node's host names. */
  datatype Config = Config(enrolments: map<string, set<string>>, hosts: set<string>)

  // ---------- queries ----------

  predicate Covered(rows: Rows, row: Row) {
    row.Group() in rows.floors && row.createdAt <= rows.floors[row.Group()].createdAt
  }

  /** Neither revoked nor expired nor reset. */
  predicate IsLive(rows: Rows, row: Row, now: nat) {
    row.active && row.expiration > now && !Covered(rows, row)
  }

  predicate IsActive(cfg: Config, rows: Rows, row: Row, now: nat) {
    IsLive(rows, row, now) && row.keeper in cfg.enrolments
  }

  // ---------- events ----------

  /** What `parse` guarantees of an event it accepts. */
  predicate Parsed(e: Event) {
    && e.createdAt < e.expiration <= e.createdAt + MAX_GRANT_SECONDS
    && (e.body.Grant? ==> (Upload in e.body.scopes <==> e.body.bytes.Some?) && e.body.device != e.keeper)
  }

  datatype Refusal =
    | Keeper | Server | Future | Expired
    | KeyConflict | FloorRefused | ScopeChanged | Stale | RevokedAlready | ScopeTaken

  /** Rules 5 to 7. */
  function Screen(cfg: Config, e: Event, now: nat): Option<Refusal> {
    if e.keeper !in cfg.enrolments || !(cfg.enrolments[e.keeper] == {} || e.body.room in cfg.enrolments[e.keeper])
    then Some(Keeper)
    else if e.body.server !in cfg.hosts then Some(Server)
    else if e.createdAt > now + FUTURE_SKEW then Some(Future)
    else if e.expiration <= now then Some(Expired)
    else None
  }

  datatype Plan = Plan(created: bool, grant: Option<Row>, floor: Option<(GroupId, Floor)>,
    key: Option<(string, GroupKey)>) {
    predicate Changes() { grant.Some? || floor.Some? }
  }

  datatype Verdict = Refused(reason: Refusal) | Accepted(plan: Plan)

  const UNCHANGED: Plan := Plan(false, None, None, None)

  predicate Conflict(cfg: Config, others: set<string>, rows: Rows, group: GroupId, device: string) {
    || device in others
    || device in cfg.enrolments
    || (device in rows.keys && rows.keys[device].Group() != group)
    || exists id | id in rows.grants :: rows.grants[id].device == device && rows.grants[id].Group() != group
  }

  /** Rule 11: another grant of the device is active in the group. */
  predicate Taken(cfg: Config, rows: Rows, e: Event, now: nat)
    requires e.body.Grant?
  {
    exists id | id in rows.grants ::
      && rows.grants[id].device == e.body.device
      && rows.grants[id].grantId != e.body.grantId
      && rows.grants[id].Group() == e.Group()
      && IsActive(cfg, rows, rows.grants[id], now)
  }

  function KeyLimit(rows: Rows, device: string): Option<nat> {
    if device in rows.keys then rows.keys[device].byteLimit else None
  }

  function NewKey(rows: Rows, e: Event): GroupKey
    requires e.body.Grant?
  {
    GroupKey(e.keeper, e.body.room,
             if e.body.bytes.Some? then e.body.bytes else KeyLimit(rows, e.body.device))
  }

  function NewRow(rows: Rows, e: Event): Row
    requires e.body.Grant?
  {
    var existing := e.GrantKey() in rows.grants;
    Row(e.keeper, e.body.grantId, e.body.room, e.body.device, e.body.server, e.body.scopes, e.body.bytes,
        !e.body.revoked, e.createdAt, e.expiration,
        if existing then Max(rows.grants[e.GrantKey()].retainUntil, e.expiration) else e.expiration,
        if !e.body.revoked then None
        else if existing && rows.grants[e.GrantKey()].revokedAt.Some? then rows.grants[e.GrantKey()].revokedAt
        else Some(e.createdAt),
        e.id)
  }

  function EvaluateReset(rows: Rows, e: Event): Verdict
    requires e.body.Reset?
  {
    if e.Group() in rows.floors && rows.floors[e.Group()].eventId == e.id then
      Accepted(UNCHANGED)
    else if e.Group() in rows.floors && e.createdAt <= rows.floors[e.Group()].createdAt then
      Refused(Stale)
    else
      Accepted(Plan(true, None, Some((e.Group(), Floor(e.createdAt, e.createdAt + FLOOR_RETENTION, e.id))), None))
  }

  function EvaluateGrant(cfg: Config, others: set<string>, rows: Rows, e: Event, now: nat): Verdict
    requires e.body.Grant?
  {
    var id := e.GrantKey();
    if Conflict(cfg, others, rows, e.Group(), e.body.device) then
      Refused(KeyConflict)
    else if e.Group() in rows.floors && e.createdAt <= rows.floors[e.Group()].createdAt then
      Refused(FloorRefused)
    else if id in rows.grants && rows.grants[id].eventId == e.id then
      Accepted(UNCHANGED)
    else if id in rows.grants
         && (rows.grants[id].room, rows.grants[id].device, rows.grants[id].server)
            != (e.body.room, e.body.device, e.body.server) then
      Refused(ScopeChanged)
    else if id in rows.grants && e.createdAt <= rows.grants[id].createdAt then
      Refused(Stale)
    else if id in rows.grants && !rows.grants[id].active && !e.body.revoked then
      Refused(RevokedAlready)
    else if !e.body.revoked && Taken(cfg, rows, e, now) then
      Refused(ScopeTaken)
    else
      var key := NewKey(rows, e);
      var known := e.body.device in rows.keys && rows.keys[e.body.device] == key;
      Accepted(Plan(true, Some(NewRow(rows, e)), None,
                    if e.body.revoked || known then None else Some((e.body.device, key))))
  }

  /** Rules 8 to 11: what the event would write against these rows. */
  function Evaluate(cfg: Config, others: set<string>, rows: Rows, e: Event, now: nat): Verdict {
    if e.body.Reset? then EvaluateReset(rows, e) else EvaluateGrant(cfg, others, rows, e, now)
  }

  // ---------- writes ----------

  /** An update of an existing row keeps its keeper, id, room, device and server. */
  function WriteGrant(rows: Rows, row: Row): Rows {
    var id := (row.keeper, row.grantId);
    rows.(grants := rows.grants[id :=
      if id in rows.grants then
        row.(room := rows.grants[id].room, device := rows.grants[id].device, server := rows.grants[id].server)
      else row])
  }

  /** An update of an existing key keeps its group. */
  function WriteKey(rows: Rows, device: string, key: GroupKey): Rows {
    rows.(keys := rows.keys[device :=
      if device in rows.keys then rows.keys[device].(byteLimit := key.byteLimit) else key])
  }

  function WriteFloor(rows: Rows, group: GroupId, floor: Floor): Rows {
    rows.(floors := rows.floors[group := floor])
  }

  function Commit(rows: Rows, plan: Plan): Rows {
    var r1 := if plan.grant.Some? then WriteGrant(rows, plan.grant.value) else rows;
    var r2 := if plan.floor.Some? then WriteFloor(r1, plan.floor.value.0, plan.floor.value.1) else r1;
    if plan.key.Some? then WriteKey(r2, plan.key.value.0, plan.key.value.1) else r2
  }

  function Prune(rows: Rows, now: nat): Rows {
    Rows(map id | id in rows.grants && rows.grants[id].retainUntil >= SatSub(now, SELF_DELETE_GRACE) :: rows.grants[id],
         map g | g in rows.floors && rows.floors[g].expiresAt >= now :: rows.floors[g],
         rows.keys)
  }

  // ---------- the invariant of the stored rows ----------

  /** Each row comes from one parsed event for its id; each floor from one reset. */
  ghost predicate WellFormed(rows: Rows) {
    && (forall id | id in rows.grants ::
          var row := rows.grants[id];
          && id == (row.keeper, row.grantId)
          && row.createdAt < row.expiration <= row.createdAt + MAX_GRANT_SECONDS
          && row.expiration <= row.retainUntil
          && (Upload in row.scopes <==> row.bytes.Some?))
    && (forall g | g in rows.floors :: rows.floors[g].expiresAt == rows.floors[g].createdAt + FLOOR_RETENTION)
  }

  /** All rows of a device, and its key entry, name one group; an active row has a key entry. */
  ghost predicate OneGroup(rows: Rows) {
    && (forall i, j | i in rows.grants && j in rows.grants && rows.grants[i].device == rows.grants[j].device ::
          rows.grants[i].Group() == rows.grants[j].Group())
    && (forall i | i in rows.grants && rows.grants[i].device in rows.keys ::
          rows.keys[rows.grants[i].device].Group() == rows.grants[i].Group())
    && (forall i | i in rows.grants && rows.grants[i].active :: rows.grants[i].device in rows.keys)
  }

  /** At most one grant of a device is live, whoever is enrolled. */
  ghost predicate OneLive(rows: Rows, now: nat) {
    forall i, j | i in rows.grants && j in rows.grants && rows.grants[i].device == rows.grants[j].device
      && IsLive(rows, rows.grants[i], now) && IsLive(rows, rows.grants[j], now) :: i == j
  }

  /** The ceiling in a device's key entry is that of its live upload grant. */
  ghost predicate CeilingAgrees(rows: Rows, now: nat) {
    forall i | i in rows.grants && IsLive(rows, rows.grants[i], now) && Upload in rows.grants[i].scopes ::
      rows.grants[i].device in rows.keys && rows.keys[rows.grants[i].device].byteLimit == rows.grants[i].bytes
  }

  ghost predicate RowsInv(rows: Rows, now: nat) {
    WellFormed(rows) && OneGroup(rows) && OneLive(rows, now) && CeilingAgrees(rows, now)
  }

  // ---------- what keeps the invariant ----------

  /** `now` only moves forward, and activity is only lost by waiting. */
  lemma {:induction false} WaitingKeeps(rows: Rows, now: nat, later: nat)
    requires RowsInv(rows, now) && now <= later
    ensures RowsInv(rows, later)
  {
    assert forall i | i in rows.grants && IsLive(rows, rows.grants[i], later) ::
      IsLive(rows, rows.grants[i], now);
  }

  /** `part` is `whole` after pruning some of what is dead at `now`. */
  ghost predicate PrunedFrom(part: Rows, whole: Rows, now: nat) {
    && part.keys == whole.keys
    && part.grants.Keys <= whole.grants.Keys && part.floors.Keys <= whole.floors.Keys
    && (forall id | id in part.grants :: part.grants[id] == whole.grants[id])
    && (forall g | g in part.floors :: part.floors[g] == whole.floors[g])
    && (forall id | id in whole.grants && id !in part.grants ::
          whole.grants[id].retainUntil < SatSub(now, SELF_DELETE_GRACE))
    && (forall g | g in whole.floors && g !in part.floors :: whole.floors[g].expiresAt < now)
  }

  /** A row that a dead floor covers has itself expired. */
  lemma {:induction false} DeadFloorCoversExpired(rows: Rows, row: Row, now: nat)
    requires row.Group() in rows.floors && Covered(rows, row)
    requires rows.floors[row.Group()].expiresAt == rows.floors[row.Group()].createdAt + FLOOR_RETENTION < now
    requires row.expiration <= row.createdAt + MAX_GRANT_SECONDS
    ensures row.expiration < now
  {}

  lemma {:induction false} LiveInPart(part: Rows, whole: Rows, now: nat, id: GrantId)
    requires WellFormed(whole) && PrunedFrom(part, whole, now) && id in part.grants
    ensures IsLive(part, part.grants[id], now) <==> IsLive(whole, whole.grants[id], now)
  {
    var row := whole.grants[id];
    if Covered(whole, row) && row.Group() !in part.floors {
      DeadFloorCoversExpired(whole, row, now);
    }
  }

  lemma {:induction false} PruningKeeps(part: Rows, whole: Rows, now: nat)
    requires RowsInv(whole, now) && PrunedFrom(part, whole, now)
    ensures RowsInv(part, now)
  {
    forall id | id in part.grants
      ensures IsLive(part, part.grants[id], now) <==> IsLive(whole, whole.grants[id], now)
    {
      LiveInPart(part, whole, now, id);
    }
  }

  /** A reset only ends activity. */
  lemma {:induction false} ResetKeeps(rows: Rows, group: GroupId, floor: Floor, now: nat)
    requires RowsInv(rows, now) && floor.expiresAt == floor.createdAt + FLOOR_RETENTION
    requires group in rows.floors ==> rows.floors[group].createdAt <= floor.createdAt
    ensures RowsInv(WriteFloor(rows, group, floor), now)
  {
    var after := WriteFloor(rows, group, floor);
    forall i | i in rows.grants && IsLive(after, rows.grants[i], now)
      ensures IsLive(rows, rows.grants[i], now)
    {}
    hide IsLive;
  }

  /** The state a committed grant leaves. */
  ghost predicate GrantWritten(rows: Rows, after: Rows, e: Event)
    requires e.body.Grant?
  {
    && after.grants == rows.grants[e.GrantKey() := NewRow(rows, e)]
    && after.floors == rows.floors
    && after.keys == (if e.body.revoked then rows.keys else rows.keys[e.body.device := NewKey(rows, e)])
  }

  /** Rule 8 passed: what the node knows of the device is in the event's group. */
  ghost predicate InGroup(rows: Rows, e: Event)
    requires e.body.Grant?
  {
    && (e.body.device in rows.keys ==> rows.keys[e.body.device].Group() == e.Group())
    && (forall i | i in rows.grants && rows.grants[i].device == e.body.device :: rows.grants[i].Group() == e.Group())
  }

  lemma {:induction false} GrantCommitted(cfg: Config, others: set<string>, rows: Rows, e: Event, now: nat, plan: Plan)
    requires e.body.Grant?
    requires EvaluateGrant(cfg, others, rows, e, now) == Accepted(plan) && plan.grant.Some?
    ensures GrantWritten(rows, Commit(rows, plan), e) && InGroup(rows, e)
    ensures e.body.revoked || !Taken(cfg, rows, e, now)
  {
    var d := e.body.device;
    if !e.body.revoked && d in rows.keys && rows.keys[d] == NewKey(rows, e) {
      assert rows.keys == rows.keys[d := NewKey(rows, e)];
    }
  }

  lemma {:induction false} GrantKeepsForm(rows: Rows, after: Rows, e: Event)
    requires WellFormed(rows) && Parsed(e) && e.body.Grant? && GrantWritten(rows, after, e)
    ensures WellFormed(after)
  {}

  /** Where each row and key entry of the device stands after the write. */
  lemma {:induction false} DeviceAfterGrant(rows: Rows, after: Rows, e: Event)
    requires e.body.Grant? && GrantWritten(rows, after, e) && InGroup(rows, e)
    ensures forall i | i in after.grants && after.grants[i].device == e.body.device ::
      after.grants[i].Group() == e.Group()
    ensures forall i | i in after.grants && after.grants[i].device != e.body.device ::
      i in rows.grants && after.grants[i] == rows.grants[i]
    ensures e.body.device in after.keys ==> after.keys[e.body.device].Group() == e.Group()
    ensures !e.body.revoked ==> e.body.device in after.keys
    ensures after.grants[e.GrantKey()].active == !e.body.revoked
    ensures forall d | d != e.body.device :: d in after.keys <==> d in rows.keys
    ensures forall d | d in after.keys && d != e.body.device :: after.keys[d] == rows.keys[d]
  {}

  lemma {:induction false} GrantKeepsGroups(rows: Rows, after: Rows, e: Event)
    requires OneGroup(rows) && e.body.Grant? && GrantWritten(rows, after, e) && InGroup(rows, e)
    ensures OneGroup(after)
  {
    DeviceAfterGrant(rows, after, e);
    hide NewRow, NewKey;
    var device := e.body.device;
    forall i | i in after.grants && after.grants[i].active
      ensures after.grants[i].device in after.keys
    {
      if after.grants[i].device == device && e.body.revoked {
        assert i != e.GrantKey() && after.grants[i] == rows.grants[i];
      }
    }
    hide GrantWritten, InGroup;
  }

  /** Rule 11 passed: the grant just written is the device's only active one. */
  lemma {:induction false} OthersOver(cfg: Config, rows: Rows, after: Rows, e: Event, now: nat, i: GrantId)
    requires WellFormed(rows) && e.body.Grant? && !e.body.revoked && e.keeper in cfg.enrolments
    requires GrantWritten(rows, after, e) && InGroup(rows, e) && !Taken(cfg, rows, e, now)
    requires i in after.grants && i != e.GrantKey() && after.grants[i].device == e.body.device
    ensures !IsLive(after, after.grants[i], now)
  {
    assert rows.grants[i].Group() == e.Group();
    assert !IsActive(cfg, rows, rows.grants[i], now);
  }

  lemma {:induction false} LiveAfterGrant(cfg: Config, rows: Rows, after: Rows, e: Event, now: nat, i: GrantId)
    requires WellFormed(rows) && e.body.Grant? && GrantWritten(rows, after, e) && InGroup(rows, e)
    requires e.keeper in cfg.enrolments && (e.body.revoked || !Taken(cfg, rows, e, now))
    requires i in after.grants && IsLive(after, after.grants[i], now)
    ensures i == e.GrantKey() ==> !e.body.revoked
    ensures i != e.GrantKey() ==>
      && i in rows.grants && after.grants[i] == rows.grants[i] && IsLive(rows, rows.grants[i], now)
      && (e.body.revoked || after.grants[i].device != e.body.device)
  {
    if i != e.GrantKey() && !e.body.revoked && after.grants[i].device == e.body.device {
      OthersOver(cfg, rows, after, e, now, i);
    }
  }

  lemma {:induction false} GrantKeepsLive(cfg: Config, rows: Rows, after: Rows, e: Event, now: nat)
    requires RowsInv(rows, now) && Parsed(e) && e.body.Grant? && e.keeper in cfg.enrolments
    requires GrantWritten(rows, after, e) && InGroup(rows, e) && (e.body.revoked || !Taken(cfg, rows, e, now))
    ensures OneLive(after, now) && CeilingAgrees(after, now)
  {
    hide IsLive;
    var id := e.GrantKey();
    forall i, j | i in after.grants && j in after.grants && after.grants[i].device == after.grants[j].device
      && IsLive(after, after.grants[i], now) && IsLive(after, after.grants[j], now)
      ensures i == j
    {
      LiveAfterGrant(cfg, rows, after, e, now, i);
      LiveAfterGrant(cfg, rows, after, e, now, j);
    }
    forall i | i in after.grants && IsLive(after, after.grants[i], now) && Upload in after.grants[i].scopes
      ensures after.grants[i].device in after.keys
      ensures after.keys[after.grants[i].device].byteLimit == after.grants[i].bytes
    {
      LiveAfterGrant(cfg, rows, after, e, now, i);
    }
  }

  /** Every accepted event keeps the invariant. */
  lemma {:induction false} CommitKeeps(cfg: Config, others: set<string>, rows: Rows, e: Event, now: nat, plan: Plan)
    requires RowsInv(rows, now) && Parsed(e) && e.keeper in cfg.enrolments
    requires Evaluate(cfg, others, rows, e, now) == Accepted(plan)
    ensures RowsInv(Commit(rows, plan), now)
  {
    if e.body.Reset? {
      if plan.floor.Some? {
        ResetKeeps(rows, e.Group(), plan.floor.value.1, now);
      }
    } else if plan.grant.Some? {
      var after := Commit(rows, plan);
      GrantCommitted(cfg, others, rows, e, now, plan);
      hide Commit, EvaluateGrant, GrantWritten;
      GrantKeepsForm(rows, after, e);
      GrantKeepsGroups(rows, after, e);
      GrantKeepsLive(cfg, rows, after, e, now);
    } else {
      assert Commit(rows, plan) == rows by { NoWrite(cfg, others, rows, e, now, plan); }
    }
  }

  lemma {:induction false} NoWrite(cfg: Config, others: set<string>, rows: Rows, e: Event, now: nat, plan: Plan)
    requires Evaluate(cfg, others, rows, e, now) == Accepted(plan) && !plan.Changes()
    ensures plan == UNCHANGED && Commit(rows, plan) == rows
  {}
}
