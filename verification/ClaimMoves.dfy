/** Claims that change hands, as a transition system: moves of a key's
    claims to its owner and back (`grants/claims.rs`), with their durable
    records (`grants/db.rs`), interleaved with owner writes and deletes and
    with crashes between any two steps. */
module ClaimMoves {

  import opened Arithmetic

  /** The age at which the record of an owner write is pruned. */
  const OWNER_WRITE_WINDOW: nat := 60 * 60

  /** A key or an owner, with the hash of a blob. */
  type Held = (string, string)

  datatype Move = Move(owner: string, independent: bool, adopted: bool) {
    /** Nothing says that the owner wanted the blob: its claim came with the move. */
    predicate OwnerClaimIsOurs() { !independent && !adopted }
  }

  /** Where a key's pass over one of its claims stands. */
  datatype Pass =
    | Recorded(owner: string, hash: string)
    | Claimed(owner: string, hash: string)
    | Refused(owner: string, hash: string)
    | Found(owner: string, hash: string)
    | Checked(owner: string, hash: string)
    | Returned(owner: string, hash: string)
    | Abandoned(owner: string, hash: string)
  {
    predicate Moving() { Recorded? || Claimed? || Refused? }
  }

  /** An owner write that read the clock at `at` and has not reached the core yet. */
  datatype Writing = Writing(id: nat, owner: string, hash: string, at: nat)

  /** The database lock: held between the store's delete of an owner claim and
      the removal of the record it belonged to, by a hand-back or a release. */
  datatype DbLock = Free | Dropping(key: string, hash: string, handsBack: bool)

  /** `keyClaims` and `ownerClaims` are the store's claims; `own` is those of
      the owner claims that the owner made itself; `reading` is the owner writes
      that read the clock and are not recorded yet, `writing` those recorded and
      on their way to the core; `waived` is the holds a key or owner gave up, or
      an operator removed, since their move began. */
  datatype State = State(
    now: nat,
    keyClaims: set<Held>,
    ownerClaims: set<Held>,
    own: set<Held>,
    moves: map<Held, Move>,
    writes: map<Held, nat>,
    reading: set<Writing>,
    writing: set<Writing>,
    passes: map<string, Pass>,
    waived: set<Held>,
    lock: DbLock)

  datatype Action =
    | Tick(to: nat)
    | PruneWrites
    | Crash
    | EndPass(key: string)
    // a transfer of one claim
    | BeginMove(key: string, owner: string, hash: string, startedAt: nat)
    | ClaimForOwner(key: string, existing: bool)
    | DeleteKeyClaim(key: string)
    | ForgetMove(key: string)
    // a restore of one claim
    | BeginRestore(key: string, owner: string, hash: string)
    | CheckOwner(key: string)
    | OfferBack(key: string, existing: bool, full: bool)
    | Settle(key: string)
    // a key's delete of a moved blob
    | Release(key: string, owner: string, hash: string)
    // the second half of either
    | FinishDrop
    | AbortDrop
    // the owner, the keys and the operator
    | ReadClock(id: nat, owner: string, hash: string)
    | RecordWrite(writing: Writing)
    | OwnerWriteLands(writing: Writing)
    | OwnerWriteFails(writing: Writing)
    | OwnerDeletes(owner: string, hash: string)
    | KeyUploads(key: string, hash: string)
    | KeyDeletes(key: string, hash: string)
    | OperatorRemoves(hash: string)

  // ---------- the move table ----------

  predicate OtherMove(s: State, owner: string, hash: string, except: string) {
    exists m | m in s.moves :: m.1 == hash && m.0 != except && s.moves[m].owner == owner
  }

  predicate OtherIndependent(s: State, owner: string, hash: string, except: string) {
    exists m | m in s.moves :: m.1 == hash && m.0 != except && s.moves[m].owner == owner && s.moves[m].independent
  }

  predicate OtherAdopted(s: State, owner: string, hash: string, except: string) {
    exists m | m in s.moves :: m.1 == hash && m.0 != except && s.moves[m].owner == owner && s.moves[m].adopted
  }

  predicate RecentOwnerWrite(s: State, owner: string, hash: string, since: nat) {
    (owner, hash) in s.writes && s.writes[(owner, hash)] >= since
  }

  /** The record a transfer that started at `startedAt` writes for a claim. */
  function NewMove(s: State, key: string, owner: string, hash: string, startedAt: nat): Move {
    Move(owner,
         (owner, hash) in s.ownerClaims
           && (!OtherMove(s, owner, hash, key) || OtherIndependent(s, owner, hash, key)),
         OtherAdopted(s, owner, hash, key)
           || RecentOwnerWrite(s, owner, hash, SatSub(startedAt, OWNER_WRITE_WINDOW)))
  }

  /** `drop_owner_claim_if_ours` deletes the owner claim of the key's record. */
  predicate Drops(s: State, key: string, hash: string) {
    && (key, hash) in s.moves
    && s.moves[(key, hash)].OwnerClaimIsOurs()
    && !OtherMove(s, s.moves[(key, hash)].owner, hash, key)
  }

  /** Its first half: the store's delete. */
  function DropClaim(s: State, key: string, hash: string): State {
    if Drops(s, key, hash) then s.(ownerClaims := s.ownerClaims - {(s.moves[(key, hash)].owner, hash)}) else s
  }

  /** Its second half: the record goes. */
  function ForgetRecord(s: State, key: string, hash: string): State {
    s.(moves := s.moves - {(key, hash)})
  }

  function DropOwnerClaimIfOurs(s: State, key: string, hash: string): State {
    ForgetRecord(DropClaim(s, key, hash), key, hash)
  }

  // ---------- steps ----------

  function EndOf(s: State, key: string): State {
    s.(passes := s.passes - {key})
  }

  /** Everyone who may still count on a claim of `owner` on `hash`. */
  function Relying(s: State, owner: string, hash: string): set<Held> {
    (set m | m in s.moves && m.1 == hash && s.moves[m].owner == owner)
    + (set k | k in s.passes && s.passes[k].hash == hash && s.passes[k].owner == owner :: (k, hash))
  }

  function Holding(s: State, hash: string): set<Held> {
    (set m | m in s.moves && m.1 == hash) + (set c | c in s.keyClaims && c.1 == hash)
    + (set k | k in s.passes && s.passes[k].hash == hash :: (k, hash))
  }

  function Without(claims: set<Held>, hash: string): set<Held> {
    set c | c in claims && c.1 != hash
  }

  function TransferStep(s: State, a: Action): State {
    match a
    case BeginMove(key, owner, hash, startedAt) =>
      // The listing showed a claim of the key, which may have gone since; the
      // record is written before anything else.
      if key in s.passes || startedAt > s.now || s.lock != Free then s
      else
        s.(moves := if (key, hash) in s.moves then s.moves
                    else s.moves[(key, hash) := NewMove(s, key, owner, hash, startedAt)],
           passes := s.passes[key := Recorded(owner, hash)],
           waived := if (key, hash) in s.keyClaims then s.waived - {(key, hash)} else s.waived + {(key, hash)})
    case ClaimForOwner(key, existing) =>
      if key !in s.passes || !s.passes[key].Recorded? then s
      else
        var p := s.passes[key];
        if existing then
          s.(ownerClaims := s.ownerClaims + {(p.owner, p.hash)}, passes := s.passes[key := Claimed(p.owner, p.hash)])
        else s.(passes := s.passes[key := Refused(p.owner, p.hash)])
    case DeleteKeyClaim(key) =>
      if key !in s.passes || !s.passes[key].Claimed? then s
      else EndOf(s.(keyClaims := s.keyClaims - {(key, s.passes[key].hash)}), key)
    case ForgetMove(key) =>
      if key !in s.passes || !(s.passes[key].Refused? || s.passes[key].Abandoned?) || s.lock != Free then s
      else EndOf(ForgetRecord(s, key, s.passes[key].hash), key)
    case _ => s
  }

  /** A hand-back is over when its section is. */
  function Unlock(s: State): State
    requires s.lock != Free
  {
    s.(lock := Free, passes := if s.lock.handsBack then s.passes - {s.lock.key} else s.passes)
  }

  function RestoreStep(s: State, a: Action): State {
    match a
    case BeginRestore(key, owner, hash) =>
      // The page showed a record, which may have gone since.
      if key in s.passes then s
      else s.(passes := s.passes[key := Found(owner, hash)])
    case CheckOwner(key) =>
      if key !in s.passes || !s.passes[key].Found? then s
      else
        var p := s.passes[key];
        s.(passes := s.passes[key :=
          if (p.owner, p.hash) in s.ownerClaims then Checked(p.owner, p.hash) else Abandoned(p.owner, p.hash)])
    case OfferBack(key, existing, full) =>
      if key !in s.passes || !s.passes[key].Checked? then s
      else
        var p := s.passes[key];
        if existing then
          s.(keyClaims := s.keyClaims + {(key, p.hash)}, passes := s.passes[key := Returned(p.owner, p.hash)],
             waived := s.waived - {(key, p.hash)})
        else if full then EndOf(s, key)
        else s.(passes := s.passes[key := Abandoned(p.owner, p.hash)])
    case Settle(key) =>
      if key !in s.passes || !s.passes[key].Returned? || s.lock != Free then s
      else DropClaim(s, key, s.passes[key].hash).(lock := Dropping(key, s.passes[key].hash, true))
    case Release(key, owner, hash) =>
      if (key, hash) !in s.moves || s.moves[(key, hash)].owner != owner || s.lock != Free then s
      else DropClaim(s, key, hash).(lock := Dropping(key, hash, false), waived := s.waived + {(key, hash)})
    case FinishDrop =>
      if s.lock == Free then s else Unlock(ForgetRecord(s, s.lock.key, s.lock.hash))
    case AbortDrop => if s.lock == Free then s else Unlock(s)
    case _ => s
  }

  /** The write is recorded under the clock it read, whatever was recorded before. */
  function MarkOwnerWrite(s: State, w: Writing): State {
    s.(writes := s.writes[(w.owner, w.hash) := w.at],
       moves := map m | m in s.moves ::
         if m.1 == w.hash && s.moves[m].owner == w.owner then s.moves[m].(adopted := true) else s.moves[m],
       reading := s.reading - {w},
       writing := s.writing + {w})
  }

  function OutsideStep(s: State, a: Action): State {
    match a
    case Tick(to) => if to < s.now then s else s.(now := to)
    case PruneWrites =>
      if s.lock != Free then s else
      s.(writes := map w | w in s.writes && s.writes[w] >= SatSub(s.now, OWNER_WRITE_WINDOW) :: s.writes[w])
    case Crash => s.(passes := map[], reading := {}, writing := {}, lock := Free)
    case EndPass(key) => if s.lock.Dropping? && s.lock.key == key then s else EndOf(s, key)
    case ReadClock(id, owner, hash) => s.(reading := s.reading + {Writing(id, owner, hash, s.now)})
    case RecordWrite(w) => if w !in s.reading || s.lock != Free then s else MarkOwnerWrite(s, w)
    case OwnerWriteLands(w) =>
      if w !in s.writing then s
      else s.(ownerClaims := s.ownerClaims + {(w.owner, w.hash)}, own := s.own + {(w.owner, w.hash)},
              writing := s.writing - {w})
    case OwnerWriteFails(w) => s.(writing := s.writing - {w})
    case OwnerDeletes(owner, hash) =>
      s.(ownerClaims := s.ownerClaims - {(owner, hash)}, own := s.own - {(owner, hash)},
         waived := s.waived + Relying(s, owner, hash))
    case KeyUploads(key, hash) =>
      // A key whose claims are being moved has ended: its writes are refused.
      if key in s.passes && s.passes[key].Moving() then s
      else s.(keyClaims := s.keyClaims + {(key, hash)}, waived := s.waived - {(key, hash)})
    case KeyDeletes(key, hash) =>
      s.(keyClaims := s.keyClaims - {(key, hash)}, waived := s.waived + {(key, hash)})
    case OperatorRemoves(hash) =>
      s.(keyClaims := Without(s.keyClaims, hash), ownerClaims := Without(s.ownerClaims, hash),
        own := Without(s.own, hash),
         waived := s.waived + Holding(s, hash))
    case _ => s
  }

  predicate Transferring(a: Action) {
    a.BeginMove? || a.ClaimForOwner? || a.DeleteKeyClaim? || a.ForgetMove?
  }

  predicate Restoring(a: Action) {
    a.BeginRestore? || a.CheckOwner? || a.OfferBack? || a.Settle? || a.Release? || a.FinishDrop? || a.AbortDrop?
  }

  function Next(s: State, a: Action): State {
    if Transferring(a) then TransferStep(s, a)
    else if Restoring(a) then RestoreStep(s, a)
    else OutsideStep(s, a)
  }

  function Run(s: State, actions: seq<Action>): State
    decreases |actions|
  {
    if actions == [] then s else Run(Next(s, actions[0]), actions[1..])
  }

  function Initial(now: nat): State {
    State(now, {}, {}, {}, map[], map[], {}, {}, map[], {}, Free)
  }

  /** Each state of `trace` is the one before it after the next action. */
  ghost predicate Traces(trace: seq<State>, actions: seq<Action>) {
    && |trace| == |actions| + 1
    && forall i | 0 <= i < |actions| :: Next(trace[i], actions[i]) == trace[i + 1]
  }

  lemma {:induction false} TraceRuns(trace: seq<State>, actions: seq<Action>)
    requires Traces(trace, actions)
    ensures Run(trace[0], actions) == trace[|actions|]
    decreases |actions|
  {
    hide Next;
    if actions != [] {
      assert Traces(trace[1..], actions[1..]);
      TraceRuns(trace[1..], actions[1..]);
    }
  }

  // ---------- the owner's own claims ----------

  /** An owner write is recorded at most `lag`, and reaches the core at most
      `delay`, after it read the clock. */
  ghost predicate Prompt(delay: nat, lag: nat, s: State, a: Action) {
    && (a.RecordWrite? ==> s.now <= a.writing.at + lag)
    && (a.OwnerWriteLands? ==> s.now <= a.writing.at + delay)
  }

  ghost predicate PromptRun(delay: nat, lag: nat, s: State, actions: seq<Action>)
    decreases |actions|
  {
    actions == [] || (Prompt(delay, lag, s, actions[0]) && PromptRun(delay, lag, Next(s, actions[0]), actions[1..]))
  }

  /** A recorded write that may still land in time. */
  ghost predicate Alive(delay: nat, s: State, w: Writing) {
    w in s.writing && s.now <= w.at + delay
  }

  /** While an owner's own claim stands, every record for that owner and blob is
      independent or adopted; while one of its writes may still land, every such
      record is adopted and the write remembered is at most `lag` older. */
  ghost predicate OwnInv(delay: nat, lag: nat, s: State) {
    && s.own <= s.ownerClaims
    && (forall m | m in s.moves && (s.moves[m].owner, m.1) in s.own :: !s.moves[m].OwnerClaimIsOurs())
    && (forall w | w in s.writing || w in s.reading :: w.at <= s.now)
    && (forall w | Alive(delay, s, w) :: (w.owner, w.hash) in s.writes && w.at <= s.writes[(w.owner, w.hash)] + lag)
    && (forall w, m | Alive(delay, s, w) && m in s.moves && m.1 == w.hash && s.moves[m].owner == w.owner ::
      s.moves[m].adopted)
  }

  /** The record a transfer writes never treats an owner's own claim as the move's. */
  lemma {:induction false} NewMoveSpares(
      delay: nat, lag: nat, s: State, key: string, owner: string, hash: string, startedAt: nat)
    requires delay + lag <= OWNER_WRITE_WINDOW && OwnInv(delay, lag, s) && startedAt <= s.now
    ensures (owner, hash) in s.own ==> !NewMove(s, key, owner, hash, startedAt).OwnerClaimIsOurs()
    ensures forall w | Alive(delay, s, w) && w.owner == owner && w.hash == hash ::
      NewMove(s, key, owner, hash, startedAt).adopted
  {
    if (owner, hash) in s.own && OtherMove(s, owner, hash, key) {
      var m :| m in s.moves && m.1 == hash && m.0 != key && s.moves[m].owner == owner;
      assert s.moves[m].independent || s.moves[m].adopted;
    }
  }

  /** What `OwnInv` is about; the passes, the lock and the waived holds are not part of it. */
  lemma {:induction false} SameOwn(delay: nat, lag: nat, s: State, t: State)
    requires OwnInv(delay, lag, s) && t.now == s.now && t.own == s.own && t.writes == s.writes
    requires t.reading <= s.reading && t.writing <= s.writing && s.ownerClaims <= t.ownerClaims
    requires t.moves.Keys <= s.moves.Keys && forall m | m in t.moves :: t.moves[m] == s.moves[m]
    ensures OwnInv(delay, lag, t)
  {
    forall w | Alive(delay, t, w) ensures Alive(delay, s, w) {}
  }

  lemma {:induction false} BeginMoveKeepsOwn(
      delay: nat, lag: nat, s: State, key: string, owner: string, hash: string, startedAt: nat)
    requires delay + lag <= OWNER_WRITE_WINDOW && OwnInv(delay, lag, s) && startedAt <= s.now
    ensures OwnInv(delay, lag, s.(moves := s.moves[(key, hash) := NewMove(s, key, owner, hash, startedAt)]))
  {
    NewMoveSpares(delay, lag, s, key, owner, hash, startedAt);
    var t := s.(moves := s.moves[(key, hash) := NewMove(s, key, owner, hash, startedAt)]);
    assert NewMove(s, key, owner, hash, startedAt).owner == owner;
    hide NewMove;
    forall w | Alive(delay, t, w) ensures Alive(delay, s, w) {}
  }

  lemma {:induction false} TransferKeepsOwn(delay: nat, lag: nat, s: State, a: Action)
    requires delay + lag <= OWNER_WRITE_WINDOW && OwnInv(delay, lag, s) && Transferring(a)
    ensures OwnInv(delay, lag, TransferStep(s, a)) && TransferStep(s, a).own == s.own
  {
    hide OwnInv, NewMove;
    var next := TransferStep(s, a);
    if a.BeginMove? && a.startedAt <= s.now && next != s && (a.key, a.hash) !in s.moves {
      BeginMoveKeepsOwn(delay, lag, s, a.key, a.owner, a.hash, a.startedAt);
      SameOwn(delay, lag, s.(moves := s.moves[(a.key, a.hash) := NewMove(s, a.key, a.owner, a.hash, a.startedAt)]),
        next);
    } else {
      SameOwn(delay, lag, s, next);
    }
  }

  lemma {:induction false} DropKeepsOwn(delay: nat, lag: nat, s: State, key: string, hash: string)
    requires OwnInv(delay, lag, s)
    ensures Drops(s, key, hash) ==> (s.moves[(key, hash)].owner, hash) !in s.own
    ensures OwnInv(delay, lag, DropClaim(s, key, hash)) && DropClaim(s, key, hash).own == s.own
  {
    var t := DropClaim(s, key, hash);
    forall w | Alive(delay, t, w) ensures Alive(delay, s, w) {}
  }

  lemma {:induction false} RestoreKeepsOwn(delay: nat, lag: nat, s: State, a: Action)
    requires OwnInv(delay, lag, s) && Restoring(a)
    ensures OwnInv(delay, lag, RestoreStep(s, a)) && RestoreStep(s, a).own == s.own
  {
    hide DropClaim, OwnInv;
    var next := RestoreStep(s, a);
    if next == s {
    } else if a.Settle? {
      var hash := s.passes[a.key].hash;
      DropKeepsOwn(delay, lag, s, a.key, hash);
      SameOwn(delay, lag, DropClaim(s, a.key, hash), next);
    } else if a.Release? {
      DropKeepsOwn(delay, lag, s, a.key, a.hash);
      SameOwn(delay, lag, DropClaim(s, a.key, a.hash), next);
    } else {
      SameOwn(delay, lag, s, next);
    }
  }

  /** A stale clock may replace a newer one, but never one more than the lag older than any write under way. */
  lemma {:induction false} MarkKeepsOwn(delay: nat, lag: nat, s: State, w: Writing)
    requires OwnInv(delay, lag, s) && w in s.reading && s.now <= w.at + lag
    ensures OwnInv(delay, lag, MarkOwnerWrite(s, w))
  {
    var next := MarkOwnerWrite(s, w);
    forall v | Alive(delay, next, v) ensures v == w || Alive(delay, s, v) {}
  }

  lemma {:induction false} TimeKeepsOwn(delay: nat, lag: nat, s: State, a: Action)
    requires delay + lag <= OWNER_WRITE_WINDOW && OwnInv(delay, lag, s) && Prompt(delay, lag, s, a)
    requires a.Tick? || a.PruneWrites? || a.OwnerWriteLands?
    ensures OwnInv(delay, lag, OutsideStep(s, a))
  {
    var next := OutsideStep(s, a);
    forall w | Alive(delay, next, w) ensures Alive(delay, s, w) {}
  }

  lemma {:induction false} OutsideKeepsOwn(delay: nat, lag: nat, s: State, a: Action)
    requires delay + lag <= OWNER_WRITE_WINDOW && OwnInv(delay, lag, s) && Prompt(delay, lag, s, a)
    requires !Transferring(a) && !Restoring(a)
    ensures OwnInv(delay, lag, OutsideStep(s, a))
  {
    if a.RecordWrite? {
      if a.writing in s.reading {
        MarkKeepsOwn(delay, lag, s, a.writing);
      }
      hide OwnInv, MarkOwnerWrite;
    } else if a.Tick? || a.PruneWrites? || a.OwnerWriteLands? {
      TimeKeepsOwn(delay, lag, s, a);
    } else if a.OwnerDeletes? || a.OperatorRemoves? || a.ReadClock? {
      DeletesKeepOwn(delay, lag, s, a);
    } else {
      hide OwnInv;
      SameOwn(delay, lag, s, OutsideStep(s, a));
    }
  }

  lemma {:induction false} DeletesKeepOwn(delay: nat, lag: nat, s: State, a: Action)
    requires OwnInv(delay, lag, s) && (a.OwnerDeletes? || a.OperatorRemoves? || a.ReadClock?)
    ensures OwnInv(delay, lag, OutsideStep(s, a))
  {
    var next := OutsideStep(s, a);
    forall w | Alive(delay, next, w) ensures Alive(delay, s, w) {}
  }

  lemma {:induction false} StepKeepsOwn(delay: nat, lag: nat, s: State, a: Action)
    requires delay + lag <= OWNER_WRITE_WINDOW && OwnInv(delay, lag, s) && Prompt(delay, lag, s, a)
    ensures OwnInv(delay, lag, Next(s, a))
    ensures !a.OwnerDeletes? && !a.OperatorRemoves? ==> s.own <= Next(s, a).own
  {
    if Transferring(a) {
      TransferKeepsOwn(delay, lag, s, a);
      hide TransferStep;
    } else if Restoring(a) {
      RestoreKeepsOwn(delay, lag, s, a);
      hide RestoreStep;
    } else {
      OutsideKeepsOwn(delay, lag, s, a);
    }
    hide OwnInv;
  }

  lemma {:induction false} RunKeepsOwn(delay: nat, lag: nat, s: State, actions: seq<Action>)
    requires delay + lag <= OWNER_WRITE_WINDOW && OwnInv(delay, lag, s) && PromptRun(delay, lag, s, actions)
    ensures OwnInv(delay, lag, Run(s, actions))
    decreases |actions|
  {
    hide Next, OwnInv;
    if actions != [] {
      StepKeepsOwn(delay, lag, s, actions[0]);
      RunKeepsOwn(delay, lag, Next(s, actions[0]), actions[1..]);
    }
  }

  /** In every interleaving, with crashes at any point, while recording lag and
      landing delay together fit the window: a claim the owner made itself
      stands until the owner deletes it or an operator removes the blob. */
  lemma {:induction false} OwnerClaimsStand(delay: nat, lag: nat, now: nat, actions: seq<Action>, a: Action)
    requires delay + lag <= OWNER_WRITE_WINDOW
    requires PromptRun(delay, lag, Initial(now), actions) && Prompt(delay, lag, Run(Initial(now), actions), a)
    ensures var s := Run(Initial(now), actions);
      && s.own <= s.ownerClaims
      && (!a.OwnerDeletes? && !a.OperatorRemoves? ==> s.own <= Next(s, a).own <= Next(s, a).ownerClaims)
  {
    RunKeepsOwn(delay, lag, Initial(now), actions);
    StepKeepsOwn(delay, lag, Run(Initial(now), actions), a);
  }

  /** Dropping a move's owner claim never deletes a claim the owner made. */
  ghost predicate DropsSpareOwners(s: State) {
    forall key, hash :: Drops(s, key, hash) ==> (s.moves[(key, hash)].owner, hash) !in s.own
  }

  /** That is so in every run with this landing delay and recording lag. */
  ghost predicate SafeFor(delay: nat, lag: nat) {
    forall now, actions :: PromptRun(delay, lag, Initial(now), actions) ==> DropsSpareOwners(Run(Initial(now), actions))
  }

  lemma {:induction false} SpareOwners(delay: nat, lag: nat, s: State)
    requires OwnInv(delay, lag, s)
    ensures DropsSpareOwners(s)
  {
    forall key, hash | Drops(s, key, hash) ensures (s.moves[(key, hash)].owner, hash) !in s.own {
      DropKeepsOwn(delay, lag, s, key, hash);
    }
  }

  // ---------- a write that lands too late ----------

  /** The first moment at which a write that read the clock at zero counts as old. */
  const LATE: nat := OWNER_WRITE_WINDOW + 1

  /** Of two uploads of the owner's, the second reads the clock `lag` later, but
      the first records last.  The stored clock is the first one's, so a move
      that starts once it has aged is neither independent nor adopted, and the
      second upload, landing after that, passes for the move's claim. */
  function LateDoes(lag: nat, i: nat): Action {
    match i
    case 0 => ReadClock(1, "o", "h")
    case 1 => Tick(lag)
    case 2 => ReadClock(2, "o", "h")
    case 3 => RecordWrite(Second(lag))
    case 4 => RecordWrite(First())
    case 5 => Tick(LATE)
    case 6 => KeyUploads("k", "h")
    case 7 => BeginMove("k", "o", "h", LATE)
    case 8 => ClaimForOwner("k", true)
    case 9 => DeleteKeyClaim("k")
    case _ => OwnerWriteLands(Second(lag))
  }

  function LateWrite(lag: nat): seq<Action> {
    seq(11, i requires 0 <= i => LateDoes(lag, i))
  }

  function First(): Writing {
    Writing(1, "o", "h", 0)
  }

  function Second(lag: nat): Writing {
    Writing(2, "o", "h", lag)
  }

  // The states on the way.

  function LateRead(lag: nat): State {
    Initial(0).(now := lag, reading := {First(), Second(lag)})
  }

  function LateMarked(lag: nat): State {
    Initial(0).(now := lag, writes := map[("o", "h") := 0], writing := {First(), Second(lag)})
  }

  function LateUploaded(lag: nat): State {
    LateMarked(lag).(now := LATE, keyClaims := {("k", "h")})
  }

  function LateRecorded(lag: nat): State {
    LateUploaded(lag).(moves := map[("k", "h") := Move("o", false, false)], passes := map["k" := Recorded("o", "h")])
  }

  function LateMoved(lag: nat): State {
    LateRecorded(lag).(keyClaims := {}, ownerClaims := {("o", "h")}, passes := map[])
  }

  function LateAt(lag: nat, i: nat): State {
    match i
    case 0 => Initial(0)
    case 1 => Initial(0).(reading := {First()})
    case 2 => Initial(0).(now := lag, reading := {First()})
    case 3 => LateRead(lag)
    case 4 => LateRead(lag).(reading := {First()}, writing := {Second(lag)}, writes := map[("o", "h") := lag])
    case 5 => LateMarked(lag)
    case 6 => LateMarked(lag).(now := LATE)
    case 7 => LateUploaded(lag)
    case 8 => LateRecorded(lag)
    case 9 => LateRecorded(lag).(ownerClaims := {("o", "h")}, passes := map["k" := Claimed("o", "h")])
    case 10 => LateMoved(lag)
    case _ => LateMoved(lag).(own := {("o", "h")}, writing := {First()})
  }

  ghost predicate LateStep(lag: nat, i: nat) {
    Next(LateAt(lag, i), LateDoes(lag, i)) == LateAt(lag, i + 1)
  }

  lemma {:induction false} LateReads(lag: nat)
    ensures LateStep(lag, 0) && LateStep(lag, 1) && LateStep(lag, 2)
  {
  }

  lemma {:induction false} LateMarks(lag: nat)
    ensures LateStep(lag, 3) && LateStep(lag, 4)
  {
    assert map[("o", "h") := lag][("o", "h") := 0] == map[("o", "h") := 0];
  }

  lemma {:induction false} LateMoves(lag: nat)
    requires lag <= LATE
    ensures LateStep(lag, 5) && LateStep(lag, 6) && LateStep(lag, 7)
  {
    assert NewMove(LateUploaded(lag), "k", "o", "h", LATE) == Move("o", false, false);
  }

  lemma {:induction false} LateLands(lag: nat)
    ensures LateStep(lag, 8) && LateStep(lag, 9) && LateStep(lag, 10)
  {
  }

  lemma {:induction false} LateDrops(lag: nat)
    ensures !DropsSpareOwners(LateAt(lag, 11))
  {
    assert Drops(LateAt(lag, 11), "k", "h");
  }

  lemma {:induction false} LateInTime(delay: nat, lag: nat, bound: nat, i: nat)
    requires lag <= bound && lag <= LATE <= lag + delay && i < 11
    ensures Prompt(delay, bound, LateAt(lag, i), LateDoes(lag, i))
  {
  }

  function LateTrace(lag: nat): seq<State> {
    seq(12, i requires 0 <= i => LateAt(lag, i))
  }

  lemma {:induction false} LateSteps(lag: nat, i: nat)
    requires lag <= LATE && i < 11
    ensures LateStep(lag, i)
  {
    LateReads(lag);
    LateMarks(lag);
    LateMoves(lag);
    LateLands(lag);
    hide LateStep;
  }

  lemma {:induction false} TracePrompt(delay: nat, lag: nat, trace: seq<State>, actions: seq<Action>)
    requires Traces(trace, actions) && forall i | 0 <= i < |actions| :: Prompt(delay, lag, trace[i], actions[i])
    ensures PromptRun(delay, lag, trace[0], actions)
    decreases |actions|
  {
    hide Next, Prompt;
    if actions != [] {
      assert Traces(trace[1..], actions[1..]);
      TracePrompt(delay, lag, trace[1..], actions[1..]);
    }
  }

  lemma {:induction false} LateTraces(delay: nat, lag: nat, bound: nat)
    requires lag <= bound && lag <= LATE <= lag + delay
    ensures Traces(LateTrace(lag), LateWrite(lag)) && PromptRun(delay, bound, Initial(0), LateWrite(lag))
  {
    assert LateTrace(lag)[0] == Initial(0);
    hide Next, LateAt, LateDoes, Prompt, PromptRun;
    forall i | 0 <= i < 11 ensures LateStep(lag, i) && Prompt(delay, bound, LateAt(lag, i), LateDoes(lag, i)) {
      LateSteps(lag, i);
      LateInTime(delay, lag, bound, i);
    }
    TracePrompt(delay, bound, LateTrace(lag), LateWrite(lag));
  }

  /** Whatever its delay, a write slower by lag and delay than the window can be dropped. */
  lemma {:induction false} LateWriteIsDropped(delay: nat, lag: nat, bound: nat)
    requires lag <= bound && lag <= LATE <= lag + delay
    ensures PromptRun(delay, bound, Initial(0), LateWrite(lag))
    ensures !DropsSpareOwners(Run(Initial(0), LateWrite(lag)))
  {
    LateDrops(lag);
    LateTraces(delay, lag, bound);
    hide Run, PromptRun, DropsSpareOwners, Traces, LateDoes;
    TraceRuns(LateTrace(lag), LateWrite(lag));
  }

  /** Owner claims are safe exactly when delay and lag together fit the window. */
  lemma {:induction false} WindowIsExact(delay: nat, lag: nat)
    ensures SafeFor(delay, lag) <==> delay + lag <= OWNER_WRITE_WINDOW
  {
    hide Run, PromptRun, DropsSpareOwners;
    if delay + lag <= OWNER_WRITE_WINDOW {
      forall now, actions | PromptRun(delay, lag, Initial(now), actions)
        ensures DropsSpareOwners(Run(Initial(now), actions))
      {
        RunKeepsOwn(delay, lag, Initial(now), actions);
        SpareOwners(delay, lag, Run(Initial(now), actions));
      }
    } else {
      LateWriteIsDropped(delay, Min(lag, LATE), lag);
    }
  }
}
