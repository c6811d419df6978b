/** No move orphans a blob: where a transfer only ever reuses a record that
    names its own owner, a moved blob stays claimed by the key or the owner at
    every step of every pass; and no wider rule keeps it so. */
module ClaimHolds {

  import opened ClaimMoves

  /** A transfer that finds the record of an earlier pass finds it naming its own owner. */
  ghost predicate Steady(s: State, a: Action) {
    a.BeginMove? && (a.key, a.hash) in s.moves ==> s.moves[(a.key, a.hash)].owner == a.owner
  }

  ghost predicate SteadyRun(s: State, actions: seq<Action>)
    decreases |actions|
  {
    actions == [] || (Steady(s, actions[0]) && SteadyRun(Next(s, actions[0]), actions[1..]))
  }

  /** The blob is claimed by the key or by the owner its record names. */
  ghost predicate Protected(s: State, m: Held)
    requires m in s.moves
  {
    m in s.keyClaims || (s.moves[m].owner, m.1) in s.ownerClaims
  }

  /** What each point of a pass has already secured. */
  ghost predicate PassOk(s: State, key: string, p: Pass) {
    var m := (key, p.hash);
    m !in s.waived ==>
      match p
      case Recorded(_, _) => m in s.moves && s.moves[m].owner == p.owner && m in s.keyClaims
      case Refused(_, _) => m in s.keyClaims
      case Claimed(_, _) => m in s.moves && s.moves[m].owner == p.owner && (p.owner, p.hash) in s.ownerClaims
      case Returned(_, _) => m in s.keyClaims
      case _ => true
  }

  ghost predicate MoveOk(s: State, m: Held)
    requires m in s.moves
  {
    m in s.waived || Protected(s, m)
  }

  ghost predicate HoldInv(s: State) {
    && (forall m | m in s.moves :: MoveOk(s, m))
    && (forall k | k in s.passes :: PassOk(s, k, s.passes[k]))
    && LockOk(s)
  }

  /** A hand-back in its section has its claim; a release in its section has
      given up whatever a pass of the key has under way. */
  ghost predicate LockOk(s: State) {
    s.lock.Dropping? ==>
      var k := s.lock.key;
      && (s.lock.handsBack ==> k in s.passes && s.passes[k].Returned? && s.passes[k].hash == s.lock.hash)
      && (k in s.passes && s.passes[k].hash == s.lock.hash && (s.passes[k].Recorded? || s.passes[k].Claimed?) ==>
            (k, s.lock.hash) in s.waived)
  }

  // ---------- each step ----------

  lemma {:induction false} BeginMoveHolds(s: State, a: Action)
    requires HoldInv(s) && a.BeginMove? && Steady(s, a)
    ensures HoldInv(TransferStep(s, a))
  {
    var next := TransferStep(s, a);
    if next != s {
      assert NewMove(s, a.key, a.owner, a.hash, a.startedAt).owner == a.owner;
      hide NewMove;
      forall m | m in next.moves ensures MoveOk(next, m) {
        assert m == (a.key, a.hash) || MoveOk(s, m);
        assert m == (a.key, a.hash) && m in s.moves ==> MoveOk(s, m);
      }
      forall k | k in next.passes ensures PassOk(next, k, next.passes[k]) {
        assert k == a.key || PassOk(s, k, s.passes[k]);
      }
    }
  }

  lemma {:induction false} TransferHolds(s: State, a: Action)
    requires HoldInv(s) && Transferring(a) && !a.BeginMove?
    ensures HoldInv(TransferStep(s, a))
  {
    var next := TransferStep(s, a);
    if next != s {
      var p := s.passes[a.key];
      assert PassOk(s, a.key, p);
      forall m | m in next.moves ensures MoveOk(next, m) {
        assert MoveOk(s, m);
      }
      forall k | k in next.passes ensures PassOk(next, k, next.passes[k]) {
        assert PassOk(s, k, s.passes[k]);
      }
    }
  }

  /** While a key's record remains, another key's hand-back or release never
      removes the owner claim the record names. */
  lemma {:induction false} OthersNeverDrop(s: State, key: string, hash: string, m: Held)
    requires m in s.moves && m != (key, hash) && (s.moves[m].owner, m.1) in s.ownerClaims
    ensures var next := DropClaim(s, key, hash); m in next.moves && (s.moves[m].owner, m.1) in next.ownerClaims
    ensures m in DropOwnerClaimIfOurs(s, key, hash).moves
  {}

  /** The store's delete leaves every other key's moves and passes protected, and
      this key's own where the key has its claim or gave it up. */
  lemma {:induction false} DropHolds(s: State, key: string, hash: string)
    requires HoldInv(s) && ((key, hash) in s.waived || (key, hash) in s.keyClaims)
    ensures var next := DropClaim(s, key, hash);
      && (forall m | m in next.moves :: MoveOk(next, m))
      && (forall k | k in s.passes && (k, s.passes[k].hash) != (key, hash) :: PassOk(next, k, s.passes[k]))
  {
    var next := DropClaim(s, key, hash);
    forall m | m in next.moves ensures MoveOk(next, m) {
      assert MoveOk(s, m);
      if m != (key, hash) && (s.moves[m].owner, m.1) in s.ownerClaims {
        OthersNeverDrop(s, key, hash, m);
      }
    }
    forall k | k in s.passes && (k, s.passes[k].hash) != (key, hash) ensures PassOk(next, k, s.passes[k]) {
      var m := (k, s.passes[k].hash);
      assert PassOk(s, k, s.passes[k]);
      if m in s.moves && (s.moves[m].owner, m.1) in s.ownerClaims {
        OthersNeverDrop(s, key, hash, m);
      }
    }
  }

  lemma {:induction false} SettleHolds(s: State, a: Action)
    requires HoldInv(s) && a.Settle?
    ensures HoldInv(RestoreStep(s, a))
  {
    var next := RestoreStep(s, a);
    if next != s {
      var p := s.passes[a.key];
      assert PassOk(s, a.key, p);
      DropHolds(s, a.key, p.hash);
      SamePasses(DropClaim(s, a.key, p.hash), next);
    }
  }

  /** Taking the lock, ending passes or forgetting records asks for nothing more. */
  lemma {:induction false} SamePasses(s: State, next: State)
    requires next.keyClaims == s.keyClaims && next.ownerClaims == s.ownerClaims && next.waived == s.waived
    requires next.moves.Keys <= s.moves.Keys && forall m | m in next.moves ::
      next.moves[m] == s.moves[m] && MoveOk(s, m)
    requires forall k | k in next.passes ::
      k in s.passes && next.passes[k] == s.passes[k] && PassOk(next, k, s.passes[k])
    requires LockOk(next)
    ensures HoldInv(next)
  {}

  lemma {:induction false} ReleaseHolds(s: State, a: Action)
    requires HoldInv(s) && a.Release?
    ensures HoldInv(RestoreStep(s, a))
  {
    var next := RestoreStep(s, a);
    if next != s {
      var given := s.(waived := s.waived + {(a.key, a.hash)});
      assert HoldInv(given) by {
        forall m | m in s.moves ensures MoveOk(given, m) { assert MoveOk(s, m); }
        forall k | k in s.passes ensures PassOk(given, k, s.passes[k]) { assert PassOk(s, k, s.passes[k]); }
      }
      DropHolds(given, a.key, a.hash);
      assert DropClaim(given, a.key, a.hash) == next.(lock := s.lock);
      SamePasses(DropClaim(given, a.key, a.hash), next);
    }
  }

  /** The section's second half, done or failed: the record goes, or the lock is given back. */
  lemma {:induction false} UnlockHolds(s: State, a: Action)
    requires HoldInv(s) && (a.FinishDrop? || a.AbortDrop?)
    ensures HoldInv(RestoreStep(s, a))
  {
    var next := RestoreStep(s, a);
    if next != s {
      forall k | k in next.passes ensures PassOk(next, k, next.passes[k]) {
        assert PassOk(s, k, s.passes[k]);
      }
      SamePasses(s, next);
    }
  }

  lemma {:induction false} CheckOwnerHolds(s: State, a: Action)
    requires HoldInv(s) && a.CheckOwner?
    ensures HoldInv(RestoreStep(s, a))
  {
    var next := RestoreStep(s, a);
    if next != s {
      assert PassOk(s, a.key, s.passes[a.key]);
      PassMoves(s, next, a.key);
    }
  }

  /** One key's pass moves on and its claim may be added: nobody else is affected. */
  lemma {:induction false} PassMoves(s: State, next: State, key: string)
    requires HoldInv(s) && next.moves == s.moves && next.ownerClaims == s.ownerClaims
    requires s.keyClaims <= next.keyClaims && next.passes.Keys <= s.passes.Keys
    requires forall m | m !in next.waived :: m !in s.waived || (m.0 == key && m in next.keyClaims)
    requires forall k | k in next.passes && k != key :: next.passes[k] == s.passes[k]
    requires (key in next.passes ==> PassOk(next, key, next.passes[key])) && LockOk(next)
    ensures HoldInv(next)
  {
    forall m | m in next.moves ensures MoveOk(next, m) {
      assert MoveOk(s, m);
    }
    forall k | k in next.passes ensures PassOk(next, k, next.passes[k]) {
      assert PassOk(s, k, s.passes[k]);
    }
  }

  lemma {:induction false} OfferBackHolds(s: State, a: Action)
    requires HoldInv(s) && a.OfferBack?
    ensures HoldInv(RestoreStep(s, a))
  {
    var next := RestoreStep(s, a);
    if next != s {
      assert PassOk(s, a.key, s.passes[a.key]);
      PassMoves(s, next, a.key);
    }
  }

  lemma {:induction false} BeginRestoreHolds(s: State, a: Action)
    requires HoldInv(s) && a.BeginRestore?
    ensures HoldInv(RestoreStep(s, a))
  {
    var next := RestoreStep(s, a);
    if next != s {
      forall m | m in next.moves ensures MoveOk(next, m) {
        assert MoveOk(s, m);
      }
      forall k | k in next.passes ensures PassOk(next, k, next.passes[k]) {
        assert k == a.key || PassOk(s, k, s.passes[k]);
      }
    }
  }

  lemma {:induction false} RestoreHolds(s: State, a: Action)
    requires HoldInv(s) && Restoring(a)
    ensures HoldInv(RestoreStep(s, a))
  {
    hide HoldInv;
    match a
    case Settle(_) => SettleHolds(s, a);
    case Release(_, _, _) => ReleaseHolds(s, a);
    case BeginRestore(_, _, _) => BeginRestoreHolds(s, a);
    case CheckOwner(_) => CheckOwnerHolds(s, a);
    case OfferBack(_, _, _) => OfferBackHolds(s, a);
    case _ => UnlockHolds(s, a);
  }

  lemma {:induction false} MarkHolds(s: State, a: Action)
    requires HoldInv(s) && a.RecordWrite?
    ensures HoldInv(OutsideStep(s, a))
  {
    var next := OutsideStep(s, a);
    forall m | m in next.moves ensures MoveOk(next, m) {
      assert MoveOk(s, m);
    }
    forall k | k in next.passes ensures PassOk(next, k, next.passes[k]) {
      assert PassOk(s, k, s.passes[k]);
    }
  }

  /** Whoever counted on a deleted claim has had the hold waived. */
  lemma {:induction false} DeleteHolds(s: State, a: Action)
    requires HoldInv(s) && (a.OwnerDeletes? || a.OperatorRemoves? || a.KeyDeletes?)
    ensures HoldInv(OutsideStep(s, a))
  {
    var next := OutsideStep(s, a);
    forall m | m in next.moves ensures MoveOk(next, m) {
      assert MoveOk(s, m);
    }
    forall k | k in next.passes ensures PassOk(next, k, next.passes[k]) {
      assert PassOk(s, k, s.passes[k]);
    }
  }

  lemma {:induction false} UploadHolds(s: State, a: Action)
    requires HoldInv(s) && a.KeyUploads?
    ensures HoldInv(OutsideStep(s, a))
  {
    var next := OutsideStep(s, a);
    forall m | m in next.moves ensures MoveOk(next, m) {
      assert MoveOk(s, m);
    }
    forall k | k in next.passes ensures PassOk(next, k, next.passes[k]) {
      assert PassOk(s, k, s.passes[k]);
    }
  }

  lemma {:induction false} OutsideHolds(s: State, a: Action)
    requires HoldInv(s) && !Transferring(a) && !Restoring(a)
    ensures HoldInv(OutsideStep(s, a))
  {
    if a.RecordWrite? {
      MarkHolds(s, a);
    } else if a.OwnerDeletes? || a.OperatorRemoves? || a.KeyDeletes? {
      DeleteHolds(s, a);
    } else if a.KeyUploads? {
      UploadHolds(s, a);
    } else {
      var next := OutsideStep(s, a);
      forall m | m in next.moves ensures MoveOk(next, m) {
        assert MoveOk(s, m);
      }
      forall k | k in next.passes ensures PassOk(next, k, next.passes[k]) {
        assert PassOk(s, k, s.passes[k]);
      }
    }
  }

  lemma {:induction false} StepHolds(s: State, a: Action)
    requires HoldInv(s) && Steady(s, a)
    ensures HoldInv(Next(s, a))
  {
    hide TransferStep, RestoreStep, OutsideStep, HoldInv;
    if a.BeginMove? {
      BeginMoveHolds(s, a);
    } else if Transferring(a) {
      TransferHolds(s, a);
    } else if Restoring(a) {
      RestoreHolds(s, a);
    } else {
      OutsideHolds(s, a);
    }
  }

  lemma {:induction false} RunHolds(s: State, actions: seq<Action>)
    requires HoldInv(s) && SteadyRun(s, actions)
    ensures HoldInv(Run(s, actions))
    decreases |actions|
  {
    hide Next, HoldInv;
    if actions != [] {
      StepHolds(s, actions[0]);
      RunHolds(Next(s, actions[0]), actions[1..]);
    }
  }

  // ---------- the theorems ----------

  /** At every point of every run, crashes included, a blob with a recorded move
      is claimed by the key or the owner, unless the key or the owner gave it up
      or an operator removed it. */
  lemma {:induction false} MovedBlobsStayClaimed(now: nat, actions: seq<Action>, m: Held)
    requires SteadyRun(Initial(now), actions)
    ensures var s := Run(Initial(now), actions);
      m in s.moves && m !in s.waived ==> Protected(s, m)
  {
    RunHolds(Initial(now), actions);
    var s := Run(Initial(now), actions);
    if m in s.moves {
      assert MoveOk(s, m);
    }
  }

  /** A step in which `m`'s key or the operator gives the blob up. */
  ghost predicate GivesUp(a: Action, m: Held) {
    match a
    case KeyDeletes(key, hash) => (key, hash) == m
    case OperatorRemoves(hash) => hash == m.1
    case _ => false
  }

  /** No step takes a key's claim away without the owner's standing in its
      place, recorded so that the key can have it back. */
  lemma {:induction false} ClaimsAreHandedOver(now: nat, actions: seq<Action>, a: Action, m: Held)
    requires SteadyRun(Initial(now), actions) && !GivesUp(a, m)
    requires var s := Run(Initial(now), actions); m in s.keyClaims && m !in s.waived
    ensures var next := Next(Run(Initial(now), actions), a);
      m in next.keyClaims || (m in next.moves && (next.moves[m].owner, m.1) in next.ownerClaims)
  {
    var s := Run(Initial(now), actions);
    RunHolds(Initial(now), actions);
    hide Run;
    if a.DeleteKeyClaim? && a.key in s.passes {
      assert PassOk(s, a.key, s.passes[a.key]);
    }
    hide HoldInv, NewMove, Drops;
  }

  // ---------- no wider rule ----------

  /** A rule for reusing a record: the owner it names, and the owner of the transfer that finds it. */
  ghost predicate ReuseRun(allowed: (string, string) -> bool, s: State, actions: seq<Action>)
    decreases |actions|
  {
    actions == [] || (Reuses(allowed, s, actions[0]) && ReuseRun(allowed, Next(s, actions[0]), actions[1..]))
  }

  ghost predicate Reuses(allowed: (string, string) -> bool, s: State, a: Action) {
    a.BeginMove? && (a.key, a.hash) in s.moves ==> allowed(s.moves[(a.key, a.hash)].owner, a.owner)
  }

  /** Under the rule, no run leaves a recorded blob that nobody gave up unclaimed. */
  ghost predicate HoldsUnder(allowed: (string, string) -> bool) {
    forall now, actions, m | ReuseRun(allowed, Initial(now), actions) ::
      var s := Run(Initial(now), actions); m in s.moves && m !in s.waived ==> Protected(s, m)
  }

  /** `k`'s claim moves to `p`, who deletes the blob; `k` uploads it again and its
      claims move to `q`, but the record left behind still names `p`, so `x`'s
      hand-back drops the claim of `q`. */
  function TwoDoes(p: string, q: string, i: nat): Action {
    match i
    case 0 => KeyUploads("x", "h")
    case 1 => BeginMove("x", q, "h", 0)
    case 2 => ClaimForOwner("x", true)
    case 3 => DeleteKeyClaim("x")
    case 4 => KeyUploads("k", "h")
    case 5 => BeginMove("k", p, "h", 0)
    case 6 => ClaimForOwner("k", true)
    case 7 => DeleteKeyClaim("k")
    case 8 => OwnerDeletes(p, "h")
    case 9 => KeyUploads("k", "h")
    case 10 => BeginMove("k", q, "h", 0)
    case 11 => ClaimForOwner("k", true)
    case 12 => DeleteKeyClaim("k")
    case 13 => BeginRestore("x", q, "h")
    case 14 => CheckOwner("x")
    case 15 => OfferBack("x", true, false)
    case 16 => Settle("x")
    case _ => FinishDrop
  }

  function TwoOwners(p: string, q: string): seq<Action> {
    seq(18, i requires 0 <= i => TwoDoes(p, q, i))
  }

  function XMoved(q: string): State {
    Initial(0).(ownerClaims := {(q, "h")}, moves := map[("x", "h") := Move(q, false, false)])
  }

  function LeftBehind(p: string, q: string): State {
    XMoved(q).(keyClaims := {("k", "h")},
               moves := map[("x", "h") := Move(q, false, false), ("k", "h") := Move(p, false, false)])
  }

  function Passing(s: State, key: string, pass: Pass): State {
    s.(passes := map[key := pass])
  }

  function BothMoved(p: string, q: string): State {
    LeftBehind(p, q).(keyClaims := {})
  }

  function Returning(p: string, q: string): State {
    Passing(BothMoved(p, q), "x", Returned(q, "h")).(keyClaims := {("x", "h")})
  }

  function TwoAt(p: string, q: string, i: nat): State {
    match i
    case 0 => Initial(0)
    case 1 => Initial(0).(keyClaims := {("x", "h")})
    case 2 => Passing(Initial(0), "x", Recorded(q, "h")).(keyClaims := {("x", "h")},
      moves := map[("x", "h") := Move(q, false, false)])
    case 3 => Passing(XMoved(q), "x", Claimed(q, "h")).(keyClaims := {("x", "h")})
    case 4 => XMoved(q)
    case 5 => XMoved(q).(keyClaims := {("k", "h")})
    case 6 => Passing(LeftBehind(p, q), "k", Recorded(p, "h"))
    case 7 => Passing(LeftBehind(p, q), "k", Claimed(p, "h")).(ownerClaims := {(q, "h"), (p, "h")})
    case 8 => LeftBehind(p, q).(keyClaims := {}, ownerClaims := {(q, "h"), (p, "h")})
    case 9 => LeftBehind(p, q).(keyClaims := {}, waived := {("k", "h")})
    case 10 => LeftBehind(p, q)
    case 11 => Passing(LeftBehind(p, q), "k", Recorded(q, "h"))
    case 12 => Passing(LeftBehind(p, q), "k", Claimed(q, "h"))
    case 13 => BothMoved(p, q)
    case 14 => Passing(BothMoved(p, q), "x", Found(q, "h"))
    case 15 => Passing(BothMoved(p, q), "x", Checked(q, "h"))
    case 16 => Returning(p, q)
    case 17 => Returning(p, q).(ownerClaims := {}, lock := Dropping("x", "h", true))
    case _ => Initial(0).(keyClaims := {("x", "h")}, moves := map[("k", "h") := Move(p, false, false)])
  }

  ghost predicate TwoStep(p: string, q: string, i: nat) {
    Next(TwoAt(p, q, i), TwoDoes(p, q, i)) == TwoAt(p, q, i + 1)
  }

  lemma {:induction false} XMoves(p: string, q: string)
    ensures TwoStep(p, q, 0) && TwoStep(p, q, 1) && TwoStep(p, q, 2) && TwoStep(p, q, 3)
  {
    assert NewMove(TwoAt(p, q, 1), "x", q, "h", 0) == Move(q, false, false);
  }

  lemma {:induction false} KIsRecorded(p: string, q: string)
    requires p != q
    ensures TwoStep(p, q, 4) && TwoStep(p, q, 5)
  {
    assert NewMove(TwoAt(p, q, 5), "k", p, "h", 0) == Move(p, false, false);
  }

  lemma {:induction false} PTakes(p: string, q: string)
    requires p != q
    ensures TwoStep(p, q, 6) && TwoStep(p, q, 7)
  {
  }

  lemma {:induction false} KReliesOnP(p: string, q: string)
    requires p != q
    ensures Relying(TwoAt(p, q, 8), p, "h") == {("k", "h")}
  {}

  lemma {:induction false} OwnerDeletesIs(s: State, owner: string, hash: string)
    ensures Next(s, OwnerDeletes(owner, hash)) ==
      s.(ownerClaims := s.ownerClaims - {(owner, hash)}, own := s.own - {(owner, hash)},
         waived := s.waived + Relying(s, owner, hash))
  {
    hide Relying;
  }

  lemma {:induction false} PDeletes(p: string, q: string)
    requires p != q
    ensures TwoStep(p, q, 8)
  {
    hide Next, Relying;
    KReliesOnP(p, q);
    OwnerDeletesIs(TwoAt(p, q, 8), p, "h");
    assert {(q, "h"), (p, "h")} - {(p, "h")} == {(q, "h")};
  }

  lemma {:induction false} KUploadsAgain(p: string, q: string)
    ensures TwoStep(p, q, 9)
  {
    assert {("k", "h")} - {("k", "h")} == {};
  }

  lemma {:induction false} KMoves(p: string, q: string)
    ensures TwoStep(p, q, 10) && TwoStep(p, q, 11) && TwoStep(p, q, 12)
  {
  }

  lemma {:induction false} XReturns(p: string, q: string)
    ensures TwoStep(p, q, 13) && TwoStep(p, q, 14)
  {
  }

  lemma {:induction false} XReclaims(p: string, q: string)
    ensures TwoStep(p, q, 15)
  {
  }

  lemma {:induction false} XDrops(p: string, q: string)
    requires p != q
    ensures TwoStep(p, q, 16)
  {
    assert Drops(Returning(p, q), "x", "h");
  }

  lemma {:induction false} XForgets(p: string, q: string)
    ensures TwoStep(p, q, 17)
  {
    assert Returning(p, q).moves - {("x", "h")} == map[("k", "h") := Move(p, false, false)];
  }

  lemma {:induction false} TwoSteps(p: string, q: string, i: nat)
    requires p != q && i < 18
    ensures TwoStep(p, q, i)
  {
    XMoves(p, q);
    KIsRecorded(p, q);
    PTakes(p, q);
    PDeletes(p, q);
    KUploadsAgain(p, q);
    KMoves(p, q);
    XReturns(p, q);
    XReclaims(p, q);
    XDrops(p, q);
    XForgets(p, q);
    hide TwoStep;
  }

  /** The only record the run reuses names `p` for a transfer to `q`. */
  lemma {:induction false} TwoReuse(allowed: (string, string) -> bool, p: string, q: string, i: nat)
    requires allowed(p, q) && i < 18
    ensures Reuses(allowed, TwoAt(p, q, i), TwoDoes(p, q, i))
  {
  }

  lemma {:induction false} TraceReuse(allowed: (string, string) -> bool, trace: seq<State>, actions: seq<Action>)
    requires Traces(trace, actions) && forall i | 0 <= i < |actions| :: Reuses(allowed, trace[i], actions[i])
    ensures ReuseRun(allowed, trace[0], actions)
    decreases |actions|
  {
    hide Next, Reuses;
    if actions != [] {
      assert Traces(trace[1..], actions[1..]);
      TraceReuse(allowed, trace[1..], actions[1..]);
    }
  }

  function TwoTrace(p: string, q: string): seq<State> {
    seq(19, i requires 0 <= i => TwoAt(p, q, i))
  }

  lemma {:induction false} TwoTraces(allowed: (string, string) -> bool, p: string, q: string)
    requires p != q && allowed(p, q)
    ensures Traces(TwoTrace(p, q), TwoOwners(p, q)) && ReuseRun(allowed, Initial(0), TwoOwners(p, q))
  {
    assert TwoTrace(p, q)[0] == Initial(0);
    hide Next, TwoAt, TwoDoes, Reuses, ReuseRun;
    forall i | 0 <= i < 18 ensures TwoStep(p, q, i) && Reuses(allowed, TwoAt(p, q, i), TwoDoes(p, q, i)) {
      TwoSteps(p, q, i);
      TwoReuse(allowed, p, q, i);
    }
    TraceReuse(allowed, TwoTrace(p, q), TwoOwners(p, q));
  }

  /** Whichever two owners a key's record and its transfer name, the hold can be
      lost: the record remains, nobody gave anything up, and nobody but `x`
      claims the blob. */
  lemma {:induction false} TwoOwnersLoseAHold(allowed: (string, string) -> bool, p: string, q: string)
    requires p != q && allowed(p, q)
    ensures ReuseRun(allowed, Initial(0), TwoOwners(p, q))
    ensures var s := Run(Initial(0), TwoOwners(p, q));
      && ("k", "h") in s.moves && ("k", "h") !in s.waived && !Protected(s, ("k", "h"))
      && s.keyClaims == {("x", "h")} && s.ownerClaims == {}
  {
    TwoTraces(allowed, p, q);
    assert TwoTrace(p, q)[18] == Initial(0).(keyClaims := {("x", "h")},
      moves := map[("k", "h") := Move(p, false, false)]);
    hide Run, ReuseRun, Traces, TwoDoes;
    TraceRuns(TwoTrace(p, q), TwoOwners(p, q));
  }

  lemma {:induction false} ReuseIsSteady(allowed: (string, string) -> bool, s: State, actions: seq<Action>)
    requires ReuseRun(allowed, s, actions) && forall p, q | allowed(p, q) :: p == q
    ensures SteadyRun(s, actions)
    decreases |actions|
  {
    hide Next;
    if actions != [] {
      ReuseIsSteady(allowed, Next(s, actions[0]), actions[1..]);
    }
  }

  /** Moved blobs stay claimed exactly under the rules that reuse a record only for the owner it names. */
  lemma {:induction false} ReuseIsExact(allowed: (string, string) -> bool)
    ensures HoldsUnder(allowed) <==> forall p, q | allowed(p, q) :: p == q
  {
    hide Run, ReuseRun, Protected;
    if forall p, q | allowed(p, q) :: p == q {
      forall now, actions, m | ReuseRun(allowed, Initial(now), actions)
        ensures var s := Run(Initial(now), actions); m in s.moves && m !in s.waived ==> Protected(s, m)
      {
        ReuseIsSteady(allowed, Initial(now), actions);
        MovedBlobsStayClaimed(now, actions, m);
      }
    } else {
      var p, q :| allowed(p, q) && p != q;
      TwoOwnersLoseAHold(allowed, p, q);
    }
  }
}
