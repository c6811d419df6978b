/** Each lapse of `GroupUploads`, of a blob of any size, alone takes a group past
    its ceiling; so the ceiling holds exactly under the rules that allow none. */
module GroupUploadRaces {

  import opened Arithmetic
  import opened Sums
  import opened GroupUploads

  /** Under the rule, no interleaving takes what the group claims past the ceiling. */
  ghost predicate CeilingUnder(allowed: (Lapse, Size) -> bool) {
    forall setup: Setup, claims: set<Claim>, actions: seq<Action> |
      FollowsRun(allowed, setup, Start(setup, claims), actions) ::
      Within(setup, claims, Run(setup, Start(setup, claims), actions))
  }

  ghost predicate Within(setup: Setup, claims: set<Claim>, s: State) {
    ClaimedBytes(setup, s) <= Max(setup.ceiling, ClaimedBytes(setup, Start(setup, claims)))
  }

  // ---------- runs given by their states ----------

  ghost predicate Traces(setup: Setup, trace: seq<State>, actions: seq<Action>) {
    && |trace| == |actions| + 1
    && forall i | 0 <= i < |actions| :: Next(setup, trace[i], actions[i]) == trace[i + 1]
  }

  lemma {:induction false} TraceRuns(
      allowed: (Lapse, Size) -> bool, setup: Setup, trace: seq<State>, actions: seq<Action>)
    requires Traces(setup, trace, actions)
    requires forall i | 0 <= i < |actions| :: Follows(allowed, setup, trace[i], actions[i])
    ensures FollowsRun(allowed, setup, trace[0], actions) && Run(setup, trace[0], actions) == trace[|actions|]
    decreases |actions|
  {
    hide Next, Follows;
    if actions != [] {
      assert Traces(setup, trace[1..], actions[1..]);
      TraceRuns(allowed, setup, trace[1..], actions[1..]);
    }
  }

  // ---------- four races ----------

  function RaceSetup(lapse: Lapse, n: Size): Setup {
    Setup(if lapse.EarlyRelease? then n else 1, h => if h == "a" then n else 1)
  }

  /** What is claimed before the race. */
  function RaceClaims(lapse: Lapse): set<Claim> {
    if lapse.EarlyRelease? then {} else {("d", "a")}
  }

  /** `d` has `a`, of `n` bytes, and `e` uploads it too, told that it is held. */
  function Again(n: Size): Upload {
    Admitted("e", "a", n, true, 0)
  }

  /** The upload that takes the room of `a`. */
  function Other(): Upload {
    Admitted("d", "b", 1, false, 1)
  }

  function InStore(u: Upload): Upload
    requires u.Admitted?
  {
    Claimed(u.device, u.hash, u.length, u.held, u.need)
  }

  function Done(u: Upload): Upload
    requires u.Admitted?
  {
    Finished(u.device, u.hash, u.length, u.held, u.need)
  }

  /** `a` is looked up, and a delete finds that nobody claims it. */
  function Opens(n: Size, i: nat): Action {
    match i
    case 0 => Look(0, "e", "a", n)
    case 1 => Reserve(0)
    case 2 => BeginDelete(0, "a")
    case 3 => Unclaim(0, "d")
    case 4 => BeginCheck(0, {"d", "e"})
    case 5 => CheckDevice(0, "d")
    case _ => CheckDevice(0, "e")
  }

  function Opened(n: Size): State {
    State({("d", "a")}, map["a" := n], 0, map[0 := Again(n)], map[])
  }

  function OpensAt(n: Size, i: nat): State {
    match i
    case 0 => State({("d", "a")}, map["a" := n], 0, map[], map[])
    case 1 => State({("d", "a")}, map["a" := n], 0, map[0 := Looked("e", "a", n, true)], map[])
    case 2 => Opened(n)
    case 3 => Opened(n).(deletes := map[0 := Unclaiming("a")])
    case 4 => Opened(n).(claims := {}, deletes := map[0 := Unclaiming("a")])
    case 5 => Opened(n).(claims := {}, deletes := map[0 := Checking("a", {"d", "e"}, false)])
    case 6 => Opened(n).(claims := {}, deletes := map[0 := Checking("a", {"e"}, false)])
    case _ => Opened(n).(claims := {}, deletes := map[0 := Checking("a", {}, false)])
  }

  /** `b` takes the room, and the upload of `a` claims it again. */
  function ClaimRace(n: Size, i: nat): Action {
    match i
    case 7 => EndDelete(0)
    case 8 => Look(1, "d", "b", 1)
    case 9 => Reserve(1)
    case 10 => ClaimBlob(1)
    case 11 => ClaimBlob(0)
    case _ => Opens(n, i)
  }

  function ClaimRaceAt(n: Size, i: nat): State {
    match i
    case 8 => State({}, map[], 0, map[0 := Again(n)], map[])
    case 9 => State({}, map[], 0, map[0 := Again(n), 1 := Looked("d", "b", 1, false)], map[])
    case 10 => State({}, map[], 1, map[0 := Again(n), 1 := Other()], map[])
    case 11 => State({("d", "b")}, map[], 1, map[0 := Again(n), 1 := InStore(Other())], map[])
    case 12 => State({("d", "b"), ("e", "a")}, map[], 1, map[0 := InStore(Again(n)), 1 := InStore(Other())], map[])
    case _ => OpensAt(n, i)
  }

  /** The upload of `a` is done before the delete forgets `a`, and `b` takes the room. */
  function ForgetRace(n: Size, i: nat): Action {
    match i
    case 7 => ClaimBlob(0)
    case 8 => Enter(0)
    case 9 => EndDelete(0)
    case 10 => Look(1, "d", "b", 1)
    case 11 => Reserve(1)
    case 12 => ClaimBlob(1)
    case _ => Opens(n, i)
  }

  function Forgetting(n: Size): State {
    OpensAt(n, 7).(claims := {("e", "a")}, uploads := map[0 := InStore(Again(n))])
  }

  function ForgetRaceAt(n: Size, i: nat): State {
    match i
    case 8 => Forgetting(n)
    case 9 => Forgetting(n).(uploads := map[0 := Done(Again(n))])
    case 10 => State({("e", "a")}, map[], 0, map[0 := Done(Again(n))], map[])
    case 11 => State({("e", "a")}, map[], 0, map[0 := Done(Again(n)), 1 := Looked("d", "b", 1, false)], map[])
    case 12 => State({("e", "a")}, map[], 1, map[0 := Done(Again(n)), 1 := Other()], map[])
    case 13 => State({("d", "b"), ("e", "a")}, map[], 1, map[0 := Done(Again(n)), 1 := InStore(Other())], map[])
    case _ => OpensAt(n, i)
  }

  /** The upload of `a` claims it, a delete takes every claim and forgets `a`,
      `b` takes the room, `a` is entered, and the next upload of it is told that it is held. */
  function EntryRace(n: Size, i: nat): Action {
    match i
    case 0 => Look(0, "e", "a", n)
    case 1 => Reserve(0)
    case 2 => ClaimBlob(0)
    case 3 => BeginDelete(0, "a")
    case 4 => Unclaim(0, "d")
    case 5 => Unclaim(0, "e")
    case 6 => BeginCheck(0, {"d", "e"})
    case 7 => CheckDevice(0, "d")
    case 8 => CheckDevice(0, "e")
    case 9 => EndDelete(0)
    case 10 => Look(1, "d", "b", 1)
    case 11 => Reserve(1)
    case 12 => ClaimBlob(1)
    case 13 => Enter(1)
    case 14 => Enter(0)
    case 15 => Look(2, "e", "a", n)
    case 16 => Reserve(2)
    case _ => ClaimBlob(2)
  }

  function Entering(n: Size): State {
    State({}, map["a" := n], 0, map[0 := InStore(Again(n))], map[])
  }

  function Swapped(n: Size): State {
    State({("d", "b")}, map["b" := 1, "a" := n], 1, map[0 := Done(Again(n)), 1 := Done(Other())], map[])
  }

  function EntryRaceAt(n: Size, i: nat): State {
    match i
    case 0 => OpensAt(n, 0)
    case 1 => OpensAt(n, 1)
    case 2 => OpensAt(n, 2)
    case 3 => Entering(n).(claims := {("d", "a"), ("e", "a")})
    case 4 => Entering(n).(claims := {("d", "a"), ("e", "a")}, deletes := map[0 := Unclaiming("a")])
    case 5 => Entering(n).(claims := {("e", "a")}, deletes := map[0 := Unclaiming("a")])
    case 6 => Entering(n).(deletes := map[0 := Unclaiming("a")])
    case 7 => Entering(n).(deletes := map[0 := Checking("a", {"d", "e"}, false)])
    case 8 => Entering(n).(deletes := map[0 := Checking("a", {"e"}, false)])
    case 9 => Entering(n).(deletes := map[0 := Checking("a", {}, false)])
    case 10 => Entering(n).(held := map[])
    case 11 => Entering(n).(held := map[], uploads := map[0 := InStore(Again(n)), 1 := Looked("d", "b", 1, false)])
    case 12 => Entering(n).(held := map[], reserved := 1, uploads := map[0 := InStore(Again(n)), 1 := Other()])
    case 13 => State({("d", "b")}, map[], 1, map[0 := InStore(Again(n)), 1 := InStore(Other())], map[])
    case 14 => State({("d", "b")}, map["b" := 1], 1, map[0 := InStore(Again(n)), 1 := Done(Other())], map[])
    case 15 => Swapped(n)
    case 16 => Swapped(n).(uploads := map[0 := Done(Again(n)), 1 := Done(Other()), 2 := Looked("e", "a", n, true)])
    case 17 => Swapped(n).(uploads := map[0 := Done(Again(n)), 1 := Done(Other()), 2 := Again(n)])
    case _ =>
      Swapped(n).(claims := {("d", "b"), ("e", "a")},
                  uploads := map[0 := Done(Again(n)), 1 := Done(Other()), 2 := InStore(Again(n))])
  }

  /** The upload of `a` fills the ceiling, and gives its room up before `a` is entered. */
  function ReleaseRace(n: Size, i: nat): Action {
    match i
    case 0 => Look(0, "e", "a", n)
    case 1 => Reserve(0)
    case 2 => ClaimBlob(0)
    case 3 => HangUp(0)
    case 4 => Look(1, "d", "b", 1)
    case 5 => Reserve(1)
    case _ => ClaimBlob(1)
  }

  function First(n: Size): Upload {
    Admitted("e", "a", n, false, n)
  }

  function Released(n: Size): Upload {
    Claimed("e", "a", n, false, 0)
  }

  function ReleaseRaceAt(n: Size, i: nat): State {
    match i
    case 0 => State({}, map[], 0, map[], map[])
    case 1 => State({}, map[], 0, map[0 := Looked("e", "a", n, false)], map[])
    case 2 => State({}, map[], n, map[0 := First(n)], map[])
    case 3 => State({("e", "a")}, map[], n, map[0 := InStore(First(n))], map[])
    case 4 => State({("e", "a")}, map[], 0, map[0 := Released(n)], map[])
    case 5 => State({("e", "a")}, map[], 0, map[0 := Released(n), 1 := Looked("d", "b", 1, false)], map[])
    case 6 => State({("e", "a")}, map[], 1, map[0 := Released(n), 1 := Other()], map[])
    case _ => State({("d", "b"), ("e", "a")}, map[], 1, map[0 := Released(n), 1 := InStore(Other())], map[])
  }

  // ---------- their steps ----------

  function Length(lapse: Lapse): nat {
    match lapse
    case StaleClaim => 12
    case BlindForget => 13
    case StaleEntry => 18
    case EarlyRelease => 7
  }

  function Does(lapse: Lapse, n: Size, i: nat): Action {
    match lapse
    case StaleClaim => ClaimRace(n, i)
    case BlindForget => ForgetRace(n, i)
    case StaleEntry => EntryRace(n, i)
    case EarlyRelease => ReleaseRace(n, i)
  }

  function At(lapse: Lapse, n: Size, i: nat): State {
    match lapse
    case StaleClaim => ClaimRaceAt(n, i)
    case BlindForget => ForgetRaceAt(n, i)
    case StaleEntry => EntryRaceAt(n, i)
    case EarlyRelease => ReleaseRaceAt(n, i)
  }

  /** The step is taken, and if it lapses it is by this lapse, of `a`. */
  ghost predicate Takes(lapse: Lapse, n: Size, s: State, a: Action, next: State) {
    && Next(RaceSetup(lapse, n), s, a) == next
    && forall other | Lapses(RaceSetup(lapse, n), s, a, other) :: other == lapse && Subject(s, a) == "a"
  }

  lemma {:induction false} BlobIsLookedUp(lapse: Lapse, n: Size, i: nat)
    requires i < 4
    ensures Takes(lapse, n, OpensAt(n, i), Opens(n, i), OpensAt(n, i + 1))
  {
    hide Sum;
    assert {("d", "a")} - {("d", "a")} == {};
  }

  lemma {:induction false} NobodyClaims(lapse: Lapse, n: Size, i: nat)
    requires 4 <= i < 7
    ensures Takes(lapse, n, OpensAt(n, i), Opens(n, i), OpensAt(n, i + 1))
  {
    hide Sum;
    assert {"d", "e"} - {"d"} == {"e"} && {"e"} - {"e"} == {};
  }

  /** `b` is admitted where nothing is held or reserved. */
  lemma {:induction false} RoomIsTaken(lapse: Lapse, n: Size, s: State)
    requires s.held == map[] && s.reserved == 0 && 1 in s.uploads && s.uploads[1] == Looked("d", "b", 1, false)
    requires n > 0
    ensures Takes(lapse, n, s, Reserve(1), s.(reserved := 1, uploads := s.uploads[1 := Other()]))
  {
    hide Sum;
    SumEmpty<string>();
  }

  lemma {:induction false} RoomIsFreed(n: Size, i: nat)
    requires 7 <= i < 10 && n > 0
    ensures Takes(StaleClaim, n, ClaimRaceAt(n, i), ClaimRace(n, i), ClaimRaceAt(n, i + 1))
  {
    hide Sum;
    if i == 9 {
      RoomIsTaken(StaleClaim, n, ClaimRaceAt(n, 9));
      assert ClaimRaceAt(n, 9).uploads[1 := Other()] == ClaimRaceAt(n, 10).uploads;
    }
  }

  lemma {:induction false} BothAreClaimed(n: Size, i: nat)
    requires 10 <= i < 12
    ensures Takes(StaleClaim, n, ClaimRaceAt(n, i), ClaimRace(n, i), ClaimRaceAt(n, i + 1))
  {
    hide Sum;
    assert {} + {("d", "b")} == ClaimRaceAt(n, 11).claims;
  }

  lemma {:induction false} BlobIsForgotten(n: Size, i: nat)
    requires 7 <= i < 10
    ensures Takes(BlindForget, n, ForgetRaceAt(n, i), ForgetRace(n, i), ForgetRaceAt(n, i + 1))
  {
    hide Sum;
    assert {} + {("e", "a")} == ForgetRaceAt(n, 8).claims;
  }

  lemma {:induction false} OtherIsClaimed(n: Size, i: nat)
    requires 10 <= i < 13 && n > 0
    ensures Takes(BlindForget, n, ForgetRaceAt(n, i), ForgetRace(n, i), ForgetRaceAt(n, i + 1))
  {
    hide Sum;
    if i == 11 {
      RoomIsTaken(BlindForget, n, ForgetRaceAt(n, 11));
      assert ForgetRaceAt(n, 11).uploads[1 := Other()] == ForgetRaceAt(n, 12).uploads;
    }
  }

  lemma {:induction false} BlobIsUnclaimed(n: Size, i: nat)
    requires i < 6
    ensures Takes(StaleEntry, n, EntryRaceAt(n, i), EntryRace(n, i), EntryRaceAt(n, i + 1))
  {
    hide Sum;
    assert {("d", "a"), ("e", "a")} - {("d", "a")} == {("e", "a")} && {("e", "a")} - {("e", "a")} == {};
  }

  lemma {:induction false} BlobIsChecked(n: Size, i: nat)
    requires 6 <= i < 10
    ensures Takes(StaleEntry, n, EntryRaceAt(n, i), EntryRace(n, i), EntryRaceAt(n, i + 1))
  {
    hide Sum;
    assert {"d", "e"} - {"d"} == {"e"} && {"e"} - {"e"} == {};
  }

  lemma {:induction false} OtherIsAdmitted(n: Size, i: nat)
    requires 10 <= i < 13 && n > 0
    ensures Takes(StaleEntry, n, EntryRaceAt(n, i), EntryRace(n, i), EntryRaceAt(n, i + 1))
  {
    hide Sum;
    if i == 11 {
      RoomIsTaken(StaleEntry, n, EntryRaceAt(n, 11));
      assert EntryRaceAt(n, 11).uploads[1 := Other()] == EntryRaceAt(n, 12).uploads;
    }
    assert {} + {("d", "b")} == EntryRaceAt(n, 13).claims;
  }

  lemma {:induction false} BothAreEntered(n: Size, i: nat)
    requires 13 <= i < 15
    ensures Takes(StaleEntry, n, EntryRaceAt(n, i), EntryRace(n, i), EntryRaceAt(n, i + 1))
  {
    hide Sum;
  }

  lemma {:induction false} BlobIsLookedUpAgain(n: Size, i: nat)
    requires 15 <= i < 17
    ensures Takes(StaleEntry, n, EntryRaceAt(n, i), EntryRace(n, i), EntryRaceAt(n, i + 1))
  {
    hide Sum;
  }

  lemma {:induction false} BlobIsClaimedAgain(n: Size, i: nat)
    requires i == 17
    ensures Takes(StaleEntry, n, EntryRaceAt(n, i), EntryRace(n, i), EntryRaceAt(n, i + 1))
  {
    hide Sum;
  }

  lemma {:induction false} RoomIsGivenUp(n: Size, i: nat)
    requires i < 4
    ensures Takes(EarlyRelease, n, ReleaseRaceAt(n, i), ReleaseRace(n, i), ReleaseRaceAt(n, i + 1))
  {
    hide Sum;
    SumEmpty<string>();
    assert {} + {("e", "a")} == ReleaseRaceAt(n, 3).claims;
  }

  lemma {:induction false} RoomIsTakenAgain(n: Size, i: nat)
    requires 4 <= i < 7 && n > 0
    ensures Takes(EarlyRelease, n, ReleaseRaceAt(n, i), ReleaseRace(n, i), ReleaseRaceAt(n, i + 1))
  {
    hide Sum;
    if i == 5 {
      RoomIsTaken(EarlyRelease, n, ReleaseRaceAt(n, 5));
      assert ReleaseRaceAt(n, 5).uploads[1 := Other()] == ReleaseRaceAt(n, 6).uploads;
    }
  }

  lemma {:induction false} RaceSteps(lapse: Lapse, n: Size, i: nat)
    requires i < Length(lapse) && n > 0
    ensures Takes(lapse, n, At(lapse, n, i), Does(lapse, n, i), At(lapse, n, i + 1))
  {
    hide Takes;
    if lapse == EarlyRelease {
      if i < 4 {
        RoomIsGivenUp(n, i);
      } else {
        RoomIsTakenAgain(n, i);
      }
    } else if lapse == StaleEntry {
      if i < 6 {
        BlobIsUnclaimed(n, i);
      } else if i < 10 {
        BlobIsChecked(n, i);
      } else if i < 13 {
        OtherIsAdmitted(n, i);
      } else if i < 15 {
        BothAreEntered(n, i);
      } else if i < 17 {
        BlobIsLookedUpAgain(n, i);
      } else {
        BlobIsClaimedAgain(n, i);
      }
    } else if i < 4 {
      BlobIsLookedUp(lapse, n, i);
    } else if i < 7 {
      NobodyClaims(lapse, n, i);
    } else if lapse == StaleClaim {
      if i < 10 {
        RoomIsFreed(n, i);
      } else {
        BothAreClaimed(n, i);
      }
    } else if i < 10 {
      BlobIsForgotten(n, i);
    } else {
      OtherIsClaimed(n, i);
    }
  }

  // ---------- what they come to ----------

  function Race(lapse: Lapse, n: Size): seq<Action> {
    seq(Length(lapse), i requires 0 <= i => Does(lapse, n, i))
  }

  function RaceTrace(lapse: Lapse, n: Size): seq<State> {
    seq(Length(lapse) + 1, i requires 0 <= i => At(lapse, n, i))
  }

  lemma {:induction false} RaceTraces(allowed: (Lapse, Size) -> bool, lapse: Lapse, n: Size)
    requires allowed(lapse, n) && n > 0
    ensures Traces(RaceSetup(lapse, n), RaceTrace(lapse, n), Race(lapse, n))
    ensures forall i | 0 <= i < Length(lapse) ::
      Follows(allowed, RaceSetup(lapse, n), RaceTrace(lapse, n)[i], Race(lapse, n)[i])
  {
    hide Next, Lapses, Subject, At, Does;
    forall i | 0 <= i < Length(lapse)
      ensures Next(RaceSetup(lapse, n), RaceTrace(lapse, n)[i], Race(lapse, n)[i]) == RaceTrace(lapse, n)[i + 1]
      ensures Follows(allowed, RaceSetup(lapse, n), RaceTrace(lapse, n)[i], Race(lapse, n)[i])
    {
      RaceSteps(lapse, n, i);
    }
  }

  lemma {:induction false} RaceEnds(lapse: Lapse, n: Size)
    ensures At(lapse, n, 0) == Start(RaceSetup(lapse, n), RaceClaims(lapse))
    ensures At(lapse, n, Length(lapse)).claims == {("d", "b"), ("e", "a")}
  {
    assert Blobs({("d", "a")}) == {"a"} && Blobs({}) == {};
  }

  lemma {:induction false} RaceBlobs()
    ensures Blobs({}) == {} && Blobs({("d", "a")}) == {"a"} && Blobs({("d", "b"), ("e", "a")}) == {"a", "b"}
  {
    var both := {("d", "b"), ("e", "a")};
    assert ("d", "b") in both && ("e", "a") in both && "a" in Blobs(both) && "b" in Blobs(both);
  }

  lemma {:induction false} RaceWeighs(lapse: Lapse, n: Size)
    ensures Sum(Sizes(RaceSetup(lapse, n), Blobs(RaceClaims(lapse)))) <= n
    ensures Sum(Sizes(RaceSetup(lapse, n), Blobs({("d", "b"), ("e", "a")}))) == n + 1
  {
    hide Sum, Blobs;
    RaceBlobs();
    var one, both := Sizes(RaceSetup(lapse, n), {"a"}), Sizes(RaceSetup(lapse, n), {"a", "b"});
    SumEmpty<string>();
    SumWithout(one, "a");
    assert one - {"a"} == map[] == Sizes(RaceSetup(lapse, n), {});
    SumWithout(both, "b");
    assert both - {"b"} == one;
  }

  /** A lapse of any kind, of a blob of any positive size, can take a group past its ceiling. */
  lemma {:induction false} LapsePassesCeiling(allowed: (Lapse, Size) -> bool, lapse: Lapse, n: Size)
    requires allowed(lapse, n) && n > 0
    ensures var setup, claims := RaceSetup(lapse, n), RaceClaims(lapse);
      && FollowsRun(allowed, setup, Start(setup, claims), Race(lapse, n))
      && !Within(setup, claims, Run(setup, Start(setup, claims), Race(lapse, n)))
  {
    hide Sum, Run, FollowsRun, Traces, Follows, At, Does, Blobs, Sizes;
    RaceTraces(allowed, lapse, n);
    RaceEnds(lapse, n);
    RaceWeighs(lapse, n);
    TraceRuns(allowed, RaceSetup(lapse, n), RaceTrace(lapse, n), Race(lapse, n));
  }

  /** What a group claims stays within its ceiling exactly under the rules that
      allow no lapse but of an empty blob. */
  lemma {:induction false} LapseRuleIsExact(allowed: (Lapse, Size) -> bool)
    ensures CeilingUnder(allowed) <==> forall lapse, n | allowed(lapse, n) :: n == 0
  {
    hide Sum, Run, FollowsRun, ClaimedBytes, Start;
    if Strict(allowed) {
      forall setup: Setup, claims: set<Claim>, actions: seq<Action> |
        FollowsRun(allowed, setup, Start(setup, claims), actions)
        ensures Within(setup, claims, Run(setup, Start(setup, claims), actions))
      {
        CeilingHolds(allowed, setup, claims, actions);
      }
    } else {
      var lapse, n :| allowed(lapse, n) && n != 0;
      LapsePassesCeiling(allowed, lapse, n);
    }
  }
}
