/** The byte ceiling of one group under concurrent uploads and deletes
    (`grants/group_gate.rs`).  The claims of the group's devices are in the
    store; the holdings are the node's own list of what they claim.  An upload
    claims in the store and then enters the blob in the holdings; a delete takes
    claims away, looks whether any device still claims the blob, and then takes
    it out of the holdings.  No lock spans two of these steps, and a request that
    is given up drops its reservation while a task it started goes on. */
module GroupUploads {

  import opened Arithmetic
  import opened Sums
  import opened GroupCeiling

  /** A device's claim on a blob. */
  type Claim = (string, string)

  /** One upload.  `held` is whether the holdings listed the blob when it was
      looked up; then nothing is reserved for it. */
  datatype Upload =
    | Looked(device: string, hash: string, length: nat, held: bool)
    | Admitted(device: string, hash: string, length: nat, held: bool, need: nat)
    | Claimed(device: string, hash: string, length: nat, held: bool, need: nat)
    | Finished(device: string, hash: string, length: nat, held: bool, need: nat)

  datatype Deletion =
    | Unclaiming(hash: string)
    | Checking(hash: string, todo: set<string>, still: bool)

  datatype State = State(claims: set<Claim>, held: map<string, nat>, reserved: nat,
                         uploads: map<nat, Upload>, deletes: map<nat, Deletion>)

  datatype Action =
    | Look(id: nat, device: string, hash: string, length: nat)
    | Reserve(id: nat)
    | ClaimBlob(id: nat)
    | Enter(id: nat)
    | TakeBack(id: nat)
    | Drop(id: nat)
    | HangUp(id: nat)
    | BeginDelete(del: nat, hash: string)
    | Unclaim(del: nat, device: string)
    | BeginCheck(del: nat, devices: set<string>)
    | CheckDevice(del: nat, device: string)
    | EndDelete(del: nat)
    | Restart

  /** Sizes and limits are stored in 64-bit columns with a sign. */
  type Size = n: int | 0 <= n < 0x8000_0000_0000_0000

  /** `sizes` is the size of the blob each digest names; `ceiling` the node
      owner's limit for the group. */
  datatype Setup = Setup(ceiling: Size, sizes: string -> Size)

  function Blobs(claims: set<Claim>): set<string> {
    set c | c in claims :: c.1
  }

  function Sizes(setup: Setup, hashes: set<string>): map<string, nat> {
    map h | h in hashes :: setup.sizes(h)
  }

  /** Bytes of the distinct blobs the group's devices claim. */
  ghost function ClaimedBytes(setup: Setup, s: State): nat {
    Sum(Sizes(setup, Blobs(s.claims)))
  }

  /** The node has just listed what the devices claim. */
  function Start(setup: Setup, claims: set<Claim>): State {
    State(claims, Sizes(setup, Blobs(claims)), 0, map[], map[])
  }

  // ---------- uploads ----------

  ghost predicate Refuses(setup: Setup, s: State, need: nat) {
    need > 0 && SatAdd(SatAdd(Sum(s.held), s.reserved), need) > setup.ceiling
  }

  ghost function ReserveStep(setup: Setup, s: State, id: nat): State {
    if id !in s.uploads || !s.uploads[id].Looked? then s
    else
      var u := s.uploads[id];
      var need := if u.held then 0 else u.length;
      if Refuses(setup, s, need) then s.(uploads := s.uploads - {id})
      else
        s.(reserved := s.reserved + need,
           uploads := s.uploads[id := Admitted(u.device, u.hash, u.length, u.held, need)])
  }

  /** The store takes the claim only for the blob's own length. */
  function ClaimStep(setup: Setup, s: State, id: nat): State {
    if id !in s.uploads || !s.uploads[id].Admitted? || s.uploads[id].length != setup.sizes(s.uploads[id].hash) then s
    else
      var u := s.uploads[id];
      s.(claims := s.claims + {(u.device, u.hash)},
         uploads := s.uploads[id := Claimed(u.device, u.hash, u.length, u.held, u.need)])
  }

  function EnterStep(setup: Setup, s: State, id: nat): State {
    if id !in s.uploads || !s.uploads[id].Claimed? then s
    else
      var u := s.uploads[id];
      s.(held := s.held[u.hash := setup.sizes(u.hash)],
         uploads := s.uploads[id := Finished(u.device, u.hash, u.length, u.held, u.need)])
  }

  /** A blob that appeared after it was looked up was not proved by this upload: the claim goes back. */
  function TakeBackStep(s: State, id: nat): State {
    if id !in s.uploads || !s.uploads[id].Claimed? || s.uploads[id].held then s
    else
      var u := s.uploads[id];
      s.(claims := s.claims - {(u.device, u.hash)},
         uploads := s.uploads[id := Finished(u.device, u.hash, u.length, u.held, u.need)])
  }

  /** The request ends, and no task of it is under way. */
  function DropStep(s: State, id: nat): State {
    if id !in s.uploads || s.uploads[id].Claimed? then s
    else if s.uploads[id].Looked? then s.(uploads := s.uploads - {id})
    else s.(reserved := SatSub(s.reserved, s.uploads[id].need), uploads := s.uploads - {id})
  }

  /** The request is given up while its task claims and enters the blob: the
      reservation belongs to the request and is dropped with it, that work goes on. */
  function HangUpStep(s: State, id: nat): State {
    if id !in s.uploads || !(s.uploads[id].Admitted? || s.uploads[id].Claimed?) then s
    else
      var u := s.uploads[id];
      s.(reserved := SatSub(s.reserved, u.need), uploads := s.uploads[id := u.(need := 0)])
  }

  // ---------- deletes ----------

  function UnclaimStep(s: State, del: nat, device: string): State {
    if del !in s.deletes || !s.deletes[del].Unclaiming? then s
    else s.(claims := s.claims - {(device, s.deletes[del].hash)})
  }

  /** `devices` is the group's devices, among them every one that claims anything. */
  function BeginCheckStep(s: State, del: nat, devices: set<string>): State {
    if del !in s.deletes || !s.deletes[del].Unclaiming? || !(forall c | c in s.claims :: c.0 in devices) then s
    else s.(deletes := s.deletes[del := Checking(s.deletes[del].hash, devices, false)])
  }

  function CheckStep(s: State, del: nat, device: string): State {
    if del !in s.deletes || !s.deletes[del].Checking? || device !in s.deletes[del].todo then s
    else
      var d := s.deletes[del];
      s.(deletes := s.deletes[del := Checking(d.hash, d.todo - {device}, d.still || (device, d.hash) in s.claims)])
  }

  /** The check found no claim, and the blob leaves the holdings. */
  predicate Forgets(s: State, del: nat) {
    del in s.deletes && s.deletes[del].Checking? && s.deletes[del].todo == {} && !s.deletes[del].still
  }

  function EndDeleteStep(s: State, del: nat): State {
    if del !in s.deletes || !s.deletes[del].Checking? || s.deletes[del].todo != {} then s
    else
      s.(held := if s.deletes[del].still then s.held else s.held - {s.deletes[del].hash}, deletes := s.deletes - {del})
  }

  // ---------- steps and runs ----------

  ghost function Next(setup: Setup, s: State, a: Action): State {
    match a
    case Look(id, device, hash, length) =>
      if id in s.uploads then s else s.(uploads := s.uploads[id := Looked(device, hash, length, hash in s.held)])
    case Reserve(id) => ReserveStep(setup, s, id)
    case ClaimBlob(id) => ClaimStep(setup, s, id)
    case Enter(id) => EnterStep(setup, s, id)
    case TakeBack(id) => TakeBackStep(s, id)
    case Drop(id) => DropStep(s, id)
    case HangUp(id) => HangUpStep(s, id)
    case BeginDelete(del, hash) => if del in s.deletes then s else s.(deletes := s.deletes[del := Unclaiming(hash)])
    case Unclaim(del, device) => UnclaimStep(s, del, device)
    case BeginCheck(del, devices) => BeginCheckStep(s, del, devices)
    case CheckDevice(del, device) => CheckStep(s, del, device)
    case EndDelete(del) => EndDeleteStep(s, del)
    case Restart => Start(setup, s.claims)
  }

  ghost function Run(setup: Setup, s: State, actions: seq<Action>): State
    decreases |actions|
  {
    if actions == [] then s else Run(setup, Next(setup, s, actions[0]), actions[1..])
  }

  // ---------- what can go wrong ----------

  /** Four ways in which what the node counts and what is claimed part: an upload
      that was told its blob is held claims it, or enters it, when the holdings no
      longer list it; a delete forgets a blob that is claimed; an upload that
      needs its reservation loses it before its blob is entered. */
  datatype Lapse = StaleClaim | StaleEntry | BlindForget | EarlyRelease

  ghost predicate Told(s: State, id: nat) {
    id in s.uploads && s.uploads[id].held && s.uploads[id].hash !in s.held
  }

  ghost predicate Lapses(setup: Setup, s: State, a: Action, lapse: Lapse) {
    match lapse
    case StaleClaim => a.ClaimBlob? && Told(s, a.id) && ClaimStep(setup, s, a.id) != s
    case StaleEntry => a.Enter? && Told(s, a.id) && s.uploads[a.id].Claimed?
    case BlindForget => a.EndDelete? && Forgets(s, a.del) && s.deletes[a.del].hash in Blobs(s.claims)
    case EarlyRelease => a.HangUp? && Needs(setup, s, a.id)
  }

  /** The upload reserved its blob's bytes and can still claim or enter it. */
  ghost predicate Needs(setup: Setup, s: State, id: nat) {
    && id in s.uploads && (s.uploads[id].Admitted? || s.uploads[id].Claimed?)
    && !s.uploads[id].held && s.uploads[id].length == setup.sizes(s.uploads[id].hash)
  }

  function Subject(s: State, a: Action): string {
    if (a.ClaimBlob? || a.Enter? || a.HangUp?) && a.id in s.uploads then s.uploads[a.id].hash
    else if a.EndDelete? && a.del in s.deletes then s.deletes[a.del].hash else ""
  }

  /** A rule for lapses: the sizes of the blobs each kind may be of. */
  ghost predicate Follows(allowed: (Lapse, Size) -> bool, setup: Setup, s: State, a: Action) {
    forall lapse | Lapses(setup, s, a, lapse) :: allowed(lapse, setup.sizes(Subject(s, a)))
  }

  ghost predicate FollowsRun(allowed: (Lapse, Size) -> bool, setup: Setup, s: State, actions: seq<Action>)
    decreases |actions|
  {
    actions == [] || (Follows(allowed, setup, s, actions[0])
      && FollowsRun(allowed, setup, Next(setup, s, actions[0]), actions[1..]))
  }

  // ---------- the invariant ----------

  /** Bytes each live reservation holds. */
  ghost function Live(s: State): map<nat, nat> {
    map id | id in s.uploads && !s.uploads[id].Looked? :: s.uploads[id].need
  }

  /** Bytes admitted and not yet in the holdings. */
  ghost function Pending(s: State): map<nat, nat> {
    map id | id in s.uploads && (s.uploads[id].Admitted? || s.uploads[id].Claimed?) :: s.uploads[id].need
  }

  /** What the node counts against the ceiling. */
  ghost function Load(s: State): nat {
    Sum(s.held) + Sum(Pending(s))
  }

  ghost predicate UploadOk(setup: Setup, u: Upload) {
    && (u.Claimed? || (u.Admitted? && u.length == setup.sizes(u.hash)) ==> u.need == if u.held then 0 else u.length)
    && (u.Claimed? ==> u.length == setup.sizes(u.hash))
  }

  /** The upload claimed and reserved for this claim, and is about to enter it. */
  ghost predicate Pays(u: Upload, c: Claim) {
    u.Claimed? && !u.held && (u.device, u.hash) == c
  }

  /** A claim is in the holdings, or on its way there with its bytes reserved. */
  ghost predicate Backed(s: State, c: Claim) {
    c.1 in s.held || exists id | id in s.uploads :: Pays(s.uploads[id], c)
  }

  ghost predicate AllBacked(setup: Setup, s: State) {
    forall c | c in s.claims :: setup.sizes(c.1) == 0 || Backed(s, c)
  }

  ghost predicate Books(setup: Setup, s: State, bound: nat) {
    && s.reserved == Sum(Live(s))
    && Load(s) <= bound
    && (forall h | h in s.held :: s.held[h] == setup.sizes(h))
    && (forall id | id in s.uploads :: UploadOk(setup, s.uploads[id]))
  }

  ghost predicate Inv(setup: Setup, s: State, bound: nat) {
    Books(setup, s, bound) && AllBacked(setup, s)
  }

  // ---------- claimed bytes are counted ----------

  /** Distinct blobs, each paid for by an upload of its own, weigh no more than what is paid. */
  lemma {:induction false} PaidWeighs(setup: Setup, hashes: set<string>, paid: map<nat, nat>, names: map<nat, string>)
    requires paid.Keys <= names.Keys
    requires forall h | h in hashes :: exists id :: id in paid && names[id] == h && paid[id] == setup.sizes(h)
    ensures Sum(Sizes(setup, hashes)) <= Sum(paid)
    decreases hashes
  {
    hide Sum;
    if hashes == {} {
      SumEmpty<string>();
      assert Sizes(setup, hashes) == map[];
    } else {
      var h :| h in hashes;
      var id :| id in paid && names[id] == h && paid[id] == setup.sizes(h);
      forall g | g in hashes - {h}
        ensures exists i :: i in paid - {id} && names[i] == g && (paid - {id})[i] == setup.sizes(g)
      {
        var i :| i in paid && names[i] == g && paid[i] == setup.sizes(g);
        assert i in paid - {id};
      }
      PaidWeighs(setup, hashes - {h}, paid - {id}, names);
      SumWithout(paid, id);
      SumWithout(Sizes(setup, hashes), h);
      assert Sizes(setup, hashes) - {h} == Sizes(setup, hashes - {h});
    }
  }

  /** Blobs that are listed, paid or empty weigh no more than what is listed and paid. */
  lemma {:induction false} SplitWeighs(setup: Setup, hashes: set<string>, held: map<string, nat>, paid: nat)
    requires forall h | h in held :: held[h] == setup.sizes(h)
    requires Sum(Sizes(setup, set h | h in hashes && h !in held && setup.sizes(h) > 0)) <= paid
    ensures Sum(Sizes(setup, hashes)) <= Sum(held) + paid
    decreases hashes
  {
    hide Sum;
    if h :| h in hashes && (h in held || setup.sizes(h) == 0) {
      var rest := hashes - {h};
      assert (set g | g in rest && g !in held - {h} && setup.sizes(g) > 0)
          == (set g | g in hashes && g !in held && setup.sizes(g) > 0);
      SplitWeighs(setup, rest, held - {h}, paid);
      SumWithout(Sizes(setup, hashes), h);
      assert Sizes(setup, hashes) - {h} == Sizes(setup, rest);
      if h in held {
        SumWithout(held, h);
      } else {
        assert held - {h} == held;
      }
    } else {
      assert (set h | h in hashes && h !in held && setup.sizes(h) > 0) == hashes;
    }
  }

  /** What the devices claim never weighs more than what the node counts. */
  lemma {:induction false} ClaimsAreCounted(setup: Setup, s: State, bound: nat)
    requires Inv(setup, s, bound)
    ensures ClaimedBytes(setup, s) <= Load(s)
  {
    hide Sum;
    var hashes, names := Blobs(s.claims), map id | id in s.uploads :: s.uploads[id].hash;
    var loose := set h | h in hashes && h !in s.held && setup.sizes(h) > 0;
    forall h | h in loose ensures exists id :: id in Pending(s) && names[id] == h && Pending(s)[id] == setup.sizes(h) {
      var c :| c in s.claims && c.1 == h;
      assert Backed(s, c);
      var id :| id in s.uploads && Pays(s.uploads[id], c);
      assert UploadOk(setup, s.uploads[id]);
      assert id in Pending(s) && names[id] == h;
    }
    PaidWeighs(setup, loose, Pending(s), names);
    SplitWeighs(setup, hashes, s.held, Sum(Pending(s)));
  }

  // ---------- every step ----------

  /** No claim is new, no blob leaves the holdings, and no upload about to enter its blob changes. */
  lemma {:induction false} StaysBacked(setup: Setup, s: State, next: State)
    requires next.claims <= s.claims && s.held.Keys <= next.held.Keys
    requires forall id | id in s.uploads && s.uploads[id].Claimed? ::
      var u := s.uploads[id];
      || (id in next.uploads && next.uploads[id] == u) || u.hash in next.held || (u.device, u.hash) !in next.claims
    requires AllBacked(setup, s)
    ensures AllBacked(setup, next)
  {
    forall c | c in next.claims && setup.sizes(c.1) != 0 ensures Backed(next, c) {
      assert Backed(s, c);
      if c.1 !in next.held {
        var id :| id in s.uploads && Pays(s.uploads[id], c);
        assert Pays(next.uploads[id], c);
      }
    }
  }

  lemma {:induction false} LookKeeps(
      setup: Setup, s: State, bound: nat, id: nat, device: string, hash: string, length: nat)
    requires Inv(setup, s, bound)
    ensures Inv(setup, Next(setup, s, Look(id, device, hash, length)), bound)
  {
    hide Sum, AllBacked, ReserveStep, ClaimStep, EnterStep, TakeBackStep, DropStep, HangUpStep;
    var next := Next(setup, s, Look(id, device, hash, length));
    assert Live(next) == Live(s) && Pending(next) == Pending(s);
    StaysBacked(setup, s, next);
  }

  lemma {:induction false} AdmitBooks(setup: Setup, s: State, bound: nat, id: nat, need: nat)
    requires setup.ceiling <= bound && Books(setup, s, bound) && !Refuses(setup, s, need)
    requires id in s.uploads && s.uploads[id].Looked?
    requires need == if s.uploads[id].held then 0 else s.uploads[id].length
    ensures Books(setup, ReserveStep(setup, s, id), bound)
  {
    hide Sum;
    var next := ReserveStep(setup, s, id);
    assert Live(next) == Live(s)[id := need] && Pending(next) == Pending(s)[id := need];
    SumPart(Pending(s), Live(s));
    SumWith(Live(s), id, need);
    SumWith(Pending(s), id, need);
  }

  lemma {:induction false} ReserveKeeps(setup: Setup, s: State, bound: nat, id: nat)
    requires setup.ceiling <= bound && Inv(setup, s, bound)
    ensures Inv(setup, ReserveStep(setup, s, id), bound)
  {
    hide Sum, Refuses, AllBacked;
    var next := ReserveStep(setup, s, id);
    if id in s.uploads && s.uploads[id].Looked? {
      var need := if s.uploads[id].held then 0 else s.uploads[id].length;
      if Refuses(setup, s, need) {
        assert Live(next) == Live(s) && Pending(next) == Pending(s);
      } else {
        AdmitBooks(setup, s, bound, id, need);
        hide Books;
      }
      StaysBacked(setup, s, next);
    }
  }

  lemma {:induction false} ClaimKeeps(setup: Setup, s: State, bound: nat, id: nat)
    requires Inv(setup, s, bound)
    requires Lapses(setup, s, ClaimBlob(id), StaleClaim) ==> setup.sizes(s.uploads[id].hash) == 0
    ensures Inv(setup, ClaimStep(setup, s, id), bound)
  {
    hide Sum;
    var next := ClaimStep(setup, s, id);
    if next != s {
      var u := s.uploads[id];
      assert UploadOk(setup, u);
      assert Live(next) == Live(s) && Pending(next) == Pending(s);
      StaysBacked(setup, s, next.(claims := s.claims));
      forall c | c in next.claims && setup.sizes(c.1) != 0 ensures Backed(next, c) {
        if c in s.claims {
          assert Backed(next.(claims := s.claims), c);
        } else if !u.held {
          assert Pays(next.uploads[id], c);
        }
      }
    }
  }

  /** Entering a blob adds its size to the load unless it is there, and takes what
      the upload has reserved off it: the load rises for an upload told that its
      blob is held when it no longer is, and for one that lost its reservation. */
  lemma {:induction false} EntryRaises(setup: Setup, s: State, id: nat)
    requires id in s.uploads && s.uploads[id].Claimed?
    requires s.uploads[id].hash in s.held ==> s.held[s.uploads[id].hash] == setup.sizes(s.uploads[id].hash)
    ensures var u := s.uploads[id];
      Load(EnterStep(setup, s, id)) + u.need == Load(s) + if u.hash in s.held then 0 else setup.sizes(u.hash)
  {
    hide Sum;
    var u, next := s.uploads[id], EnterStep(setup, s, id);
    assert Pending(next) == Pending(s) - {id};
    SumWithout(Pending(s), id);
    SumWith(s.held, u.hash, setup.sizes(u.hash));
  }

  lemma {:induction false} EnterKeeps(setup: Setup, s: State, bound: nat, id: nat)
    requires Inv(setup, s, bound)
    requires Lapses(setup, s, Enter(id), StaleEntry) ==> setup.sizes(s.uploads[id].hash) == 0
    ensures Inv(setup, EnterStep(setup, s, id), bound)
  {
    hide Sum;
    var next := EnterStep(setup, s, id);
    if id in s.uploads && s.uploads[id].Claimed? {
      assert UploadOk(setup, s.uploads[id]);
      EntryRaises(setup, s, id);
      assert Live(next) == Live(s);
      StaysBacked(setup, s, next);
    }
  }

  /** An upload leaves with its reservation. */
  lemma {:induction false} LeaveBooks(setup: Setup, s: State, next: State, bound: nat, id: nat)
    requires Books(setup, s, bound) && id in s.uploads && next.held == s.held
    requires next.uploads == s.uploads - {id}
    requires next.reserved == if s.uploads[id].Looked? then s.reserved else SatSub(s.reserved, s.uploads[id].need)
    ensures Books(setup, next, bound)
  {
    hide Sum;
    assert Live(next) == Live(s) - {id} && Pending(next) == Pending(s) - {id};
    if id in Live(s) {
      SumWithout(Live(s), id);
    } else {
      assert Live(next) == Live(s);
    }
    if id in Pending(s) {
      SumWithout(Pending(s), id);
    } else {
      assert Pending(next) == Pending(s);
    }
  }

  lemma {:induction false} TakeBackKeeps(setup: Setup, s: State, bound: nat, id: nat)
    requires Inv(setup, s, bound)
    ensures Inv(setup, TakeBackStep(s, id), bound)
  {
    hide Sum, AllBacked;
    var next := TakeBackStep(s, id);
    if next != s {
      assert UploadOk(setup, s.uploads[id]);
      assert Live(next) == Live(s) && Pending(next) == Pending(s) - {id};
      SumWithout(Pending(s), id);
      StaysBacked(setup, s, next);
    }
  }

  lemma {:induction false} DropKeeps(setup: Setup, s: State, bound: nat, id: nat)
    requires Inv(setup, s, bound)
    ensures Inv(setup, DropStep(s, id), bound)
  {
    hide Books, AllBacked;
    var next := DropStep(s, id);
    if id in s.uploads && !s.uploads[id].Claimed? {
      LeaveBooks(setup, s, next, bound, id);
      StaysBacked(setup, s, next);
    }
  }

  /** A reservation given up makes no difference where it was needed for nothing. */
  lemma {:induction false} HangUpBooks(setup: Setup, s: State, bound: nat, id: nat)
    requires Books(setup, s, bound) && id in s.uploads && (s.uploads[id].Admitted? || s.uploads[id].Claimed?)
    requires Needs(setup, s, id) ==> setup.sizes(s.uploads[id].hash) == 0
    ensures Books(setup, HangUpStep(s, id), bound)
  {
    hide Sum;
    var next := HangUpStep(s, id);
    assert UploadOk(setup, s.uploads[id]);
    assert Live(next) == Live(s)[id := 0] && Pending(next) == Pending(s)[id := 0];
    SumWith(Live(s), id, 0);
    SumWith(Pending(s), id, 0);
    SumWithout(Live(s), id);
  }

  lemma {:induction false} HangUpKeeps(setup: Setup, s: State, bound: nat, id: nat)
    requires Inv(setup, s, bound)
    requires Lapses(setup, s, HangUp(id), EarlyRelease) ==> setup.sizes(s.uploads[id].hash) == 0
    ensures Inv(setup, HangUpStep(s, id), bound)
  {
    hide Books;
    var next := HangUpStep(s, id);
    if id in s.uploads && (s.uploads[id].Admitted? || s.uploads[id].Claimed?) {
      HangUpBooks(setup, s, bound, id);
      forall c | c in next.claims && setup.sizes(c.1) != 0 ensures Backed(next, c) {
        assert Backed(s, c);
        if c.1 !in s.held {
          var i :| i in s.uploads && Pays(s.uploads[i], c);
          assert Pays(next.uploads[i], c);
        }
      }
    }
  }

  /** Before its end a delete only takes claims away. */
  lemma {:induction false} DeletingKeeps(setup: Setup, s: State, bound: nat, a: Action)
    requires Inv(setup, s, bound) && (a.BeginDelete? || a.Unclaim? || a.BeginCheck? || a.CheckDevice?)
    ensures Inv(setup, Next(setup, s, a), bound)
  {
    hide Sum;
    var next := Next(setup, s, a);
    assert Live(next) == Live(s) && Pending(next) == Pending(s);
    StaysBacked(setup, s, next);
  }

  lemma {:induction false} EndDeleteKeeps(setup: Setup, s: State, bound: nat, del: nat)
    requires Inv(setup, s, bound)
    requires Lapses(setup, s, EndDelete(del), BlindForget) ==> setup.sizes(s.deletes[del].hash) == 0
    ensures Inv(setup, EndDeleteStep(s, del), bound)
  {
    hide Sum;
    var next := EndDeleteStep(s, del);
    assert Live(next) == Live(s) && Pending(next) == Pending(s);
    if Forgets(s, del) {
      var hash := s.deletes[del].hash;
      if hash in s.held {
        SumWithout(s.held, hash);
      } else {
        assert next.held == s.held;
      }
      forall c | c in next.claims && setup.sizes(c.1) != 0 ensures Backed(next, c) {
        assert c.1 in Blobs(s.claims);
        assert Backed(s, c) && c.1 != hash;
      }
    } else {
      StaysBacked(setup, s, next);
    }
  }

  /** After a restart the holdings are what is claimed. */
  lemma {:induction false} RestartKeeps(setup: Setup, s: State, bound: nat)
    requires Inv(setup, s, bound)
    ensures Inv(setup, Start(setup, s.claims), bound)
  {
    hide Sum;
    ClaimsAreCounted(setup, s, bound);
    StartHolds(setup, s.claims, bound);
  }

  lemma {:induction false} StartHolds(setup: Setup, claims: set<Claim>, bound: nat)
    requires Sum(Sizes(setup, Blobs(claims))) <= bound
    ensures Inv(setup, Start(setup, claims), bound)
  {
    hide Sum;
    var start := Start(setup, claims);
    assert Live(start) == map[] && Pending(start) == map[];
    SumEmpty<nat>();
    forall c | c in claims ensures Backed(start, c) {
      assert c.1 in Blobs(claims);
    }
  }

  /** Only lapses of empty blobs. */
  ghost predicate Strict(allowed: (Lapse, Size) -> bool) {
    forall lapse, n | allowed(lapse, n) :: n == 0
  }

  lemma {:induction false} StepKeeps(allowed: (Lapse, Size) -> bool, setup: Setup, s: State, bound: nat, a: Action)
    requires setup.ceiling <= bound && Inv(setup, s, bound)
    requires Strict(allowed) && Follows(allowed, setup, s, a)
    ensures Inv(setup, Next(setup, s, a), bound)
  {
    hide Inv, ReserveStep, ClaimStep, EnterStep, TakeBackStep, DropStep, HangUpStep, EndDeleteStep, Start;
    match a
    case Look(id, device, hash, length) => LookKeeps(setup, s, bound, id, device, hash, length);
    case Reserve(id) => ReserveKeeps(setup, s, bound, id);
    case ClaimBlob(id) => ClaimKeeps(setup, s, bound, id);
    case Enter(id) => EnterKeeps(setup, s, bound, id);
    case TakeBack(id) => TakeBackKeeps(setup, s, bound, id);
    case Drop(id) => DropKeeps(setup, s, bound, id);
    case HangUp(id) => HangUpKeeps(setup, s, bound, id);
    case EndDelete(del) => EndDeleteKeeps(setup, s, bound, del);
    case Restart => RestartKeeps(setup, s, bound);
    case _ => DeletingKeeps(setup, s, bound, a);
  }

  lemma {:induction false} RunKeeps(
      allowed: (Lapse, Size) -> bool, setup: Setup, s: State, bound: nat, actions: seq<Action>)
    requires setup.ceiling <= bound && Inv(setup, s, bound)
    requires Strict(allowed) && FollowsRun(allowed, setup, s, actions)
    ensures Inv(setup, Run(setup, s, actions), bound)
    decreases |actions|
  {
    hide Inv, Next, Follows, Strict;
    if actions != [] {
      StepKeeps(allowed, setup, s, bound, actions[0]);
      RunKeeps(allowed, setup, Next(setup, s, actions[0]), bound, actions[1..]);
    }
  }

  /** Over every interleaving of uploads, deletes and restarts without a lapse,
      or only of empty blobs: what the devices claim never passes the larger of
      the ceiling and what they claimed at the start, nor does what the node
      counts, and the reserved counter is the sum of the live reservations. */
  lemma {:induction false} CeilingHolds(
      allowed: (Lapse, Size) -> bool, setup: Setup, claims: set<Claim>, actions: seq<Action>)
    requires Strict(allowed) && FollowsRun(allowed, setup, Start(setup, claims), actions)
    ensures var start, s := Start(setup, claims), Run(setup, Start(setup, claims), actions);
      && ClaimedBytes(setup, s) <= Load(s) <= Max(setup.ceiling, ClaimedBytes(setup, start))
      && s.reserved == Sum(Live(s))
  {
    hide Sum, Run, FollowsRun, Strict;
    var bound := Max(setup.ceiling, ClaimedBytes(setup, Start(setup, claims)));
    StartHolds(setup, claims, bound);
    RunKeeps(allowed, setup, Start(setup, claims), bound, actions);
    ClaimsAreCounted(setup, Run(setup, Start(setup, claims), actions), bound);
  }

  // ---------- uploads alone ----------

  predicate Deletes(a: Action) {
    a.BeginDelete? || a.Unclaim? || a.BeginCheck? || a.CheckDevice? || a.EndDelete?
  }

  /** What an upload was told is still so, and every claim is backed. */
  ghost predicate Listed(s: State) {
    && s.deletes == map[]
    && (forall id | id in s.uploads && s.uploads[id].held :: s.uploads[id].hash in s.held)
    && (forall c | c in s.claims :: Backed(s, c))
  }

  lemma {:induction false} UploadKeepsListed(setup: Setup, s: State, a: Action)
    requires Listed(s) && !Deletes(a)
    ensures Listed(Next(setup, s, a))
  {
    hide Sum;
    var next := Next(setup, s, a);
    forall c | c in next.claims ensures Backed(next, c) {
      if c in s.claims {
        assert Backed(s, c);
        if c.1 !in s.held {
          var id :| id in s.uploads && Pays(s.uploads[id], c);
          assert c.1 in next.held || (id in next.uploads && Pays(next.uploads[id], c));
        }
      } else {
        assert a.ClaimBlob? && (s.uploads[a.id].held || Pays(next.uploads[a.id], c));
      }
    }
  }

  /** Without deletes there is no lapse unless a request is given up, and either
      way, whenever no upload stands between its claim and its entry, every
      claimed blob is in the holdings. */
  lemma {:induction false} UploadsNeverLapse(
      allowed: (Lapse, Size) -> bool, setup: Setup, s: State, actions: seq<Action>)
    requires Listed(s) && forall i | 0 <= i < |actions| :: !Deletes(actions[i])
    ensures (forall i | 0 <= i < |actions| :: !actions[i].HangUp?) ==> FollowsRun(allowed, setup, s, actions)
    ensures var end := Run(setup, s, actions);
      (forall id | id in end.uploads :: !end.uploads[id].Claimed?) ==> Blobs(end.claims) <= end.held.Keys
    decreases |actions|
  {
    hide Next;
    if actions != [] {
      UploadKeepsListed(setup, s, actions[0]);
      UploadsNeverLapse(allowed, setup, Next(setup, s, actions[0]), actions[1..]);
    } else {
      forall h | h in Blobs(s.claims) && forall id | id in s.uploads :: !s.uploads[id].Claimed? ensures h in s.held {
        var c :| c in s.claims && c.1 == h;
        assert Backed(s, c);
      }
    }
  }
}
