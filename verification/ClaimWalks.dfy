/** The paginated walks of `grants/claims.rs` over views that change under
    them: `each_claim`, `transfer`, `restore` and `adopt`.  A hash is its
    256-bit number, so hash order is number order. */
module ClaimWalks {

  import opened Wrappers

  const PAGE: nat := 100
  const MOVED_PAGE: nat := 500
  const ADOPT_BATCH: nat := 10_000

  /** What the store did with one claim: moved it, refused it and kept it
      listed, refused it because it is gone, or failed. */
  datatype Outcome = Moved | Kept | Gone | Failed

  // ---------- pages ----------

  ghost predicate Ascending(page: seq<nat>) {
    forall i, j | 0 <= i < j < |page| :: page[i] < page[j]
  }

  /** `page` is the first entries of `all` after `after`, at most `limit` of them. */
  ghost predicate IsPage(page: seq<nat>, all: set<nat>, after: int, limit: nat) {
    && Ascending(page) && |page| <= limit
    && (forall i | 0 <= i < |page| :: page[i] in all && after < page[i])
    && (forall v | v in all && after < v && v !in page :: |page| == limit && forall i | 0 <= i < |page| :: page[i] < v)
  }

  predicate IsLeast(m: nat, s: set<nat>) {
    m in s && forall x | x in s :: m <= x
  }

  lemma {:induction false} LeastExists(s: set<nat>) returns (m: nat)
    requires s != {}
    ensures IsLeast(m, s)
    decreases s
  {
    m :| m in s;
    var rest := s - {m};
    assert forall x | x in s :: x == m || x in rest;
    if rest != {} {
      var other := LeastExists(rest);
      if other < m {
        m := other;
      }
    }
  }

  /** Entries of `all` beyond `after` that are on the page or still to come. */
  ghost predicate Splits(page: seq<nat>, rest: set<nat>, all: set<nat>, after: int) {
    && Ascending(page)
    && (forall i | 0 <= i < |page| :: page[i] in all && after < page[i])
    && (forall v | v in rest :: v in all && after < v && forall i | 0 <= i < |page| :: page[i] < v)
    && (forall v | v in all && after < v :: v in page || v in rest)
  }

  lemma {:induction false} TakeLeast(page: seq<nat>, rest: set<nat>, all: set<nat>, after: int, least: nat)
    requires Splits(page, rest, all, after) && IsLeast(least, rest)
    ensures Splits(page + [least], rest - {least}, all, after)
  {
    var more := page + [least];
    forall v | v in rest - {least} ensures forall i | 0 <= i < |more| :: more[i] < v {}
    forall v | v in all && after < v ensures v in more || v in rest - {least} {
      assert v in page ==> v in more;
      assert least in more;
    }
  }

  method ReadPage(all: set<nat>, after: int, limit: nat) returns (page: seq<nat>)
    ensures IsPage(page, all, after, limit)
  {
    page := [];
    var rest := set v | v in all && after < v;
    while rest != {} && |page| < limit
      invariant Splits(page, rest, all, after) && |page| <= limit
      decreases rest
    {
      hide Splits;
      ghost var least0 := LeastExists(rest);
      var least :| least in rest && IsLeast(least, rest);
      TakeLeast(page, rest, all, after, least);
      page := page + [least];
      rest := rest - {least};
    }
  }

  /** The listing refuses a cursor that is not a live claim. */
  method ListClaims(all: set<nat>, cursor: Option<nat>, limit: nat) returns (page: Option<seq<nat>>)
    ensures page.None? <==> cursor.Some? && cursor.value !in all
    ensures page.Some? ==> IsPage(page.value, all, After(cursor), limit)
  {
    if cursor.Some? && cursor.value !in all {
      return None;
    }
    var found := ReadPage(all, After(cursor), limit);
    page := Some(found);
  }

  function After(cursor: Option<nat>): int {
    if cursor.Some? then cursor.value else -1
  }

  ghost function Beyond(all: set<nat>, after: int): set<nat> {
    set v | v in all && after < v
  }

  /** Moving the cursor to a live entry leaves strictly less beyond it. */
  lemma {:induction false} BeyondShrinks(all: set<nat>, before: int, after: int)
    requires before < after && exists v | v in all :: v == after
    ensures |Beyond(all, after)| < |Beyond(all, before)|
  {
    assert Beyond(all, after) <= Beyond(all, before) - {after};
    SubsetSmaller(Beyond(all, after), Beyond(all, before), after);
  }

  lemma {:induction false} SubsetSmaller(part: set<nat>, whole: set<nat>, extra: nat)
    requires part <= whole - {extra} && extra in whole
    ensures |part| < |whole|
  {
    SubsetSize(part, whole - {extra});
  }

  lemma {:induction false} SubsetSize(part: set<nat>, whole: set<nat>)
    requires part <= whole
    ensures |part| <= |whole|
    decreases whole
  {
    if part != {} {
      var x :| x in part;
      SubsetSize(part - {x}, whole - {x});
    }
  }

  /** Everything up to the end of a page is before its start or on it. */
  lemma {:induction false} PageCovers(page: seq<nat>, all: set<nat>, after: int, limit: nat, v: nat)
    requires IsPage(page, all, after, limit) && v in all && after < v
    requires |page| < limit || (page != [] && v <= page[|page| - 1])
    ensures v in page
  {}

  /** `each_claim` and `hash_set`: a read-only walk visits every claim once. */
  method EachClaim(all: set<nat>) returns (visited: seq<nat>)
    ensures Ascending(visited) && forall v :: v in visited <==> v in all
  {
    hide IsPage;
    visited := [];
    var cursor := None;
    while true
      invariant cursor.Some? ==> cursor.value in all
      invariant Visited(visited, all, After(cursor))
      decreases |Beyond(all, After(cursor))|
    {
      var listed := ListClaims(all, cursor, PAGE);
      var page := listed.value;
      VisitPage(visited, page, all, After(cursor));
      visited := visited + page;
      if |page| < PAGE {
        return;
      }
      var last := page[|page| - 1];
      BeyondShrinks(all, After(cursor), last);
      cursor := Some(last);
    }
  }

  /** The visited entries are those up to `upTo`, in order. */
  ghost predicate Visited(visited: seq<nat>, all: set<nat>, upTo: int) {
    && Ascending(visited)
    && (forall i | 0 <= i < |visited| :: visited[i] in all && visited[i] <= upTo)
    && (forall v | v in all && v <= upTo :: v in visited)
  }

  lemma {:induction false} VisitPage(visited: seq<nat>, page: seq<nat>, all: set<nat>, after: int)
    requires Visited(visited, all, after) && IsPage(page, all, after, PAGE)
    ensures |page| < PAGE ==> Ascending(visited + page) && forall v :: v in visited + page <==> v in all
    ensures |page| == PAGE ==>
      && page[PAGE - 1] in all && after < page[PAGE - 1]
      && Visited(visited + page, all, page[PAGE - 1])
    ensures |page| <= PAGE
  {
    assert Ascending(visited + page);
    forall v | v in all && (|page| < PAGE || v <= page[PAGE - 1]) ensures v in visited + page {
      if after < v {
        PageCovers(page, all, after, PAGE, v);
      }
    }
  }

  // ---------- transfer ----------

  /** What others take away before call `t`. */
  function TakenAt(lost: seq<set<nat>>, t: nat): set<nat> {
    if t < |lost| then lost[t] else {}
  }

  function AnswerAt(answers: seq<Outcome>, t: nat): Outcome {
    if t < |answers| then answers[t] else Kept
  }

  /** A key's claims under its grant, as the store lists them.  Before any call
      others may take claims away, and what a call finds depends on when it is made. */
  class View {
    var claims: set<nat>
    var clock: nat
    const answers: seq<Outcome>
    const lost: seq<set<nat>>

    constructor (claims: set<nat>, answers: seq<Outcome>, lost: seq<set<nat>>)
      ensures this.claims == claims && clock == 0 && this.answers == answers && this.lost == lost
    {
      this.claims, clock, this.answers, this.lost := claims, 0, answers, lost;
    }

    method List(cursor: Option<nat>) returns (page: Option<seq<nat>>)
      modifies this
      ensures clock == old(clock) + 1 && claims == old(claims) - TakenAt(lost, old(clock))
      ensures page.None? <==> cursor.Some? && cursor.value !in claims
      ensures page.Some? ==> IsPage(page.value, claims, After(cursor), PAGE)
    {
      claims, clock := claims - TakenAt(lost, clock), clock + 1;
      page := ListClaims(claims, cursor, PAGE);
    }

    /** Record, claim for the owner, delete the key's claim: a moved claim, or
        one whose blob is gone, is not in the view afterwards. */
    method Attempt(hash: nat) returns (outcome: Outcome)
      modifies this
      ensures clock == old(clock) + 1 && outcome == AnswerAt(answers, old(clock))
      ensures claims == old(claims) - TakenAt(lost, old(clock)) - Leaving(hash, outcome)
    {
      outcome := AnswerAt(answers, clock);
      claims, clock := claims - TakenAt(lost, clock) - Leaving(hash, outcome), clock + 1;
    }
  }

  predicate Leaves(outcome: Outcome) {
    outcome == Moved || outcome == Gone
  }

  function Leaving(hash: nat, outcome: Outcome): set<nat> {
    if Leaves(outcome) then {hash} else {}
  }

  function Count<T(==)>(results: seq<T>, what: T): nat {
    if results == [] then 0 else Count(results[..|results| - 1], what) + if results[|results| - 1] == what then 1 else 0
  }

  lemma {:induction false} CountOne<T>(results: seq<T>, more: T, what: T)
    ensures Count(results + [more], what) == Count(results, what) + if more == what then 1 else 0
  {
    assert (results + [more])[..|results|] == results;
  }

  ghost predicate Failure(results: seq<Outcome>) {
    Failed in results
  }

  lemma {:induction false} FailureOne(results: seq<Outcome>, more: Outcome)
    ensures Failure(results + [more]) <==> Failure(results) || more == Failed
  {
    var all := results + [more];
    assert all[|results|] == more && forall i | 0 <= i < |results| :: all[i] == results[i];
  }

  ghost predicate Distinct(order: seq<nat>) {
    forall i, j | 0 <= i < j < |order| :: order[i] != order[j]
  }

  /** A walk under way: `start` is what was listed when it began, at step
      `from`; `order` is the claims tried and `results` what came of them. */
  datatype Trip = Trip(start: set<nat>, paid: set<nat>, lost: seq<set<nat>>, from: nat, now: nat, claims: set<nat>,
                       attempted: set<nat>, cursor: Option<nat>, order: seq<nat>, results: seq<Outcome>) {

    /** Others took `h` away. */
    ghost predicate Lost(h: nat) {
      exists t | from <= t < now :: h in TakenAt(lost, t)
    }

    ghost predicate LeftByMove(h: nat) {
      |results| == |order| && exists i | 0 <= i < |order| :: order[i] == h && Leaves(results[i])
    }

    /** The claims tried are each tried once and none of them paid; what left
        the view left by being tried or was taken away. */
    ghost predicate Walk() {
      && |results| == |order| && Distinct(order) && claims <= start
      && (forall i | 0 <= i < |order| :: order[i] in start - paid && (Leaves(results[i]) ==> order[i] !in claims))
      && (forall h | h in start - claims :: Lost(h) || LeftByMove(h))
    }

    /** The cursor stands on a claim that stayed: a paid one, or one tried and kept. */
    ghost predicate Stands(h: nat) {
      h in start && (h in paid || h in order) && !LeftByMove(h)
    }

    ghost predicate Ok() {
      && from <= now && Walk()
      && (forall h :: h in attempted <==> h in order)
      && (cursor.Some? ==> Stands(cursor.value))
    }

    /** Every listed claim up to the cursor is paid or was tried. */
    ghost predicate Decided() {
      forall v | v in claims && v <= After(cursor) :: v in paid || v in attempted
    }

    ghost predicate Settled() {
      forall v | v in claims :: v in paid || v in attempted
    }

    function Taken(): Trip {
      this.(now := now + 1, claims := claims - TakenAt(lost, now))
    }

    function Passed(h: nat): Trip {
      this.(cursor := Some(h))
    }

    function Tried(h: nat, outcome: Outcome): Trip {
      this.(claims := claims - Leaving(h, outcome), attempted := attempted + {h}, order := order + [h],
        results := results + [outcome])
    }
  }

  lemma {:induction false} TakenStep(t: Trip)
    requires t.Ok()
    ensures t.Taken().Ok() && (t.Decided() ==> t.Taken().Decided())
  {
    var next := t.Taken();
    forall h | h in next.start - next.claims ensures next.Lost(h) || next.LeftByMove(h) {
      if h in t.claims {
        assert h in TakenAt(next.lost, t.now);
      } else if t.Lost(h) {
        var i :| t.from <= i < t.now && h in TakenAt(t.lost, i);
        assert next.from <= i < next.now && h in TakenAt(next.lost, i);
      } else {
        var i :| 0 <= i < |t.order| && t.order[i] == h && Leaves(t.results[i]);
        assert next.order[i] == h && Leaves(next.results[i]);
      }
    }
    assert t.cursor.Some? && next.LeftByMove(t.cursor.value) ==> t.LeftByMove(t.cursor.value);
  }

  lemma {:induction false} LeftByOne(t: Trip, h: nat, outcome: Outcome, g: nat)
    requires |t.results| == |t.order|
    ensures t.Tried(h, outcome).LeftByMove(g) <==> t.LeftByMove(g) || (g == h && Leaves(outcome))
  {
    var next := t.Tried(h, outcome);
    if t.LeftByMove(g) {
      var i :| 0 <= i < |t.order| && t.order[i] == g && Leaves(t.results[i]);
      assert next.order[i] == g && Leaves(next.results[i]);
    }
    if g == h && Leaves(outcome) {
      assert next.order[|t.order|] == g && Leaves(next.results[|t.order|]);
    }
  }

  lemma {:induction false} TriedStep(t: Trip, h: nat, outcome: Outcome)
    requires t.Ok() && h in t.start - t.paid && h !in t.order
    ensures t.Tried(h, outcome).Ok()
  {
    var next := t.Tried(h, outcome);
    forall g ensures next.LeftByMove(g) <==> t.LeftByMove(g) || (g == h && Leaves(outcome)) {
      LeftByOne(t, h, outcome, g);
    }
    forall g | g in next.start - next.claims ensures next.Lost(g) || next.LeftByMove(g) {
      if g !in t.claims && t.Lost(g) {
        var i :| t.from <= i < t.now && g in TakenAt(t.lost, i);
        assert next.from <= i < next.now && g in TakenAt(next.lost, i);
      }
    }
    assert Distinct(next.order);
  }

  // ---------- one page ----------

  /** The first `i` entries of a page that was listed at `t0` are decided. */
  ghost predicate Paging(t0: Trip, t: Trip, page: seq<nat>, i: nat)
    requires i <= |page|
  {
    && t.start == t0.start && t.paid == t0.paid && t.lost == t0.lost && t.from == t0.from
    && t.claims <= t0.claims && t0.order <= t.order && t0.results <= t.results && t0.attempted <= t.attempted
    && (forall k | |t0.order| <= k < |t.order| :: t.order[k] in page[..i])
    && (forall j | 0 <= j < i :: page[j] in t.paid || page[j] in t.attempted)
    && (t.cursor == t0.cursor || (t.cursor.Some? && t.cursor.value in page[..i]))
    && (t.attempted == t0.attempted && i > 0 ==> t.cursor == Some(page[i - 1]))
  }

  /** A claim on the page was not taken out of the view by an earlier try. */
  lemma {:induction false} StillListed(t0: Trip, t: Trip, page: seq<nat>, i: nat)
    requires t0.Ok() && t.Ok() && i < |page| && Paging(t0, t, page, i) && Ascending(page) && page[i] in t0.claims
    ensures !t.LeftByMove(page[i])
  {
    forall k | 0 <= k < |t.order| && t.order[k] == page[i] ensures !Leaves(t.results[k]) {
      if k < |t0.order| {
        assert t0.order[k] == page[i] && t0.results[k] == t.results[k];
      }
    }
  }

  lemma {:induction false} PassStep(t0: Trip, t: Trip, page: seq<nat>, i: nat)
    requires t0.Ok() && t.Ok() && i < |page| && Paging(t0, t, page, i) && Ascending(page) && page[i] in t0.claims
    requires page[i] in t.paid || page[i] in t.attempted
    ensures t.Passed(page[i]).Ok() && Paging(t0, t.Passed(page[i]), page, i + 1)
  {
    StillListed(t0, t, page, i);
    var next := t.Passed(page[i]);
    assert page[..i + 1] == page[..i] + [page[i]];
    assert forall h :: next.Lost(h) <==> t.Lost(h);
    assert forall h :: next.LeftByMove(h) <==> t.LeftByMove(h);
  }

  lemma {:induction false} TryStep(t0: Trip, t: Trip, page: seq<nat>, i: nat, outcome: Outcome)
    requires t0.Ok() && t.Ok() && i < |page| && Paging(t0, t, page, i) && page[i] in t0.claims
    requires page[i] !in t.paid && page[i] !in t.attempted
    ensures t.Taken().Tried(page[i], outcome).Ok() && Paging(t0, t.Taken().Tried(page[i], outcome), page, i + 1)
  {
    TakenStep(t);
    TriedStep(t.Taken(), page[i], outcome);
    assert page[..i + 1] == page[..i] + [page[i]];
  }

  lemma {:induction false} PageEnds(t0: Trip, t: Trip, page: seq<nat>)
    requires t0.Decided() && Paging(t0, t, page, |page|) && IsPage(page, t0.claims, After(t0.cursor), PAGE)
    ensures t.Decided()
    ensures |page| < PAGE ==> t.Settled()
    ensures |page| >= PAGE && t.attempted == t0.attempted ==> After(t0.cursor) < After(t.cursor)
  {
    forall v | v in t.claims && (|page| < PAGE || v <= After(t.cursor)) ensures v in t.paid || v in t.attempted {
      if After(t0.cursor) < v {
        if t.cursor != t0.cursor {
          var j :| 0 <= j < |page| && page[j] == t.cursor.value;
        }
        PageCovers(page, t0.claims, After(t0.cursor), PAGE, v);
      }
    }
  }

  /** One claim of a page: passed over, or tried. */
  method TransferClaim(
    view: View, paid: set<nat>, hash: nat, attempted0: set<nat>, cursor0: Option<nat>,
    ghost t0: Trip, ghost t1: Trip, ghost page: seq<nat>, ghost i: nat)
    returns (ok: bool, attempted: set<nat>, cursor: Option<nat>, moved: nat, ghost t: Trip)
    requires t0.Ok() && t1.Ok() && i < |page| && Paging(t0, t1, page, i) && hash == page[i]
    requires Ascending(page) && hash in t0.claims && !Failure(t1.results)
    requires Matches(t1, view.claims, view.clock, view.lost, paid, attempted0, cursor0)
    modifies view
    ensures t.Ok() && Paging(t0, t, page, i + 1)
    ensures Matches(t, view.claims, view.clock, view.lost, paid, attempted, cursor)
    ensures ok <==> !Failure(t.results)
    ensures Count(t.results, Moved) == Count(t1.results, Moved) + moved
  {
    hide Paging, Count, Failure, Trip.Ok;
    ok, attempted, cursor, moved, t := true, attempted0, cursor0, 0, t1;
    if hash in paid || hash in attempted {
      PassStep(t0, t, page, i);
      cursor, t := Some(hash), t.Passed(hash);
    } else {
      var outcome := view.Attempt(hash);
      TryStep(t0, t, page, i, outcome);
      CountOne(t.results, outcome, Moved);
      FailureOne(t.results, outcome);
      attempted, t := attempted + {hash}, t.Taken().Tried(hash, outcome);
      ok, moved := outcome != Failed, if outcome == Moved then 1 else 0;
    }
  }

  /** One page of `transfer`. */
  method TransferPage(
      view: View, paid: set<nat>, page: seq<nat>, attempted0: set<nat>, cursor0: Option<nat>, ghost t0: Trip)
    returns (ok: bool, attempted: set<nat>, cursor: Option<nat>, moved: nat, ghost t: Trip)
    requires t0.Ok() && t0.Decided() && !Failure(t0.results) && IsPage(page, t0.claims, After(cursor0), PAGE)
    requires Matches(t0, view.claims, view.clock, view.lost, paid, attempted0, cursor0)
    modifies view
    ensures t.Ok() && Matches(t, view.claims, view.clock, view.lost, paid, attempted, cursor)
    ensures t.start == t0.start && t.from == t0.from && t0.attempted <= t.attempted
    ensures ok <==> !Failure(t.results)
    ensures ok ==> t.Decided() && Count(t.results, Moved) == Count(t0.results, Moved) + moved
    ensures ok && |page| < PAGE ==> t.Settled()
    ensures ok && |page| >= PAGE && t.attempted == t0.attempted ==> After(t0.cursor) < After(t.cursor)
  {
    hide Paging, Count, Failure, IsPage, Matches, Ascending, After, Trip.Ok, Trip.Decided, Trip.Settled;
    ok, attempted, cursor, moved, t := true, attempted0, cursor0, 0, t0;
    MatchesCursor(t0, view.claims, view.clock, view.lost, paid, attempted0, cursor0);
    PageBegins(t0, page);
    for i := 0 to |page|
      invariant ok && t.Ok() && Paging(t0, t, page, i) && !Failure(t.results)
      invariant Matches(t, view.claims, view.clock, view.lost, paid, attempted, cursor)
      invariant Count(t.results, Moved) == Count(t0.results, Moved) + moved
    {
      var here: nat;
      ok, attempted, cursor, here, t := TransferClaim(view, paid, page[i], attempted, cursor, t0, t, page, i);
      moved := moved + here;
      if !ok {
        PagingFrom(t0, t, page, i + 1);
        return;
      }
    }
    PageEnds(t0, t, page);
    PagingFrom(t0, t, page, |page|);
  }

  lemma {:induction false} PageBegins(t: Trip, page: seq<nat>)
    requires IsPage(page, t.claims, After(t.cursor), PAGE)
    ensures Ascending(page) && Paging(t, t, page, 0) && forall j | 0 <= j < |page| :: page[j] in t.claims
  {}

  lemma {:induction false} MatchesCursor(
    t: Trip, claims: set<nat>, clock: nat, lost: seq<set<nat>>, paid: set<nat>, attempted: set<nat>,
    cursor: Option<nat>)
    requires Matches(t, claims, clock, lost, paid, attempted, cursor)
    ensures t.cursor == cursor
  {}

  lemma {:induction false} PagingFrom(t0: Trip, t: Trip, page: seq<nat>, i: nat)
    requires i <= |page| && Paging(t0, t, page, i)
    ensures t.start == t0.start && t.from == t0.from && t0.attempted <= t.attempted
  {}

  /** The trip is about this view and these variables of the loop. */
  ghost predicate Matches(
      t: Trip, claims: set<nat>, clock: nat, lost: seq<set<nat>>, paid: set<nat>, attempted: set<nat>,
      cursor: Option<nat>) {
    t.claims == claims && t.now == clock && t.lost == lost && t.paid == paid && t.attempted == attempted
      && t.cursor == cursor
  }

  // ---------- the whole walk ----------

  datatype End = Done | StoreFailed | CursorLost

  lemma {:induction false} TakenAway(t: Trip, h: nat)
    requires t.Ok() && h in t.start - t.claims && !t.LeftByMove(h)
    ensures t.Lost(h)
  {}

  lemma {:induction false} CursorTaken(t: Trip)
    requires t.Ok() && t.cursor.Some? && t.cursor.value !in t.claims
    ensures var h := t.cursor.value; h in t.start && (h in t.paid || h in t.order) && t.Lost(h) && !t.LeftByMove(h)
    ensures t.Walk()
  {}

  lemma {:induction false} TransferDone(t: Trip)
    requires t.Ok() && t.Settled()
    ensures forall h | h in t.start - t.paid :: h in t.order || t.Lost(h)
    ensures forall h | h in t.claims :: h in t.paid || h in t.order
  {
    forall h | h in t.start - t.paid && h !in t.order ensures t.Lost(h) {
      TakenAway(t, h);
    }
  }

  lemma {:induction false} Bounds(t: Trip)
    requires t.Ok()
    ensures t.attempted <= t.start - t.paid && (t.cursor.Some? ==> t.cursor.value in t.start)
  {}

  /** What the end of a walk tells of it. */
  ghost predicate Ended(t: Trip, end: End) {
    && t.Walk()
    && (end == StoreFailed <==> Failure(t.results))
    && (end == CursorLost ==> exists h | h in t.start && (h in t.paid || h in t.order) :: t.Lost(h) && !t.LeftByMove(h))
    && (end == Done ==>
          && (forall h | h in t.start - t.paid :: h in t.order || t.Lost(h))
          && (forall h | h in t.claims :: h in t.paid || h in t.order))
  }

  lemma {:induction false} EndsAtCursor(t: Trip)
    requires t.Ok() && !Failure(t.results) && t.cursor.Some? && t.cursor.value !in t.claims
    ensures Ended(t, CursorLost)
  {
    CursorTaken(t);
  }

  lemma {:induction false} EndsAtFailure(t: Trip)
    requires t.Ok() && Failure(t.results)
    ensures Ended(t, StoreFailed)
  {}

  lemma {:induction false} EndsDone(t: Trip)
    requires t.Ok() && !Failure(t.results) && t.Settled()
    ensures Ended(t, Done)
  {
    TransferDone(t);
  }

  /** What is left to do: claims to try, then claims to pass over. */
  ghost predicate Nearer(t0: Trip, t: Trip) {
    var todo0, todo := (t0.start - t0.paid) - t0.attempted, (t0.start - t0.paid) - t.attempted;
    |todo| < |todo0| || (todo == todo0 && |Beyond(t0.start, After(t.cursor))| < |Beyond(t0.start, After(t0.cursor))|)
  }

  lemma {:induction false} ComesNearer(t0: Trip, t: Trip)
    requires t0.Ok() && t.Ok() && t.start == t0.start && t.paid == t0.paid && t0.attempted <= t.attempted
    requires t.attempted == t0.attempted ==> After(t0.cursor) < After(t.cursor)
    ensures Nearer(t0, t)
  {
    Bounds(t);
    if t.attempted == t0.attempted {
      BeyondShrinks(t.start, After(t0.cursor), After(t.cursor));
    } else {
      var h :| h in t.attempted && h !in t0.attempted;
      SubsetSmaller((t0.start - t0.paid) - t.attempted, (t0.start - t0.paid) - t0.attempted, h);
    }
  }

  /** List a page and work through it. */
  method TransferRound(view: View, paid: set<nat>, attempted0: set<nat>, cursor0: Option<nat>, ghost t0: Trip)
    returns (end: Option<End>, attempted: set<nat>, cursor: Option<nat>, moved: nat, ghost t: Trip)
    requires t0.Ok() && t0.Decided() && !Failure(t0.results)
    requires Matches(t0, view.claims, view.clock, view.lost, paid, attempted0, cursor0)
    modifies view
    ensures t.start == t0.start && t.from == t0.from
    ensures Matches(t, view.claims, view.clock, view.lost, paid, attempted, cursor)
    ensures end.None? ==> t.Ok() && t.Decided() && !Failure(t.results) && Nearer(t0, t)
    ensures end.None? || end == Some(Done) ==> Count(t.results, Moved) == Count(t0.results, Moved) + moved
    ensures end.Some? ==> Ended(t, end.value)
  {
    hide Trip.Ok, Trip.Decided, Trip.Settled, IsPage, Count, Failure, Ended, Nearer;
    end, attempted, cursor, moved, t := None, attempted0, cursor0, 0, t0.Taken();
    TakenStep(t0);
    var listed := view.List(cursor);
    if listed.None? {
      EndsAtCursor(t);
      end := Some(CursorLost);
      return;
    }
    var page, ok := listed.value, true;
    ok, attempted, cursor, moved, t := TransferPage(view, paid, page, attempted, cursor, t);
    if !ok {
      EndsAtFailure(t);
      end := Some(StoreFailed);
    } else if |page| < PAGE {
      EndsDone(t);
      end := Some(Done);
    } else {
      ComesNearer(t0, t);
    }
  }

  /** `transfer` ends on every store and whatever others take away meanwhile.  It
      tries no claim twice and no paid one; done, it has left nothing unpaid and
      untried; and it stops short only where a try failed or the claim its cursor
      stood on was taken away. */
  method Transfer(view: View, paid: set<nat>) returns (end: End, moved: nat, ghost t: Trip)
    modifies view
    ensures t.start == old(view.claims) && t.paid == paid && t.lost == view.lost && t.from == old(view.clock)
    ensures t.claims == view.claims && t.now == view.clock
    ensures Ended(t, end) && (end == Done ==> moved == Count(t.results, Moved))
  {
    var attempted: set<nat>, cursor: Option<nat> := {}, None;
    t, moved := Trip(view.claims, paid, view.lost, view.clock, view.clock, view.claims, {}, None, [], []), 0;
    ghost var start, from := view.claims, view.clock;
    assert t.Ok() && t.Decided() && !Failure(t.results);
    hide Trip.Ok, Trip.Decided, Count, Failure, Ended;
    var finished: Option<End> := None;
    while finished.None?
      invariant t.start == start && t.from == from
      invariant Matches(t, view.claims, view.clock, view.lost, paid, attempted, cursor)
      invariant finished.None? ==> t.Ok() && t.Decided() && !Failure(t.results)
      invariant finished.None? || finished == Some(Done) ==> Count(t.results, Moved) == moved
      invariant finished.Some? ==> Ended(t, finished.value)
      decreases finished.None?, |(start - paid) - attempted|, |Beyond(start, After(cursor))|
    {
      var here: nat;
      finished, attempted, cursor, here, t := TransferRound(view, paid, attempted, cursor, t);
      moved := moved + here;
    }
    end := finished.value;
  }

  /** Left alone, the walk never loses its cursor and tries every unpaid claim. */
  lemma {:induction false} UndisturbedTransfer(t: Trip, end: End)
    requires Ended(t, end) && t.lost == []
    ensures end != CursorLost
    ensures end == Done ==> Distinct(t.order) && forall h :: h in t.order <==> h in t.start - t.paid
    ensures end == Done ==> forall h :: h in t.claims <==> h in t.start && !t.LeftByMove(h)
  {
    assert forall h :: !t.Lost(h);
  }

  // ---------- restore ----------

  /** What became of one recorded move: handed back, forgotten because the owner
      deleted the blob or it is gone, kept for want of space, or failed. */
  datatype Handback = Restored | Forgotten | Over | Broken

  predicate Ends(outcome: Handback) {
    outcome == Restored || outcome == Forgotten
  }

  function Ending(hash: nat, outcome: Handback): set<nat> {
    if Ends(outcome) then {hash} else {}
  }

  function HandbackAt(answers: seq<Handback>, t: nat): Handback {
    if t < |answers| then answers[t] else Over
  }

  /** The moves recorded for one key and owner.  Before any call others may end some. */
  class Records {
    var moves: set<nat>
    var clock: nat
    const answers: seq<Handback>
    const lost: seq<set<nat>>

    constructor (moves: set<nat>, answers: seq<Handback>, lost: seq<set<nat>>)
      ensures this.moves == moves && clock == 0 && this.answers == answers && this.lost == lost
    {
      this.moves, clock, this.answers, this.lost := moves, 0, answers, lost;
    }

    method List(after: int) returns (page: seq<nat>)
      modifies this
      ensures clock == old(clock) + 1 && moves == old(moves) - TakenAt(lost, old(clock))
      ensures IsPage(page, moves, after, MOVED_PAGE)
    {
      moves, clock := moves - TakenAt(lost, clock), clock + 1;
      page := ReadPage(moves, after, MOVED_PAGE);
    }

    method HandBack(hash: nat) returns (outcome: Handback)
      modifies this
      ensures clock == old(clock) + 1 && outcome == HandbackAt(answers, old(clock))
      ensures moves == old(moves) - TakenAt(lost, old(clock)) - Ending(hash, outcome)
    {
      outcome := HandbackAt(answers, clock);
      moves, clock := moves - TakenAt(lost, clock) - Ending(hash, outcome), clock + 1;
    }
  }

  /** A restore under way: `order` is the records decided, the last of them at
      or before `upTo`, and `results` what came of them. */
  datatype Back = Back(start: set<nat>, lost: seq<set<nat>>, from: nat, now: nat, moves: set<nat>,
                       order: seq<nat>, results: seq<Handback>, upTo: int) {

    ghost predicate Lost(h: nat) {
      exists t | from <= t < now :: h in TakenAt(lost, t)
    }

    ghost predicate Ended(h: nat) {
      |results| == |order| && exists i | 0 <= i < |order| :: order[i] == h && Ends(results[i])
    }

    /** Records are decided in order, each once; those up to `upTo` are decided
        or were ended by others, and what is no longer recorded was too. */
    ghost predicate Ok() {
      && from <= now && |results| == |order| && Ascending(order) && moves <= start
      && (forall i | 0 <= i < |order| ::
            order[i] in start && order[i] <= upTo && (Ends(results[i]) ==> order[i] !in moves))
      && (forall h | h in start && h <= upTo :: h in order || Lost(h))
      && (forall h | h in start :: h !in moves <==> Lost(h) || Ended(h))
    }

    function Taken(): Back {
      this.(now := now + 1, moves := moves - TakenAt(lost, now))
    }

    function Tried(h: nat, outcome: Handback): Back {
      this.(moves := moves - Ending(h, outcome), order := order + [h], results := results + [outcome], upTo := h)
    }
  }

  lemma {:induction false} LostTaken(b: Back, h: nat)
    requires b.from <= b.now
    ensures b.Taken().Lost(h) <==> b.Lost(h) || h in TakenAt(b.lost, b.now)
    ensures b.Taken().Ended(h) <==> b.Ended(h)
  {
    if b.Lost(h) {
      var t :| b.from <= t < b.now && h in TakenAt(b.lost, t);
      assert b.from <= t < b.Taken().now && h in TakenAt(b.Taken().lost, t);
    }
    if h in TakenAt(b.lost, b.now) {
      assert b.from <= b.now < b.Taken().now && h in TakenAt(b.Taken().lost, b.now);
    }
  }

  lemma {:induction false} EndedTried(b: Back, h: nat, outcome: Handback, v: nat)
    requires |b.results| == |b.order|
    ensures b.Tried(h, outcome).Ended(v) <==> b.Ended(v) || (v == h && Ends(outcome))
    ensures b.Tried(h, outcome).Lost(v) <==> b.Lost(v)
    ensures v in b.Tried(h, outcome).order <==> v in b.order || v == h
  {
    var next := b.Tried(h, outcome);
    if b.Ended(v) {
      var i :| 0 <= i < |b.order| && b.order[i] == v && Ends(b.results[i]);
      assert next.order[i] == v && Ends(next.results[i]);
    }
    if v == h && Ends(outcome) {
      assert next.order[|b.order|] == v && Ends(next.results[|b.order|]);
    }
  }

  lemma {:induction false} BackTaken(b: Back)
    requires b.Ok()
    ensures b.Taken().Ok() && forall h | b.Lost(h) :: b.Taken().Lost(h)
  {
    hide Back.Lost, Back.Ended;
    forall h
      ensures b.Taken().Lost(h) <==> b.Lost(h) || h in TakenAt(b.lost, b.now)
      ensures b.Taken().Ended(h) <==> b.Ended(h)
    {
      LostTaken(b, h);
    }
  }

  /** `h` is the next record after `upTo` that others have not ended. */
  ghost predicate NextRecord(b: Back, h: nat) {
    h in b.start && b.upTo < h && forall v | v in b.start && b.upTo < v < h :: b.Lost(v)
  }

  lemma {:induction false} BackTried(b: Back, h: nat, outcome: Handback)
    requires b.Ok() && NextRecord(b, h)
    ensures b.Tried(h, outcome).Ok()
  {
    hide Back.Lost, Back.Ended;
    var next := b.Tried(h, outcome);
    forall v
      ensures next.Ended(v) <==> b.Ended(v) || (v == h && Ends(outcome))
      ensures next.Lost(v) <==> b.Lost(v)
      ensures v in next.order <==> v in b.order || v == h
    {
      EndedTried(b, h, outcome, v);
    }
    assert Ascending(next.order);
  }

  // ---------- one page of records ----------

  /** The first `i` records of a page that was read at `b0` are decided. */
  ghost predicate Handing(b0: Back, b: Back, page: seq<nat>, i: nat)
    requires i <= |page|
  {
    && b.start == b0.start && b.lost == b0.lost && b.from == b0.from && b0.now <= b.now
    && b.upTo == if i == 0 then b0.upTo else page[i - 1] as int
  }

  /** Nothing listed lies between two neighbours of a page. */
  lemma {:induction false} PageNext(page: seq<nat>, all: set<nat>, after: int, limit: nat, i: nat, v: nat)
    requires IsPage(page, all, after, limit) && i < |page| && v in all && after < v
    requires i == 0 || page[i - 1] < v
    ensures page[i] <= v
  {
    if v in page {
      var j :| 0 <= j < |page| && page[j] == v;
      assert i <= j;
    }
  }

  /** What the page skips was ended by others before it was read. */
  lemma {:induction false} PageIsNext(b0: Back, b: Back, page: seq<nat>, i: nat)
    requires b0.Ok() && b.Ok() && i < |page| && Handing(b0, b, page, i) && IsPage(page, b0.moves, b0.upTo, MOVED_PAGE)
    ensures NextRecord(b, page[i])
  {
    forall v | v in b.start && b.upTo < v < page[i] ensures b.Lost(v) {
      if v in b0.moves {
        PageNext(page, b0.moves, b0.upTo, MOVED_PAGE, i, v);
      } else if b0.Lost(v) {
        var t :| b0.from <= t < b0.now && v in TakenAt(b0.lost, t);
        assert b.from <= t < b.now && v in TakenAt(b.lost, t);
      }
    }
  }

  lemma {:induction false} HandStep(b0: Back, b: Back, page: seq<nat>, i: nat, outcome: Handback)
    requires b0.Ok() && b.Ok() && i < |page| && Handing(b0, b, page, i) && IsPage(page, b0.moves, b0.upTo, MOVED_PAGE)
    ensures b.Taken().Tried(page[i], outcome).Ok() && Handing(b0, b.Taken().Tried(page[i], outcome), page, i + 1)
  {
    BackTaken(b);
    PageIsNext(b0, b, page, i);
    BackTried(b.Taken(), page[i], outcome);
  }

  ghost predicate Shows(b: Back, moves: set<nat>, clock: nat, lost: seq<set<nat>>) {
    b.moves == moves && b.now == clock && b.lost == lost
  }

  ghost predicate Breaks(results: seq<Handback>) {
    Broken in results
  }

  lemma {:induction false} BreaksOne(results: seq<Handback>, more: Handback)
    ensures Breaks(results + [more]) <==> Breaks(results) || more == Broken
  {
    var all := results + [more];
    assert all[|results|] == more && forall i | 0 <= i < |results| :: all[i] == results[i];
  }

  /** One record: handed back, forgotten or kept. */
  method RestoreOne(records: Records, hash: nat, ghost b0: Back, ghost b1: Back, ghost page: seq<nat>, ghost i: nat)
    returns (ok: bool, restored: nat, kept: nat, ghost b: Back)
    requires b0.Ok() && b1.Ok() && i < |page| && hash == page[i] && !Breaks(b1.results)
    requires Handing(b0, b1, page, i) && IsPage(page, b0.moves, b0.upTo, MOVED_PAGE)
    requires Shows(b1, records.moves, records.clock, records.lost)
    modifies records
    ensures b.Ok() && Handing(b0, b, page, i + 1) && Shows(b, records.moves, records.clock, records.lost)
    ensures ok <==> !Breaks(b.results)
    ensures Count(b.results, Restored) == Count(b1.results, Restored) + restored
    ensures Count(b.results, Over) == Count(b1.results, Over) + kept
  {
    hide Back.Ok, Handing, IsPage, Breaks, Count;
    var outcome := records.HandBack(hash);
    HandStep(b0, b1, page, i, outcome);
    CountOne(b1.results, outcome, Restored);
    CountOne(b1.results, outcome, Over);
    BreaksOne(b1.results, outcome);
    b := b1.Taken().Tried(hash, outcome);
    ok, restored, kept := outcome != Broken, if outcome == Restored then 1 else 0, if outcome == Over then 1 else 0;
  }

  method RestorePage(records: Records, page: seq<nat>, ghost b0: Back)
    returns (ok: bool, restored: nat, kept: nat, ghost b: Back)
    requires b0.Ok() && page != [] && IsPage(page, b0.moves, b0.upTo, MOVED_PAGE) && !Breaks(b0.results)
    requires Shows(b0, records.moves, records.clock, records.lost)
    modifies records
    ensures b.Ok() && Shows(b, records.moves, records.clock, records.lost) && b.start == b0.start && b.from == b0.from
    ensures ok <==> !Breaks(b.results)
    ensures ok ==> b.upTo == page[|page| - 1]
    ensures Count(b.results, Restored) == Count(b0.results, Restored) + restored
    ensures Count(b.results, Over) == Count(b0.results, Over) + kept
  {
    hide Back.Ok, IsPage, Count, Breaks, Shows;
    ok, restored, kept, b := true, 0, 0, b0;
    for i := 0 to |page|
      invariant b.Ok() && Handing(b0, b, page, i) && Shows(b, records.moves, records.clock, records.lost)
      invariant ok && !Breaks(b.results)
      invariant Count(b.results, Restored) == Count(b0.results, Restored) + restored
      invariant Count(b.results, Over) == Count(b0.results, Over) + kept
    {
      var more, left: nat;
      ok, more, left, b := RestoreOne(records, page[i], b0, b, page, i);
      restored, kept := restored + more, kept + left;
      if !ok {
        return;
      }
    }
  }

  /** `restore` ends whatever others do to the records meanwhile.  It decides
      records in order, each once; done, each was decided or ended by others, and
      what stays recorded is what was over the ceiling. */
  method Restore(records: Records) returns (ok: bool, restored: nat, kept: nat, ghost b: Back)
    modifies records
    ensures b.start == old(records.moves) && b.lost == records.lost && b.from == old(records.clock)
    ensures b.moves == records.moves && b.now == records.clock && b.Ok()
    ensures ok <==> !Breaks(b.results)
    ensures ok ==>
      && (forall h | h in b.start :: h in b.order || b.Lost(h))
      && (forall h | h in records.moves :: exists i | 0 <= i < |b.order| :: b.order[i] == h && b.results[i] == Over)
    ensures restored == Count(b.results, Restored) && kept == Count(b.results, Over)
  {
    ok, restored, kept := true, 0, 0;
    b := Back(records.moves, records.lost, records.clock, records.clock, records.moves, [], [], -1);
    ghost var start, from := records.moves, records.clock;
    var after: int := -1;
    assert b.Ok() && !Breaks(b.results);
    hide Back.Ok, IsPage, Count, Breaks;
    while true
      invariant b.Ok() && b.start == start && b.from == from && b.upTo == after && !Breaks(b.results)
      invariant Shows(b, records.moves, records.clock, records.lost)
      invariant restored == Count(b.results, Restored) && kept == Count(b.results, Over)
      decreases |Beyond(start, after)|
    {
      BackTaken(b);
      var page := records.List(after);
      b := b.Taken();
      if page == [] {
        RestoreDone(b);
        return;
      }
      PageBounds(b, page);
      BeyondShrinks(start, after, page[|page| - 1]);
      var more, left: nat;
      ok, more, left, b := RestorePage(records, page, b);
      restored, kept := restored + more, kept + left;
      if !ok {
        return;
      }
      after := page[|page| - 1];
    }
  }

  lemma {:induction false} PageBounds(b: Back, page: seq<nat>)
    requires b.Ok() && page != [] && IsPage(page, b.moves, b.upTo, MOVED_PAGE)
    ensures page[|page| - 1] in b.start && b.upTo < page[|page| - 1]
  {}

  lemma {:induction false} RestoreDone(b: Back)
    requires b.Ok() && !Breaks(b.results) && IsPage([], b.moves, b.upTo, MOVED_PAGE)
    ensures forall h | h in b.start :: h in b.order || b.Lost(h)
    ensures forall h | h in b.moves :: exists i | 0 <= i < |b.order| :: b.order[i] == h && b.results[i] == Over
  {
    EmptyPage(b.moves, b.upTo, MOVED_PAGE);
    forall h | h in b.moves ensures exists i | 0 <= i < |b.order| :: b.order[i] == h && b.results[i] == Over {
      var i :| 0 <= i < |b.order| && b.order[i] == h;
      assert b.results[i] in b.results;
    }
  }

  lemma {:induction false} EmptyPage(all: set<nat>, after: int, limit: nat)
    requires IsPage([], all, after, limit) && limit > 0
    ensures forall v | v in all :: v <= after
  {}

  // ---------- adopt ----------

  function Open(claims: set<nat>, placed: set<nat>, refused: set<nat>): set<nat> {
    claims - placed - refused
  }

  /** The store took `h` beside some of what is placed in the end. */
  ghost predicate Taken(accepts: (set<nat>, nat) -> bool, first: set<nat>, placed: set<nat>, h: nat) {
    exists at | first <= at <= placed && h !in at :: accepts(at, h)
  }

  ghost predicate Refused(accepts: (set<nat>, nat) -> bool, first: set<nat>, placed: set<nat>, h: nat) {
    exists at | first <= at <= placed :: !accepts(at, h)
  }

  ghost predicate Adopting(
      claims: set<nat>, first: set<nat>, accepts: (set<nat>, nat) -> bool, placed: set<nat>, refused: set<nat>) {
    && first <= placed <= first + claims && refused <= claims - placed
    && (forall h | h in placed - first :: Taken(accepts, first, placed, h))
    && (forall h | h in refused :: Refused(accepts, first, placed, h))
  }

  /** What is refused beside some claims is refused beside more, as by a ceiling. */
  ghost predicate Antitone(accepts: (set<nat>, nat) -> bool) {
    forall few, many, h | few <= many && accepts(many, h) :: accepts(few, h)
  }

  lemma {:induction false} AdoptOne(
    claims: set<nat>, first: set<nat>, accepts: (set<nat>, nat) -> bool, placed: set<nat>, refused: set<nat>, h: nat)
    requires Adopting(claims, first, accepts, placed, refused) && h in Open(claims, placed, refused)
    ensures if accepts(placed, h) then Adopting(claims, first, accepts, placed + {h}, refused)
            else Adopting(claims, first, accepts, placed, refused + {h})
  {
    if accepts(placed, h) {
      var more := placed + {h};
      forall g | g in more - first ensures Taken(accepts, first, more, g) {
        if g == h {
          assert first <= placed <= more && h !in placed && accepts(placed, h);
        } else {
          assert Taken(accepts, first, placed, g);
          var at :| first <= at <= placed && g !in at && accepts(at, g);
          assert first <= at <= more && g !in at && accepts(at, g);
        }
      }
      forall g | g in refused ensures Refused(accepts, first, more, g) {
        assert Refused(accepts, first, placed, g);
        var at :| first <= at <= placed && !accepts(at, g);
        assert first <= at <= more && !accepts(at, g);
      }
    } else {
      assert first <= placed <= placed && !accepts(placed, h);
    }
  }

  /** A refusal stands for what is placed in the end. */
  lemma {:induction false} RefusalStands(accepts: (set<nat>, nat) -> bool, first: set<nat>, placed: set<nat>, h: nat)
    requires Antitone(accepts) && Refused(accepts, first, placed, h)
    ensures !accepts(placed, h)
  {
    var at :| first <= at <= placed && !accepts(at, h);
  }

  /** `adopt` re-places demoted claims, a batch at a time, until none is left to
      decide; `accepts` is whether the store takes one beside what is
      placed.  Under a ceiling, no claim left out would fit in the end. */
  method Adopt(claims: set<nat>, first: set<nat>, accepts: (set<nat>, nat) -> bool)
    returns (adopted: nat, refused: nat, placed: set<nat>)
    ensures Adopting(claims, first, accepts, placed, claims - placed)
    ensures adopted == |placed - first| && refused == |claims - placed|
    ensures Antitone(accepts) ==> forall h | h in claims - placed :: !accepts(placed, h)
  {
    var refusedSet: set<nat> := {};
    placed := first;
    while true
      invariant Adopting(claims, first, accepts, placed, refusedSet)
      decreases |Open(claims, placed, refusedSet)|
    {
      hide Adopting, Antitone, IsPage;
      var batch := ReadPage(Open(claims, placed, refusedSet), -1, ADOPT_BATCH);
      if batch == [] {
        AdoptDone(claims, first, accepts, placed, refusedSet);
        return |placed - first|, |refusedSet|, placed;
      }
      ghost var before := Open(claims, placed, refusedSet);
      BatchOpen(batch, before);
      placed, refusedSet := AdoptBatch(claims, first, accepts, batch, placed, refusedSet);
      SubsetSmaller(Open(claims, placed, refusedSet), before, batch[0]);
    }
  }

  lemma {:induction false} BatchOpen(batch: seq<nat>, candidates: set<nat>)
    requires IsPage(batch, candidates, -1, ADOPT_BATCH)
    ensures Ascending(batch) && forall j | 0 <= j < |batch| :: batch[j] in candidates
  {}

  method AdoptBatch(
    claims: set<nat>, first: set<nat>, accepts: (set<nat>, nat) -> bool, batch: seq<nat>, placed: set<nat>,
    refused: set<nat>)
    returns (placed': set<nat>, refused': set<nat>)
    requires Adopting(claims, first, accepts, placed, refused)
    requires Ascending(batch) && batch != [] && forall j | 0 <= j < |batch| :: batch[j] in Open(claims, placed, refused)
    ensures Adopting(claims, first, accepts, placed', refused')
    ensures Open(claims, placed', refused') <= Open(claims, placed, refused) - {batch[0]}
  {
    hide Adopting;
    placed', refused' := placed, refused;
    for i := 0 to |batch|
      invariant Adopting(claims, first, accepts, placed', refused')
      invariant forall j | i <= j < |batch| :: batch[j] in Open(claims, placed', refused')
      invariant Open(claims, placed', refused') <= Open(claims, placed, refused)
      invariant i > 0 ==> batch[0] !in Open(claims, placed', refused')
    {
      var claim := batch[i];
      AdoptOne(claims, first, accepts, placed', refused', claim);
      if accepts(placed', claim) {
        placed' := placed' + {claim};
      } else {
        refused' := refused' + {claim};
      }
    }
  }

  lemma {:induction false} AdoptDone(
    claims: set<nat>, first: set<nat>, accepts: (set<nat>, nat) -> bool, placed: set<nat>, refused: set<nat>)
    requires Adopting(claims, first, accepts, placed, refused)
    requires IsPage([], Open(claims, placed, refused), -1, ADOPT_BATCH)
    ensures refused == claims - placed
    ensures Antitone(accepts) ==> forall h | h in claims - placed :: !accepts(placed, h)
  {
    EmptyPage(Open(claims, placed, refused), -1, ADOPT_BATCH);
    assert forall h | h in claims - placed :: h in refused || h in Open(claims, placed, refused);
    if Antitone(accepts) {
      forall h | h in refused ensures !accepts(placed, h) {
        RefusalStands(accepts, first, placed, h);
      }
    }
  }
}
