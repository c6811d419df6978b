/** Reading a keeper-signed group event (`grants/group_event.rs`): its tags, its
    lifetime and its signature, before any node state is looked at. */
module GroupEvents {

  import opened Wrappers
  import opened GroupGrants

  const GROUP_KIND: nat := 27_541
  const MAX_TAGS: nat := 16
  const MAX_SCOPES: nat := 7
  const I64_MAX: nat := 0x7fff_ffff_ffff_ffff

  datatype Name = Verb | GrantId | Room | Device | Server | Bytes | Status | Expiration | ScopeTag

  function NameOf(s: string): Option<Name> {
    if s == "t" then Some(Verb) else if s == "grant" then Some(Name.GrantId) else if s == "d" then Some(Room)
    else if s == "device" then Some(Device) else if s == "server" then Some(Name.Server)
      else if s == "bytes" then Some(Bytes)
    else if s == "status" then Some(Status) else if s == "expiration" then Some(Expiration)
    else if s == "scope" then Some(ScopeTag) else None
  }

  function ScopeOf(s: string): Option<Scope> {
    if s == "upload" then Some(Upload) else if s == "get" then Some(Get) else if s == "delete" then Some(Delete)
    else if s == "purge" then Some(Purge) else if s == "turn" then Some(Turn)
      else if s == "relay-read" then Some(RelayRead)
    else if s == "relay-write" then Some(RelayWrite) else None
  }

  datatype Refused = Malformed | Lifetime | BadSignature

  type Tag = seq<string>

  datatype RawEvent = RawEvent(id: string, pubkey: string, createdAt: nat, kind: nat, tags: seq<Tag>, content: string,
    sig: string)

  // ---------- decimals ----------

  predicate IsDigit(c: char) {
    '0' <= c <= '9'
  }

  predicate IsHex(s: string, length: nat) {
    |s| == length && forall i | 0 <= i < |s| :: IsDigit(s[i]) || 'a' <= s[i] <= 'f'
  }

  function Digit(c: char): nat
    requires IsDigit(c)
  {
    c as int - '0' as int
  }

  function Value(s: string): nat
    requires forall i | 0 <= i < |s| :: IsDigit(s[i])
  {
    if s == "" then 0 else 10 * Value(s[..|s| - 1]) + Digit(s[|s| - 1])
  }

  /** `decimal`: one to nineteen digits, the first of them not zero unless it stands alone. */
  function Decimal(s: string): Option<nat> {
    if s == "" || |s| > 19 || (exists i | 0 <= i < |s| :: !IsDigit(s[i])) || (|s| > 1 && s[0] == '0') then None
    else Some(Value(s))
  }

  /** The one way to write a number. */
  function Numeral(n: nat): (s: string)
    ensures s != "" && forall i | 0 <= i < |s| :: IsDigit(s[i])
    ensures n > 0 ==> s[0] != '0'
  {
    var last := ['0' + (n % 10) as char];
    if n < 10 then last else Numeral(n / 10) + last
  }

  function Tens(k: nat): nat {
    if k == 0 then 1 else 10 * Tens(k - 1)
  }

  lemma {:induction false} NumeralReads(n: nat)
    ensures Value(Numeral(n)) == n && (|Numeral(n)| > 1 ==> Numeral(n)[0] != '0')
    ensures Tens(|Numeral(n)| - 1) <= n < Tens(|Numeral(n)|) || n == 0
  {
    var s := Numeral(n);
    var last := s[|s| - 1];
    assert Digit(last) == n % 10;
    if n >= 10 {
      NumeralReads(n / 10);
      assert s[..|s| - 1] == Numeral(n / 10);
    } else {
      assert s[..|s| - 1] == "";
    }
  }

  lemma {:induction false} ReadsNumeral(s: string)
    requires s != "" && (forall i | 0 <= i < |s| :: IsDigit(s[i])) && (|s| > 1 ==> s[0] != '0')
    ensures s == Numeral(Value(s))
    ensures |s| > 1 ==> Value(s) >= 10
  {
    var front, d := s[..|s| - 1], Digit(s[|s| - 1]);
    assert Value(s) == 10 * Value(front) + d;
    if front != "" {
      ReadsNumeral(front);
      FrontIsPositive(front);
      assert Value(s) / 10 == Value(front) && Value(s) % 10 == d;
    } else {
      assert Value(front) == 0;
    }
  }

  lemma {:induction false} FrontIsPositive(s: string)
    requires s != "" && (forall i | 0 <= i < |s| :: IsDigit(s[i])) && s[0] != '0'
    ensures Value(s) >= 1
  {
    if |s| > 1 {
      FrontIsPositive(s[..|s| - 1]);
    } else {
      assert s[..|s| - 1] == "";
    }
  }

  lemma {:induction false} TensGrow(a: nat, b: nat)
    requires a <= b
    ensures Tens(a) <= Tens(b)
  {
    if a < b {
      TensGrow(a, b - 1);
    }
  }

  /** A decimal is accepted exactly when it is the one numeral of a number below 10^19. */
  lemma {:induction false} DecimalIsCanonical(s: string, n: nat)
    ensures Decimal(s) == Some(n) <==> n < Tens(19) && s == Numeral(n)
  {
    hide Tens;
    NumeralReads(n);
    TensPositive(19);
    if n < Tens(19) && |Numeral(n)| > 19 {
      TensGrow(19, |Numeral(n)| - 1);
    }
    if Decimal(s) == Some(n) {
      ReadsNumeral(s);
      TensGrow(|s|, 19);
    }
  }

  lemma {:induction false} TensPositive(k: nat)
    ensures Tens(k) >= 1
  {
    if k > 0 {
      TensPositive(k - 1);
    }
  }

  // ---------- tags ----------

  /** The values of the tags called `name`, in order. */
  function Values(tags: seq<Tag>, name: Name): seq<string> {
    if tags == [] then [] else
    var last := tags[|tags| - 1];
    Values(tags[..|tags| - 1], name) + if |last| == 2 && NameOf(last[0]) == Some(name) then [last[1]] else []
  }

  /** Every tag is a known name with one value, and only `scope` repeats. */
  predicate Plain(tags: seq<Tag>) {
    && |tags| <= MAX_TAGS
    && (forall i | 0 <= i < |tags| :: |tags[i]| == 2 && NameOf(tags[i][0]).Some?)
    && Single(tags, Verb) && Single(tags, Name.GrantId) && Single(tags, Room) && Single(tags, Device)
    && Single(tags, Name.Server) && Single(tags, Bytes) && Single(tags, Status) && Single(tags, Expiration)
  }

  predicate Single(tags: seq<Tag>, name: Name) {
    |Values(tags, name)| <= 1
  }

  predicate Has(tags: seq<Tag>, name: Name) {
    |Values(tags, name)| == 1
  }

  /** The scopes named, when each is known and named once. */
  function Scopes(values: seq<string>): Option<set<Scope>> {
    if values == [] then Some({}) else
    var before, last := Scopes(values[..|values| - 1]), ScopeOf(values[|values| - 1]);
    if before.None? || last.None? || last.value in before.value then None else Some(before.value + {last.value})
  }

  /** Upload scopes and byte limits come together: either both are named or neither is. */
  function Ceiling(scopes: set<Scope>, values: seq<string>): Option<Option<nat>> {
    if Upload in scopes && |values| == 1 then
      var n := Decimal(values[0]);
      if n.Some? && 1 <= n.value <= I64_MAX then Some(n) else None
    else if Upload !in scopes && values == [] then Some(None)
    else None
  }

  function ReadReset(tags: seq<Tag>, isHost: string -> bool): Option<(Body, nat)> {
    if Has(tags, Room) && Has(tags, Name.Server) && Has(tags, Expiration) && Values(tags, ScopeTag) == []
       && Values(tags, Name.GrantId) == [] && Values(tags, Device) == []
       && Values(tags, Bytes) == [] && Values(tags, Status) == [] then
      var room, server, expiration := Values(tags, Room)[0], Values(tags, Name.Server)[0],
        Decimal(Values(tags, Expiration)[0]);
      if expiration.Some? && IsHex(room, 64) && isHost(server) then Some((Reset(room, server), expiration.value))
        else None
    else None
  }

  function ReadGrant(tags: seq<Tag>, keeper: string, isHost: string -> bool): Option<(Body, nat)> {
    if Has(tags, Room) && Has(tags, Name.Server) && Has(tags, Expiration) && Has(tags, Name.GrantId)
      && Has(tags, Device) && Has(tags, Status) then
      var room, server, expiration := Values(tags, Room)[0], Values(tags, Name.Server)[0],
        Decimal(Values(tags, Expiration)[0]);
      var grantId, device, status := Values(tags, Name.GrantId)[0], Values(tags, Device)[0], Values(tags, Status)[0];
      var scopes := Scopes(Values(tags, ScopeTag));
      if expiration.None? || !IsHex(room, 64) || !isHost(server) || !IsHex(grantId, 32) || !IsHex(device, 64)
         || device == keeper
         || (status != "active" && status != "revoked") || scopes.None? || scopes.value == {} then None else
      var bytes := Ceiling(scopes.value, Values(tags, Bytes));
      if bytes.None? then None
      else Some((Grant(grantId, room, device, server, scopes.value, bytes.value, status == "revoked"),
        expiration.value))
    else None
  }

  /** What the tags say, each read by its name. */
  function ReadTags(tags: seq<Tag>, keeper: string, isHost: string -> bool): Option<(Body, nat)> {
    if !Plain(tags) || !Has(tags, Verb) then None
    else if Values(tags, Verb)[0] == "grant" then ReadGrant(tags, keeper, isHost)
    else if Values(tags, Verb)[0] == "reset" then ReadReset(tags, isHost)
    else None
  }

  /** Rules 1 to 4, in order. */
  function Parse(raw: RawEvent, isHost: string -> bool, verifies: RawEvent -> bool): Result<Event, Refused> {
    if raw.kind != GROUP_KIND || raw.content != ""
       || !IsHex(raw.id, 64) || !IsHex(raw.pubkey, 64) || !IsHex(raw.sig, 128) then Err(Malformed)
    else
      match ReadTags(raw.tags, raw.pubkey, isHost)
      case None => Err(Malformed)
      case Some(read) =>
        if read.1 <= raw.createdAt || read.1 - raw.createdAt > MAX_GRANT_SECONDS then Err(Lifetime)
        else if !verifies(raw) then Err(BadSignature)
        else Ok(Event(raw.id, raw.pubkey, raw.createdAt, read.1, read.0))
  }

  /** Every event `parse` accepts meets the rules the state machine rests on. */
  lemma {:induction false} AcceptedIsParsed(raw: RawEvent, isHost: string -> bool, verifies: RawEvent -> bool)
    requires Parse(raw, isHost, verifies).Ok?
    ensures var e := Parse(raw, isHost, verifies).value;
      && Parsed(e) && verifies(raw) && e.id == raw.id && e.keeper == raw.pubkey && e.createdAt == raw.createdAt
      && (e.body.Grant? ==>
          && e.body.scopes != {} && IsHex(e.body.device, 64) && IsHex(e.body.grantId, 32)
          && (e.body.bytes.Some? ==> 1 <= e.body.bytes.value <= I64_MAX))
  {
    hide Values, Scopes, Decimal, NameOf;
  }

  // ---------- the order of the tags ----------

  lemma {:induction false} ValuesConcat(a: seq<Tag>, b: seq<Tag>, name: Name)
    ensures Values(a + b, name) == Values(a, name) + Values(b, name)
  {
    hide NameOf;
    if b == [] {
      assert a + b == a;
    } else {
      var n := |b| - 1;
      ValuesConcat(a, b[..n], name);
      assert (a + b)[..|a + b| - 1] == a + b[..n];
    }
  }

  /** Taking one tag out takes out that tag and its value, wherever it was. */
  lemma {:induction false} TakenOut(b: seq<Tag>, k: nat, name: Name)
    requires k < |b|
    ensures var rest := b[..k] + b[k + 1..];
      && multiset(b) == multiset(rest) + multiset{b[k]}
      && multiset(Values(b, name)) == multiset(Values(rest, name)) + multiset(Values([b[k]], name))
  {
    hide NameOf, Values;
    var x := b[k];
    assert b == b[..k] + [x] + b[k + 1..];
    ValuesConcat(b[..k], b[k + 1..], name);
    ValuesConcat(b[..k] + [x], b[k + 1..], name);
    ValuesConcat(b[..k], [x], name);
  }

  lemma {:induction false} ValuesShuffle(a: seq<Tag>, b: seq<Tag>, name: Name)
    requires multiset(a) == multiset(b)
    ensures multiset(Values(a, name)) == multiset(Values(b, name))
    decreases |a|
  {
    hide NameOf, Values;
    assert |a| == |multiset(a)| == |multiset(b)| == |b|;
    if a != [] {
      var n := |a| - 1;
      var x := a[n];
      assert x in multiset(a);
      var k :| 0 <= k < |b| && b[k] == x;
      TakenOut(a, n, name);
      TakenOut(b, k, name);
      var rest := b[..k] + b[k + 1..];
      assert a[..n] + a[n + 1..] == a[..n];
      assert multiset(a[..n]) == multiset(a) - multiset{x} && multiset(rest) == multiset(b) - multiset{x};
      ValuesShuffle(a[..n], rest, name);
    }
  }

  lemma {:induction false} ScopeNamesDiffer(a: string, b: string)
    requires ScopeOf(a).Some? && ScopeOf(a) == ScopeOf(b)
    ensures a == b
  {
  }

  ghost function ScopeSet(values: seq<string>): set<Scope>
    requires forall x | x in values :: ScopeOf(x).Some?
  {
    set x | x in values :: ScopeOf(x).value
  }

  /** A scope list is good when each name is known and given once, whatever the order. */
  lemma {:induction false} ScopesMean(values: seq<string>)
    ensures Scopes(values).Some? <==>
      (forall x | x in values :: ScopeOf(x).Some?) && (forall x | x in values :: multiset(values)[x] == 1)
    ensures Scopes(values).Some? ==> Scopes(values).value == ScopeSet(values)
  {
    hide ScopeOf;
    if values != [] {
      var n := |values| - 1;
      var front, last := values[..n], values[n];
      assert values == front + [last];
      ScopesMean(front);
      assert forall x :: x in values <==> x in front || x == last;
      assert multiset(values) == multiset(front) + multiset{last};
      if Scopes(front).Some? && ScopeOf(last).Some? {
        forall x | x in front && ScopeOf(x) == ScopeOf(last) ensures x == last {
          ScopeNamesDiffer(x, last);
        }
      }
    }
  }

  lemma {:induction false} ScopesShuffle(a: seq<string>, b: seq<string>)
    requires multiset(a) == multiset(b)
    ensures Scopes(a) == Scopes(b)
  {
    hide ScopeOf, Scopes;
    ScopesMean(a);
    ScopesMean(b);
    assert forall x :: x in a <==> x in multiset(a);
    assert forall x :: x in b <==> x in multiset(b);
    if Scopes(a).Some? {
      assert forall x | x in b :: multiset(b)[x] == 1;
      assert ScopeSet(a) == ScopeSet(b);
    }
  }

  lemma {:induction false} SameSingle(a: seq<string>, b: seq<string>)
    requires multiset(a) == multiset(b)
    ensures |a| == |b| && (|a| <= 1 ==> a == b)
  {
    assert |a| == |multiset(a)| == |multiset(b)| == |b|;
    if |a| == 1 {
      assert a[0] in multiset(b);
    }
  }

  lemma {:induction false} NameShuffle(a: seq<Tag>, b: seq<Tag>, name: Name)
    requires multiset(a) == multiset(b)
    ensures |Values(a, name)| == |Values(b, name)| && (|Values(a, name)| <= 1 ==> Values(a, name) == Values(b, name))
  {
    ValuesShuffle(a, b, name);
    SameSingle(Values(a, name), Values(b, name));
  }

  /** Two readers that meet the tags in different orders read the same event. */
  lemma {:induction false} OrderDoesNotMatter(a: seq<Tag>, b: seq<Tag>, keeper: string, isHost: string -> bool)
    requires multiset(a) == multiset(b)
    ensures ReadTags(a, keeper, isHost) == ReadTags(b, keeper, isHost)
  {
    hide Values, Scopes, NameOf, Decimal, Ceiling;
    forall name
      ensures |Values(a, name)| == |Values(b, name)| && (|Values(a, name)| <= 1 ==> Values(a, name) == Values(b, name))
    {
      NameShuffle(a, b, name);
    }
    ValuesShuffle(a, b, ScopeTag);
    ScopesShuffle(Values(a, ScopeTag), Values(b, ScopeTag));
    assert |a| == |multiset(a)| == |multiset(b)| == |b|;
    assert forall t :: t in a <==> t in multiset(a);
    assert forall t :: t in b <==> t in multiset(b);
    assert forall i | 0 <= i < |a| :: a[i] in b;
    assert forall i | 0 <= i < |b| :: b[i] in a;
    assert Plain(a) <==> Plain(b);
  }

  // ---------- the source's own loops ----------

  lemma {:induction false} ValuesGrow(tags: seq<Tag>, i: nat, name: Name)
    requires i <= |tags|
    ensures |Values(tags[..i], name)| <= |Values(tags, name)|
  {
    assert tags == tags[..i] + tags[i..];
    ValuesConcat(tags[..i], tags[i..], name);
  }

  /** What `tags` has gathered: the single tags by name and the scopes in order. */
  ghost predicate Gathered(tags: seq<Tag>, singles: map<Name, string>, scopes: seq<string>) {
    && (forall i | 0 <= i < |tags| :: |tags[i]| == 2 && NameOf(tags[i][0]).Some?)
    && scopes == Values(tags, ScopeTag) && ScopeTag !in singles
    && forall name | name != ScopeTag :: Values(tags, name) == if name in singles then [singles[name]] else []
  }

  lemma {:induction false} GatherStep(
      tags: seq<Tag>, singles: map<Name, string>, scopes: seq<string>, tag: Tag, name: Name)
    requires Gathered(tags, singles, scopes) && |tag| == 2 && NameOf(tag[0]) == Some(name)
    ensures name == ScopeTag ==> Gathered(tags + [tag], singles, scopes + [tag[1]])
    ensures name != ScopeTag && name !in singles ==> Gathered(tags + [tag], singles[name := tag[1]], scopes)
    ensures name != ScopeTag && name in singles ==> |Values(tags + [tag], name)| == 2
  {
    hide NameOf;
    assert (tags + [tag])[..|tags|] == tags && (tags + [tag])[|tags|] == tag;
  }

  method Gather(tags: seq<Tag>) returns (ok: bool, singles: map<Name, string>, scopes: seq<string>)
    ensures ok ==> Gathered(tags, singles, scopes)
    ensures !ok ==> !Plain(tags)
  {
    hide NameOf, Values;
    singles, scopes := map[], [];
    assert Gathered([], singles, scopes) by { NothingGathered(); }
    for i := 0 to |tags|
      invariant Gathered(tags[..i], singles, scopes)
    {
      var tag := tags[i];
      assert tags[..i + 1] == tags[..i] + [tag];
      if |tag| != 2 || NameOf(tag[0]).None? {
        return false, singles, scopes;
      }
      var name := NameOf(tag[0]).value;
      GatherStep(tags[..i], singles, scopes, tag, name);
      if name == ScopeTag {
        scopes := scopes + [tag[1]];
      } else if name in singles {
        ValuesGrow(tags, i + 1, name);
        return false, singles, scopes;
      } else {
        singles := singles[name := tag[1]];
      }
    }
    assert tags[..|tags|] == tags;
    ok := true;
  }

  lemma {:induction false} NothingGathered()
    ensures Gathered([], map[], [])
  {
  }

  lemma {:induction false} ScopesFail(values: seq<string>, i: nat)
    requires i <= |values| && Scopes(values[..i]).None?
    ensures Scopes(values).None?
    decreases |values|
  {
    hide ScopeOf;
    if i < |values| {
      assert values[..|values| - 1][..i] == values[..i];
      ScopesFail(values[..|values| - 1], i);
    } else {
      assert values[..i] == values;
    }
  }

  /** Distinct scopes fill the mask one by one, so no more than seven fit. */
  lemma {:induction false} ScopesFit(values: seq<string>)
    ensures Scopes(values).Some? ==> |Scopes(values).value| == |values| <= MAX_SCOPES
  {
    hide ScopeOf;
    if values != [] {
      ScopesFit(values[..|values| - 1]);
    }
    if Scopes(values).Some? {
      SevenScopes(Scopes(values).value);
    }
  }

  lemma {:induction false} SevenScopes(scopes: set<Scope>)
    ensures |scopes| <= 7
  {
    var all := {Upload, Get, Delete, Purge, Turn, RelayRead, RelayWrite};
    forall x | x in scopes ensures x in all {
      match x
      case Upload => case Get => case Delete => case Purge => case Turn => case RelayRead => case RelayWrite =>
    }
    assert all == scopes + (all - scopes);
  }

  /** The mask loop: each scope sets a bit that no other set. */
  method Mask(values: seq<string>) returns (r: Option<set<Scope>>)
    ensures r == Scopes(values)
  {
    hide ScopeOf;
    var mask: set<Scope> := {};
    for i := 0 to |values|
      invariant Scopes(values[..i]) == Some(mask)
    {
      var bit := ScopeOf(values[i]);
      assert values[..i + 1][..i] == values[..i] && values[..i + 1][i] == values[i];
      if bit.None? || bit.value in mask {
        ScopesFail(values, i + 1);
        return None;
      }
      mask := mask + {bit.value};
    }
    assert values[..|values|] == values;
    r := Some(mask);
  }

  /** `tags`: gathers, counts what it found, and reads the body. */
  method Tags(tags: seq<Tag>, keeper: string, isHost: string -> bool) returns (r: Option<(Body, nat)>)
    ensures r == ReadTags(tags, keeper, isHost)
  {
    hide Values, Scopes, NameOf, Decimal, Ceiling, ReadGrant, ReadReset;
    if |tags| > MAX_TAGS {
      return None;
    }
    var ok, singles, scopes := Gather(tags);
    if !ok || Verb !in singles {
      return None;
    }
    assert Plain(tags);
    if singles[Verb] == "grant" {
      r := GrantTags(tags, singles, scopes, keeper, isHost);
    } else if singles[Verb] == "reset" {
      r := ResetTags(tags, singles, scopes, isHost);
    } else {
      r := None;
    }
  }

  method ResetTags(ghost tags: seq<Tag>, singles: map<Name, string>, scopes: seq<string>, isHost: string -> bool)
      returns (r: Option<(Body, nat)>)
    requires Gathered(tags, singles, scopes) && Verb in singles
    ensures r == ReadReset(tags, isHost)
  {
    hide Values, Decimal, NameOf;
    var required := {Verb, Room, Name.Server, Expiration};
    if |singles| != |required| || !(required <= singles.Keys) {
      ghost var bare := Name.GrantId !in singles && Device !in singles && Bytes !in singles && Status !in singles;
      assert bare && required <= singles.Keys ==> singles.Keys == required;
      assert |singles| == |singles.Keys|;
      return None;
    }
    SameKeys(required, singles.Keys);
    var expiration := Decimal(singles[Expiration]);
    if expiration.None? || !IsHex(singles[Room], 64) || !isHost(singles[Name.Server]) || scopes != [] {
      return None;
    }
    r := Some((Reset(singles[Room], singles[Name.Server]), expiration.value));
  }

  lemma {:induction false} SameKeys(a: set<Name>, b: set<Name>)
    requires a <= b && |a| == |b|
    ensures a == b
  {
    assert b == a + (b - a);
  }

  method GrantTags(
      ghost tags: seq<Tag>, singles: map<Name, string>, scopes: seq<string>, keeper: string, isHost: string -> bool)
    returns (r: Option<(Body, nat)>)
    requires Gathered(tags, singles, scopes) && Verb in singles
    ensures r == ReadGrant(tags, keeper, isHost)
  {
    hide Values, Decimal, NameOf, Scopes;
    var required := {Verb, Name.GrantId, Room, Device, Name.Server, Status, Expiration};
    if !(required <= singles.Keys) {
      return None;
    }
    var expiration := Decimal(singles[Expiration]);
    if expiration.None? || !IsHex(singles[Room], 64) || !isHost(singles[Name.Server]) {
      return None;
    }
    var grantId, device, status := singles[Name.GrantId], singles[Device], singles[Status];
    if !IsHex(grantId, 32) || !IsHex(device, 64) || device == keeper || (status != "active" && status != "revoked") {
      return None;
    }
    ScopesFit(scopes);
    if scopes == [] || |scopes| > MAX_SCOPES {
      assert scopes == [] && Scopes(scopes).Some? ==> Scopes(scopes).value == {};
      return None;
    }
    var mask := Mask(scopes);
    if mask.None? {
      return None;
    }
    var bytes := Ceiling(mask.value, if Bytes in singles then [singles[Bytes]] else []);
    if bytes.None? {
      return None;
    }
    r := Some((Grant(grantId, singles[Room], device, singles[Name.Server], mask.value, bytes.value,
      status == "revoked"), expiration.value));
  }
}
