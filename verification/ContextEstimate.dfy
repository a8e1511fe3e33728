/** Where a request's input tokens go: saturating estimates, scaled to an exact total. */
module ContextEstimate {
  import opened Sequences
  import opened Sums
  import opened Wrappers

  const USIZE_MAX: nat := 0xFFFF_FFFF_FFFF_FFFF
  const U32_MAX: nat := 0xFFFF_FFFF
  const I64_MAX: nat := 0x7FFF_FFFF_FFFF_FFFF
  const U128_MAX: nat := 0xFFFF_FFFF_FFFF_FFFF_FFFF_FFFF_FFFF_FFFF

  /** Fixed-width intermediates: a value that could overflow does not verify. */
  type u128 = n: nat | n <= U128_MAX
  type i64 = n: int | -(I64_MAX as int) - 1 <= n <= I64_MAX

  datatype Kind =
    | Instructions | Skills | Capabilities | Tools | Messages
    | ToolCalls | ToolResults | Memory | Reasoning | DeferredTools

  const KINDS: seq<Kind> := [
    Instructions, Skills, Capabilities, Tools, Messages,
    ToolCalls, ToolResults, Memory, Reasoning, DeferredTools]

  function Index(kind: Kind): (i: nat)
    ensures i < |KINDS| && KINDS[i] == kind
  {
    match kind
    case Instructions => 0
    case Skills => 1
    case Capabilities => 2
    case Tools => 3
    case Messages => 4
    case ToolCalls => 5
    case ToolResults => 6
    case Memory => 7
    case Reasoning => 8
    case DeferredTools => 9
  }

  datatype Marker = AttachmentContext | ContextCompacted | OtherMarker

  datatype ItemType = FunctionCall | FunctionCallOutput | ReasoningItem | ToolLoad | OtherType

  datatype Input = Input(marker: Option<Marker>, itemType: ItemType, tokens: nat)

  function InputKind(item: Input): Kind {
    match item.marker
    case Some(AttachmentContext) => Messages
    case Some(ContextCompacted) => Messages
    case Some(OtherMarker) => Memory
    case None =>
      match item.itemType
      case FunctionCall => ToolCalls
      case FunctionCallOutput => ToolResults
      case ReasoningItem => Reasoning
      case ToolLoad => Messages
      case OtherType => Messages
  }

  function Clamp(n: nat, limit: nat): nat {
    if n > limit then limit else n
  }

  function TokensIn(kind: Kind): Input -> nat {
    (item: Input) => if !item.itemType.ToolLoad? && InputKind(item) == kind then item.tokens else 0
  }

  function ItemsIn(kind: Kind): Input -> nat {
    (item: Input) => if !item.itemType.ToolLoad? && InputKind(item) == kind then 1 else 0
  }

  datatype Part = Part(kind: Kind, tokens: nat, items: nat)

  datatype ContextBreakdown = ContextBreakdown(parts: seq<Part>, compactionBuffer: nat)

  // ---------- what a breakdown must be ----------

  /** The tokens of the first `n` kinds, leaving out the deferred tools. */
  function Counted(tokens: seq<nat>, n: nat): nat
    requires n <= |tokens| == |KINDS|
  {
    if n == 0 then 0
    else Counted(tokens, n - 1) + if KINDS[n - 1].DeferredTools? then 0 else tokens[n - 1]
  }

  /** A part's floor: its proportional share of the provider's total. */
  function Share(tokens: nat, total: nat, counted: nat): nat {
    if counted == 0 then 0 else tokens * total / counted
  }

  /** The scaled tokens of a kind before the remainder is given out. */
  function Scaled(tokens: seq<nat>, kind: Kind, total: nat): nat
    requires |tokens| == |KINDS|
  {
    if kind.DeferredTools? then Clamp(tokens[Index(kind)], I64_MAX)
    else Share(tokens[Index(kind)], total, Counted(tokens, |KINDS|))
  }

  predicate KeyLess(a: Part, b: Part) {
    if a.kind.DeferredTools? != b.kind.DeferredTools? then b.kind.DeferredTools?
    else a.tokens > b.tokens
  }

  /** Descending tokens, deferred tools last, ties in the fixed order of kinds. */
  predicate Before(a: Part, b: Part) {
    KeyLess(a, b) || (!KeyLess(b, a) && Index(a.kind) < Index(b.kind))
  }

  function LiveTokens(): Part -> nat {
    (p: Part) => if p.kind.DeferredTools? then 0 else p.tokens
  }

  function LiveCount(): Part -> nat {
    (p: Part) => if p.kind.DeferredTools? then 0 else 1
  }

  function LiveSource(tokens: seq<nat>): Part -> nat
    requires |tokens| == |KINDS|
  {
    (p: Part) => if p.kind.DeferredTools? then 0 else tokens[Index(p.kind)]
  }

  /** The part of every kind with tokens, in the fixed order of kinds, before sorting. */
  function RawParts(tokens: seq<nat>, items: seq<nat>, total: nat, n: nat): seq<Part>
    requires n <= |tokens| == |items| == |KINDS|
  {
    if n == 0 then []
    else
      RawParts(tokens, items, total, n - 1)
      + if tokens[n - 1] > 0
        then [Part(KINDS[n - 1], Scaled(tokens, KINDS[n - 1], total), items[n - 1])] else []
  }

  /** One part for every kind with tokens, carrying its items. */
  ghost predicate Covers(parts: seq<Part>, tokens: seq<nat>, items: seq<nat>)
    requires |tokens| == |items| == |KINDS|
  {
    && (forall i :: 0 <= i < |parts| ==>
          tokens[Index(parts[i].kind)] > 0 && parts[i].items == items[Index(parts[i].kind)])
    && (forall kind :: tokens[Index(kind)] > 0 ==> exists i :: 0 <= i < |parts| && parts[i].kind == kind)
  }

  ghost predicate Ordered(parts: seq<Part>) {
    forall i, j :: 0 <= i < j < |parts| ==> Before(parts[i], parts[j])
  }

  ghost predicate AllScaled(parts: seq<Part>, tokens: seq<nat>, total: nat)
    requires |tokens| == |KINDS|
  {
    forall i :: 0 <= i < |parts| ==> parts[i].tokens == Scaled(tokens, parts[i].kind, total)
  }

  /**
   An exact partition of the total: every part in descending order, its floor for each but the
   first, and the first so much above its floor that the counted parts add up to the total.
   */
  ghost predicate Partitions(parts: seq<Part>, tokens: seq<nat>, items: seq<nat>, total: nat)
    requires |tokens| == |items| == |KINDS|
  {
    && Covers(parts, tokens, items)
    && Ordered(parts)
    && AllScaled(parts[if parts == [] then 0 else 1..], tokens, total)
    && (parts != [] ==>
          var first, floor := parts[0], Scaled(tokens, parts[0].kind, total);
          && Ordered(parts[0 := first.(tokens := floor)])
          && if first.kind.DeferredTools? then first.tokens == floor
             else
               && floor <= first.tokens < floor + Sum(LiveCount(), parts)
               && Sum(LiveTokens(), parts) == total)
  }

  // ---------- the categories and the shares, written out ----------

  /** Where an input item counts: its marker decides first, its type only without one. */
  lemma KindsAre(item: Input, kind: Kind)
    ensures TokensIn(kind)(item) == (if item.itemType != ToolLoad && InputKind(item) == kind then item.tokens else 0)
    ensures ItemsIn(kind)(item) == (if item.itemType != ToolLoad && InputKind(item) == kind then 1 else 0)
    ensures InputKind(item) == Memory <==> item.marker == Some(OtherMarker)
    ensures InputKind(item) == ToolCalls <==> item.marker == None && item.itemType == FunctionCall
    ensures InputKind(item) == ToolResults <==> item.marker == None && item.itemType == FunctionCallOutput
    ensures InputKind(item) == Reasoning <==> item.marker == None && item.itemType == ReasoningItem
    ensures InputKind(item) == Messages <==>
            || item.marker == Some(AttachmentContext) || item.marker == Some(ContextCompacted)
            || (item.marker == None && (item.itemType == ToolLoad || item.itemType == OtherType))
  {
  }

  /** The counted tokens are those of the first nine kinds, without the deferred tools. */
  lemma CountedAre(t: seq<nat>)
    requires |t| == 10
    ensures Counted(t, 10) == t[0] + t[1] + t[2] + t[3] + t[4] + t[5] + t[6] + t[7] + t[8]
  {
    assert KINDS[9] == DeferredTools;
    CountedFrom(t, 9);
    CountedFrom(t, 6);
    CountedFrom(t, 3);
  }

  lemma CountedFrom(t: seq<nat>, n: nat)
    requires |t| == 10 && 3 <= n <= 9
    ensures Counted(t, 0) == 0
    ensures Counted(t, n) == Counted(t, n - 3) + t[n - 3] + t[n - 2] + t[n - 1]
  {
    assert Counted(t, n - 2) == Counted(t, n - 3) + t[n - 3];
    assert Counted(t, n - 1) == Counted(t, n - 2) + t[n - 2];
  }

  /** A share is the proportional part of the total, rounded down. */
  lemma ShareIs(tokens: nat, total: nat, counted: nat)
    requires counted > 0
    ensures Share(tokens, total, counted) * counted <= tokens * total < (Share(tokens, total, counted) + 1) * counted
  {
    var product := tokens * total;
    assert product == product / counted * counted + product % counted;
  }

  /** Deferred tools come last, more tokens first, and ties in the order of the kinds. */
  lemma OrderIs(parts: seq<Part>, i: nat, j: nat)
    requires Ordered(parts) && i < j < |parts|
    ensures parts[i].kind == DeferredTools ==> parts[j].kind == DeferredTools
    ensures (parts[i].kind == DeferredTools <==> parts[j].kind == DeferredTools) ==>
              parts[i].tokens >= parts[j].tokens
    ensures (parts[i].kind == DeferredTools <==> parts[j].kind == DeferredTools)
            && parts[i].tokens == parts[j].tokens ==>
              exists a, b :: 0 <= a < b < |KINDS| && KINDS[a] == parts[i].kind && KINDS[b] == parts[j].kind
  {
    assert Before(parts[i], parts[j]);
    if !KeyLess(parts[i], parts[j]) {
      assert Index(parts[i].kind) < Index(parts[j].kind);
    }
  }

  class ContextEstimate {
    const tokens: array<nat>
    const items: array<nat>

    ghost predicate Valid()
      reads this, tokens, items
    {
      && tokens.Length == items.Length == |KINDS| && tokens != items
      && (forall i :: 0 <= i < |KINDS| ==> tokens[i] <= USIZE_MAX && items[i] <= U32_MAX)
    }

    constructor ()
      ensures Valid() && fresh(tokens) && fresh(items)
      ensures forall i :: 0 <= i < |KINDS| ==> tokens[i] == 0 && items[i] == 0
    {
      tokens := new nat[|KINDS|](_ => 0);
      items := new nat[|KINDS|](_ => 0);
    }

    method Add(kind: Kind, more: nat)
      requires Valid()
      modifies tokens, items
      ensures Valid()
      ensures tokens[..] == old(tokens[..])[Index(kind) := Clamp(old(tokens[Index(kind)]) + more, USIZE_MAX)]
      ensures items[..] == old(items[..])[Index(kind) := Clamp(old(items[Index(kind)]) + 1, U32_MAX)]
    {
      var i := Index(kind);
      tokens[i] := if tokens[i] + more > USIZE_MAX then USIZE_MAX else tokens[i] + more;
      items[i] := if items[i] + 1 > U32_MAX then U32_MAX else items[i] + 1;
    }

    /** Saturating additions end at the clamped sum, in whatever order the items come. */
    method AddInput(input: seq<Input>)
      requires Valid()
      modifies tokens, items
      ensures Valid()
      ensures forall kind ::
                tokens[Index(kind)] == Clamp(old(tokens[Index(kind)]) + Sum(TokensIn(kind), input), USIZE_MAX)
      ensures forall kind ::
                items[Index(kind)] == Clamp(old(items[Index(kind)]) + Sum(ItemsIn(kind), input), U32_MAX)
    {
      hide Index, InputKind, Sum;
      forall kind ensures Sum(TokensIn(kind), input[..0]) == 0 && Sum(ItemsIn(kind), input[..0]) == 0 {
        SumNothing(TokensIn(kind));
        SumNothing(ItemsIn(kind));
      }
      var i := 0;
      while i < |input|
        invariant i <= |input| && Valid()
        invariant forall kind :: tokens[Index(kind)]
                                 == Clamp(old(tokens[Index(kind)]) + Sum(TokensIn(kind), input[..i]), USIZE_MAX)
        invariant forall kind :: items[Index(kind)]
                                 == Clamp(old(items[Index(kind)]) + Sum(ItemsIn(kind), input[..i]), U32_MAX)
      {
        forall kind
          ensures Sum(TokensIn(kind), input[..i + 1])
                  == Sum(TokensIn(kind), input[..i]) + TokensIn(kind)(input[i])
          ensures Sum(ItemsIn(kind), input[..i + 1])
                  == Sum(ItemsIn(kind), input[..i]) + ItemsIn(kind)(input[i])
        {
          assert input[..i + 1] == input[..i] + [input[i]];
          SumPush(TokensIn(kind), input[..i], input[i]);
          SumPush(ItemsIn(kind), input[..i], input[i]);
        }
        if !input[i].itemType.ToolLoad? {
          Step(InputKind(input[i]), input[i].tokens);
        }
        i := i + 1;
      }
      assert input[..|input|] == input;
    }

    /** One addition, seen kind by kind. */
    method Step(kind: Kind, more: nat)
      requires Valid()
      modifies tokens, items
      ensures Valid()
      ensures forall k: Kind :: tokens[Index(k)] == if k == kind then Clamp(old(tokens[Index(k)]) + more, USIZE_MAX)
                                                   else old(tokens[Index(k)])
      ensures forall k: Kind :: items[Index(k)] == if k == kind then Clamp(old(items[Index(k)]) + 1, U32_MAX)
                                                  else old(items[Index(k)])
    {
      Add(kind, more);
      forall k: Kind
        ensures tokens[Index(k)] == if k == kind then Clamp(old(tokens[Index(k)]) + more, USIZE_MAX)
                                    else old(tokens[Index(k)])
        ensures items[Index(k)] == if k == kind then Clamp(old(items[Index(k)]) + 1, U32_MAX)
                                   else old(items[Index(k)])
      {
        assert tokens[..][Index(k)] == tokens[Index(k)] && items[..][Index(k)] == items[Index(k)];
      }
    }

    /** The estimated tokens that count towards the provider's total. */
    method CountedTokens() returns (counted: u128)
      requires Valid()
      ensures counted == Counted(tokens[..], |KINDS|)
    {
      counted := 0;
      var i := 0;
      while i < |KINDS|
        invariant i <= |KINDS|
        invariant counted == Counted(tokens[..], i) && counted <= i * USIZE_MAX
      {
        if !KINDS[i].DeferredTools? {
          counted := counted + tokens[i];
        }
        i := i + 1;
      }
    }

    /** The unsorted parts, in the fixed order of kinds. */
    method Parts(total: nat) returns (parts: seq<Part>)
      requires Valid() && total <= I64_MAX
      ensures parts == RawParts(tokens[..], items[..], total, |KINDS|)
    {
      hide Counted, Scaled;
      var counted := CountedTokens();
      parts := [];
      var i := 0;
      while i < |KINDS|
        invariant i <= |KINDS|
        invariant parts == RawParts(tokens[..], items[..], total, i)
      {
        if tokens[i] > 0 {
          var scaled := ScaledTokens(i, total, counted);
          parts := parts + [Part(KINDS[i], scaled, items[i])];
        }
        i := i + 1;
      }
    }

    method ScaledTokens(i: nat, total: nat, counted: u128) returns (scaled: i64)
      requires Valid() && total <= I64_MAX && i < |KINDS| && tokens[i] > 0
      requires counted == Counted(tokens[..], |KINDS|)
      ensures scaled == Scaled(tokens[..], KINDS[i], total) >= 0
    {
      assert Index(KINDS[i]) == i;
      if KINDS[i].DeferredTools? {
        scaled := if tokens[i] > I64_MAX then I64_MAX else tokens[i];
      } else {
        CountedHolds(tokens[..], |KINDS|, i);
        ProductFits(tokens[i], total);
        var product: u128 := tokens[i] * total;
        ShareAtMost(tokens[i], total, counted);
        scaled := product / counted;
      }
    }

    /**
     The parts scaled to the provider's total. Whenever some part counts, the counted parts add up
     to the total exactly, in descending order: each is the floor of its share, but for the first,
     which gets the remainder of less than one token per part.
     */
    method Breakdown(inputTokens: i64, compactionBuffer: i64) returns (b: ContextBreakdown)
      requires Valid()
      ensures b.compactionBuffer == if compactionBuffer < 0 then 0 else compactionBuffer
      ensures var total := if inputTokens < 0 then 0 else inputTokens;
              Partitions(b.parts, tokens[..], items[..], total)
    {
      hide Before, Counted, Covers, Ordered, AllScaled, RawParts, Partitions, LiveTokens;
      var total: nat := if inputTokens < 0 then 0 else inputTokens;
      var raw := Parts(total);
      RawShape(tokens[..], items[..], total);
      var parts := SortByKey(raw);
      SortedShape(raw, parts, tokens[..], items[..], total);
      SumPermutation(LiveSource(tokens[..]), raw, parts);
      if parts != [] && !parts[0].kind.DeferredTools? {
        RemainderIsSmall(parts, tokens[..], items[..], total);
        var handedOut := HandedOut(parts, total);
        var remainder: i64 := total - handedOut;
        LiveAt(parts, 0);
        var largest: i64 := parts[0].tokens + remainder;
        LargestPartitions(parts, tokens[..], items[..], total, largest);
        parts := parts[0 := parts[0].(tokens := largest)];
      } else {
        FloorsPartition(parts, tokens[..], items[..], total);
      }
      b := ContextBreakdown(parts, if compactionBuffer < 0 then 0 else compactionBuffer);
    }
  }

  /** The sum of the counted parts, never above the total on the way. */
  method HandedOut(parts: seq<Part>, total: nat) returns (sum: i64)
    requires Sum(LiveTokens(), parts) <= total <= I64_MAX
    ensures sum == Sum(LiveTokens(), parts)
  {
    sum := 0;
    var i := 0;
    while i < |parts|
      invariant i <= |parts|
      invariant sum == Sum(LiveTokens(), parts[..i])
    {
      assert parts[..i + 1][..i] == parts[..i];
      SumPrefix(LiveTokens(), parts, i + 1);
      if !parts[i].kind.DeferredTools? {
        sum := sum + parts[i].tokens;
      }
      i := i + 1;
    }
    assert parts[..|parts|] == parts;
  }

  // ---------- sorting ----------

  /** The library's stable sort, by insertion: ties keep their order. */
  method SortByKey(parts: seq<Part>) returns (sorted: seq<Part>)
    requires forall i, j :: 0 <= i < j < |parts| ==> Index(parts[i].kind) < Index(parts[j].kind)
    ensures multiset(sorted) == multiset(parts)
    ensures Ordered(sorted)
  {
    sorted := [];
    var i := 0;
    while i < |parts|
      invariant i <= |parts|
      invariant multiset(sorted) == multiset(parts[..i])
      invariant Ordered(sorted)
    {
      assert parts[..i + 1] == parts[..i] + [parts[i]];
      forall k | 0 <= k < |sorted| ensures Index(sorted[k].kind) < Index(parts[i].kind) {
        assert sorted[k] in multiset(parts[..i]);
        var m :| 0 <= m < i && parts[..i][m] == sorted[k];
      }
      sorted := InsertSorted(sorted, parts[i]);
      i := i + 1;
    }
    assert parts[..|parts|] == parts;
  }

  method InsertSorted(sorted: seq<Part>, part: Part) returns (r: seq<Part>)
    requires Ordered(sorted)
    requires forall k :: 0 <= k < |sorted| ==> Index(sorted[k].kind) < Index(part.kind)
    ensures multiset(r) == multiset(sorted) + multiset{part}
    ensures Ordered(r)
  {
    hide Ordered, KeyLess, Before;
    var at := |sorted|;
    while at > 0 && KeyLess(part, sorted[at - 1])
      invariant 0 <= at <= |sorted|
      invariant forall k :: at <= k < |sorted| ==> KeyLess(part, sorted[k])
    {
      at := at - 1;
    }
    InsertKeepsOrder(sorted, part, at);
    r := InsertAt(sorted, at, part);
    assert sorted == sorted[..at] + sorted[at..];
  }

  lemma InsertKeepsOrder(sorted: seq<Part>, part: Part, at: nat)
    requires at <= |sorted| && Ordered(sorted)
    requires forall k :: 0 <= k < |sorted| ==> Index(sorted[k].kind) < Index(part.kind)
    requires forall k :: at <= k < |sorted| ==> KeyLess(part, sorted[k])
    requires at > 0 ==> !KeyLess(part, sorted[at - 1])
    ensures Ordered(InsertAt(sorted, at, part))
  {
    hide Before, KeyLess;
    var r := InsertAt(sorted, at, part);
    forall j, k | 0 <= j < k < |r| ensures Before(r[j], r[k]) {
      if j == at {
        KeyDecides(part, sorted[k - 1]);
      } else if k == at {
        if j < at - 1 { assert Before(sorted[j], sorted[at - 1]); }
        StaysBehind(sorted[j], sorted[at - 1], part);
      } else {
        assert Before(sorted[if j < at then j else j - 1], sorted[if k < at then k else k - 1]);
      }
    }
  }

  lemma KeyDecides(a: Part, b: Part)
    requires KeyLess(a, b)
    ensures Before(a, b)
  {
  }

  lemma StaysBehind(a: Part, b: Part, part: Part)
    requires a == b || Before(a, b)
    requires !KeyLess(part, b) && Index(a.kind) < Index(part.kind)
    ensures Before(a, part)
  {
  }

  lemma {:induction false} RawOrder(tokens: seq<nat>, items: seq<nat>, total: nat, n: nat)
    requires n <= |tokens| == |items| == |KINDS|
    ensures var parts := RawParts(tokens, items, total, n);
            && AllScaled(parts, tokens, total)
            && (forall i :: 0 <= i < |parts| ==>
                  && Index(parts[i].kind) < n && tokens[Index(parts[i].kind)] > 0
                  && parts[i].items == items[Index(parts[i].kind)])
            && (forall i, j :: 0 <= i < j < |parts| ==> Index(parts[i].kind) < Index(parts[j].kind))
  {
    hide Scaled;
    if n > 0 {
      RawOrder(tokens, items, total, n - 1);
      KindAt(n - 1);
    }
  }

  lemma KindAt(i: nat)
    requires i < |KINDS|
    ensures Index(KINDS[i]) == i
  {
  }

  lemma {:induction false} RawSource(tokens: seq<nat>, items: seq<nat>, total: nat, n: nat)
    requires n <= |tokens| == |items| == |KINDS|
    ensures Sum(LiveSource(tokens), RawParts(tokens, items, total, n)) == Counted(tokens, n)
  {
    hide Scaled, Index, Sum;
    if n > 0 {
      RawSource(tokens, items, total, n - 1);
      KindAt(n - 1);
      var front := RawParts(tokens, items, total, n - 1);
      SumPush(LiveSource(tokens), front, Part(KINDS[n - 1], Scaled(tokens, KINDS[n - 1], total), items[n - 1]));
      assert front + [] == front;
    } else {
      SumNothing(LiveSource(tokens));
    }
  }

  lemma SumNothing<T>(weight: T -> nat)
    ensures Sum(weight, []) == 0
  {
  }

  lemma {:induction false} RawHas(tokens: seq<nat>, items: seq<nat>, total: nat, n: nat, kind: Kind)
    requires n <= |tokens| == |items| == |KINDS|
    requires Index(kind) < n && tokens[Index(kind)] > 0
    ensures exists i :: 0 <= i < |RawParts(tokens, items, total, n)|
                        && RawParts(tokens, items, total, n)[i].kind == kind
  {
    hide Scaled;
    var front, parts := RawParts(tokens, items, total, n - 1), RawParts(tokens, items, total, n);
    if Index(kind) == n - 1 {
      assert parts[|front|].kind == kind;
    } else {
      RawHas(tokens, items, total, n - 1, kind);
      var i :| 0 <= i < |front| && front[i].kind == kind;
      assert parts[i].kind == kind;
    }
  }

  lemma RawShape(tokens: seq<nat>, items: seq<nat>, total: nat)
    requires |tokens| == |items| == |KINDS|
    ensures var parts := RawParts(tokens, items, total, |KINDS|);
            && AllScaled(parts, tokens, total) && Covers(parts, tokens, items)
            && (forall i, j :: 0 <= i < j < |parts| ==> Index(parts[i].kind) < Index(parts[j].kind))
            && Sum(LiveSource(tokens), parts) == Counted(tokens, |KINDS|)
  {
    hide Scaled, RawParts, Sum, Counted, AllScaled;
    RawOrder(tokens, items, total, |KINDS|);
    RawSource(tokens, items, total, |KINDS|);
    forall kind | tokens[Index(kind)] > 0
      ensures exists i :: 0 <= i < |RawParts(tokens, items, total, |KINDS|)|
                          && RawParts(tokens, items, total, |KINDS|)[i].kind == kind
    {
      RawHas(tokens, items, total, |KINDS|, kind);
    }
  }

  lemma SortedShape(raw: seq<Part>, parts: seq<Part>, tokens: seq<nat>, items: seq<nat>, total: nat)
    requires |tokens| == |items| == |KINDS|
    requires Covers(raw, tokens, items) && AllScaled(raw, tokens, total)
    requires multiset(parts) == multiset(raw)
    ensures Covers(parts, tokens, items) && AllScaled(parts, tokens, total)
  {
    hide Scaled;
    forall i | 0 <= i < |parts|
      ensures tokens[Index(parts[i].kind)] > 0 && parts[i].items == items[Index(parts[i].kind)]
              && parts[i].tokens == Scaled(tokens, parts[i].kind, total)
    {
      assert parts[i] in multiset(raw);
      assert parts[i] in raw;
    }
    forall kind | tokens[Index(kind)] > 0
      ensures exists i :: 0 <= i < |parts| && parts[i].kind == kind
    {
      var k :| 0 <= k < |raw| && raw[k].kind == kind;
      assert raw[k] in multiset(parts);
      assert raw[k] in parts;
    }
  }

  lemma LiveAt(parts: seq<Part>, i: nat)
    requires i < |parts| && !parts[i].kind.DeferredTools?
    ensures parts[i].tokens <= Sum(LiveTokens(), parts)
  {
    SumPositive(LiveTokens(), parts, i);
  }

  /** Giving the first part the whole remainder keeps it first and makes the sum exact. */
  lemma LargestPartitions(parts: seq<Part>, tokens: seq<nat>, items: seq<nat>, total: nat, largest: nat)
    requires |tokens| == |items| == |KINDS| && parts != [] && !parts[0].kind.DeferredTools?
    requires Covers(parts, tokens, items) && Ordered(parts) && AllScaled(parts, tokens, total)
    requires parts[0].tokens <= largest == parts[0].tokens + total - Sum(LiveTokens(), parts)
    requires total < Sum(LiveTokens(), parts) + Sum(LiveCount(), parts)
    ensures Partitions(parts[0 := parts[0].(tokens := largest)], tokens, items, total)
  {
    hide Scaled;
    var after := parts[0 := parts[0].(tokens := largest)];
    SumUpdate(LiveTokens(), parts, 0, parts[0].(tokens := largest));
    SumUpdate(LiveCount(), parts, 0, parts[0].(tokens := largest));
    assert after[0 := parts[0]] == parts;
    CoversUpdate(parts, tokens, items, largest);
    LargerStaysFirst(parts, largest);
    assert after[1..] == parts[1..];
  }

  lemma CoversUpdate(parts: seq<Part>, tokens: seq<nat>, items: seq<nat>, largest: nat)
    requires |tokens| == |items| == |KINDS| && parts != [] && Covers(parts, tokens, items)
    ensures Covers(parts[0 := parts[0].(tokens := largest)], tokens, items)
  {
    var after := parts[0 := parts[0].(tokens := largest)];
    forall kind | tokens[Index(kind)] > 0
      ensures exists i :: 0 <= i < |after| && after[i].kind == kind
    {
      var k :| 0 <= k < |parts| && parts[k].kind == kind;
      assert after[k].kind == kind;
    }
  }

  lemma FloorsPartition(parts: seq<Part>, tokens: seq<nat>, items: seq<nat>, total: nat)
    requires |tokens| == |items| == |KINDS| && (parts == [] || parts[0].kind.DeferredTools?)
    requires Covers(parts, tokens, items) && Ordered(parts) && AllScaled(parts, tokens, total)
    ensures Partitions(parts, tokens, items, total)
  {
    hide Scaled;
    if parts != [] {
      assert parts[0 := parts[0].(tokens := Scaled(tokens, parts[0].kind, total))] == parts;
    }
  }

  /** Giving the first part more keeps it first. */
  lemma LargerStaysFirst(parts: seq<Part>, largest: nat)
    requires parts != [] && !parts[0].kind.DeferredTools? && parts[0].tokens <= largest
    requires Ordered(parts)
    ensures Ordered(parts[0 := parts[0].(tokens := largest)])
  {
    var after := parts[0 := parts[0].(tokens := largest)];
    forall i, j | 0 <= i < j < |after| ensures Before(after[i], after[j]) {
      assert Before(parts[i], parts[j]);
    }
  }

  // ---------- arithmetic of shares ----------

  lemma {:induction false} CountedHolds(tokens: seq<nat>, n: nat, i: nat)
    requires i < n <= |tokens| == |KINDS| && !KINDS[i].DeferredTools?
    ensures tokens[i] <= Counted(tokens, n)
    decreases n
  {
    if i < n - 1 {
      CountedHolds(tokens, n - 1, i);
    }
  }

  lemma ProductFits(tokens: nat, total: nat)
    requires tokens <= USIZE_MAX && total <= I64_MAX
    ensures tokens * total <= U128_MAX
  {
    MulMono(tokens, USIZE_MAX, total);
    MulMono(total, I64_MAX, USIZE_MAX);
  }

  lemma MulMono(a: nat, b: nat, c: nat)
    requires a <= b
    ensures a * c <= b * c
  {
  }

  lemma DivMul(a: nat, c: nat)
    requires c > 0
    ensures a / c * c <= a <= a / c * c + (c - 1)
  {
  }

  lemma MulCancel(a: nat, b: nat, c: nat)
    requires c > 0 && a * c <= b * c
    ensures a <= b
  {
  }

  /** A share of the total is at most the total. */
  lemma ShareAtMost(tokens: nat, total: nat, counted: nat)
    requires 0 < counted && tokens <= counted
    ensures tokens * total / counted <= total
  {
    MulMono(tokens, counted, total);
    DivMul(tokens * total, counted);
    MulCancel(tokens * total / counted, total, counted);
  }

  /** The floors together miss less than one unit per part. */
  lemma {:induction false} SharesSum(parts: seq<Part>, tokens: seq<nat>, total: nat, counted: nat)
    requires |tokens| == |KINDS| && counted > 0
    requires forall i :: 0 <= i < |parts| && !parts[i].kind.DeferredTools? ==>
                           parts[i].tokens == Share(tokens[Index(parts[i].kind)], total, counted)
    ensures Sum(LiveTokens(), parts) * counted <= Sum(LiveSource(tokens), parts) * total
    ensures Sum(LiveSource(tokens), parts) * total
            <= Sum(LiveTokens(), parts) * counted + Sum(LiveCount(), parts) * (counted - 1)
    decreases |parts|
  {
    if parts != [] {
      var front, last := parts[..|parts| - 1], parts[|parts| - 1];
      SharesSum(front, tokens, total, counted);
      if !last.kind.DeferredTools? {
        var t := tokens[Index(last.kind)];
        DivMul(t * total, counted);
        Distribute(Sum(LiveTokens(), front), last.tokens, counted);
        Distribute(Sum(LiveSource(tokens), front), t, total);
        Distribute(Sum(LiveCount(), front), 1, counted - 1);
      }
    }
  }

  lemma Distribute(a: nat, b: nat, c: nat)
    ensures (a + b) * c == a * c + b * c
  {
  }

  lemma RemainderIsSmall(parts: seq<Part>, tokens: seq<nat>, items: seq<nat>, total: nat)
    requires |tokens| == |items| == |KINDS| && Covers(parts, tokens, items)
    requires AllScaled(parts, tokens, total)
    requires parts != [] && !parts[0].kind.DeferredTools?
    requires Sum(LiveSource(tokens), parts) == Counted(tokens, |KINDS|)
    ensures Sum(LiveTokens(), parts) <= total < Sum(LiveTokens(), parts) + Sum(LiveCount(), parts)
  {
    hide Counted;
    var counted := Counted(tokens, |KINDS|);
    CountedHolds(tokens, |KINDS|, Index(parts[0].kind));
    SharesSum(parts, tokens, total, counted);
    SumPositive(LiveCount(), parts, 0);
    Squeeze(Sum(LiveTokens(), parts), Sum(LiveCount(), parts), total, counted);
  }

  lemma Squeeze(sum: nat, n: nat, total: nat, counted: nat)
    requires counted > 0 && n > 0
    requires sum * counted <= counted * total <= sum * counted + n * (counted - 1)
    ensures sum <= total < sum + n
  {
    MulCancel(sum, total, counted);
    Distribute(sum, n, counted);
    assert n * (counted - 1) == n * counted - n;
    MulLess(total, sum + n, counted);
  }

  lemma MulLess(a: nat, b: nat, c: nat)
    requires a * c < b * c
    ensures a < b
  {
  }
}
