/** Provisional history for one model boundary, and the rewrites that advance its epoch. */
module StagedInput {
  import opened Checkpoint
  import opened Wrappers

  datatype PartType = InputText | InputImage | OtherPart

  /** A content part; `marker` is its prompt-cache breakpoint, which only counts when true. */
  datatype Part = Part(partType: PartType, body: string, marker: Option<bool>)

  datatype Item = Item(content: Option<seq<Part>>, rest: string)

  datatype Reason = AttachmentsReason | CompactionReason | ModelChangeReason | MemoryReason

  // ---------- the plain list that staging refines ----------

  datatype Edit = Push(item: Item) | Replace(items: seq<Item>) | Mutate(edit: seq<Item> -> seq<Item>)

  function Edited(items: seq<Item>, edit: Edit): seq<Item> {
    match edit
    case Push(item) => items + [item]
    case Replace(replacement) => replacement
    case Mutate(f) => f(items)
  }

  function EditedAll(items: seq<Item>, edits: seq<Edit>): seq<Item>
    decreases |edits|
  {
    if edits == [] then items
    else Edited(EditedAll(items, edits[..|edits| - 1]), edits[|edits| - 1])
  }

  /** History that borrows its immutable prefix and owns only new or replaced items. */
  class StagedInput {
    const original: seq<Item>
    var appended: seq<Item>
    var replacement: Option<seq<Item>>

    constructor (original: seq<Item>)
      ensures this.original == original && Input() == original
    {
      this.original, appended, replacement := original, [], None;
      new;
      assert original + [] == original;
    }

    function Input(): seq<Item>
      reads this
    {
      (if replacement.Some? then replacement.value else original) + appended
    }

    method Push(item: Item)
      modifies this
      ensures Input() == old(Input()) + [item]
      ensures replacement == old(replacement)
    {
      appended := appended + [item];
    }

    method Replace(input: seq<Item>)
      modifies this
      ensures Input() == input
    {
      replacement := Some(input);
      appended := [];
      assert input + [] == input;
    }

    /** Copies the history so that it can be edited in place. */
    method MakeMut()
      modifies this
      ensures Input() == old(Input())
      ensures replacement == Some(Input()) && appended == []
    {
      var input := if replacement.Some? then replacement.value else original;
      replacement := Some(input + appended);
      appended := [];
    }

    /** Ends staging; `history` is the list that the staged items replace or extend. */
    method Commit(history: seq<Item>) returns (committed: seq<Item>)
      ensures committed == if replacement.Some? then Input() else history + appended
      ensures history == original ==> committed == Input()
    {
      if replacement.Some? {
        return replacement.value + appended;
      } else if appended != [] {
        return history + appended;
      }
      assert history + [] == history;
      return history;
    }
  }

  /**
   Whatever the pushes, replacements and in-place edits, committing to the original history gives
   what the same edits make of a plain list; the original itself never changes.
   */
  method Stage(original: seq<Item>, edits: seq<Edit>) returns (committed: seq<Item>)
    ensures committed == EditedAll(original, edits)
  {
    var staged := new StagedInput(original);
    var i := 0;
    while i < |edits|
      invariant i <= |edits|
      invariant staged.original == original && fresh(staged)
      invariant staged.Input() == EditedAll(original, edits[..i])
    {
      assert edits[..i + 1][..i] == edits[..i];
      match edits[i] {
        case Push(item) => staged.Push(item);
        case Replace(items) => staged.Replace(items);
        case Mutate(f) =>
          staged.MakeMut();
          staged.replacement := Some(f(staged.replacement.value));
          assert staged.Input() == staged.replacement.value + [];
      }
      i := i + 1;
    }
    assert edits[..|edits|] == edits;
    committed := staged.Commit(original);
  }

  // ---------- the prompt-cache breakpoint ----------

  predicate Markable(p: Part) {
    p.partType.InputText? || p.partType.InputImage?
  }

  /** The last markable part of an item. */
  function LastMarkable(parts: seq<Part>): Option<nat>
    decreases |parts|
  {
    if parts == [] then None
    else if Markable(parts[|parts| - 1]) then Some(|parts| - 1)
    else LastMarkable(parts[..|parts| - 1])
  }

  /** The part that carries the breakpoint: the last markable one of the last item that has any. */
  function Endpoint(items: seq<Item>): Option<(nat, nat)>
    decreases |items|
  {
    if items == [] then None
    else
      var n := |items| - 1;
      var last := if items[n].content.Some? then LastMarkable(items[n].content.value) else None;
      if last.Some? then Some((n, last.value)) else Endpoint(items[..n])
  }

  function Marked(parts: seq<Part>, at: Option<nat>): seq<Part> {
    seq(|parts|, k requires 0 <= k < |parts| =>
      parts[k].(marker := if at == Some(k) then Some(true) else None))
  }

  function MarkedItem(item: Item, at: Option<nat>): Item {
    if item.content.None? then item else item.(content := Some(Marked(item.content.value, at)))
  }

  function PartAt(endpoint: Option<(nat, nat)>, i: nat): Option<nat> {
    if endpoint.Some? && endpoint.value.0 == i then Some(endpoint.value.1) else None
  }

  function Reset(items: seq<Item>): seq<Item> {
    seq(|items|, i requires 0 <= i < |items| => MarkedItem(items[i], PartAt(Endpoint(items), i)))
  }

  method FindEndpoint(items: seq<Item>) returns (endpoint: Option<(nat, nat)>)
    ensures endpoint == Endpoint(items)
  {
    var n := |items|;
    assert items[..n] == items;
    while n > 0
      invariant 0 <= n <= |items|
      invariant Endpoint(items) == Endpoint(items[..n])
    {
      n := n - 1;
      assert items[..n + 1][..n] == items[..n];
      if items[n].content.Some? {
        var parts := items[n].content.value;
        var k := |parts|;
        assert parts[..k] == parts;
        while k > 0
          invariant 0 <= k <= |parts|
          invariant LastMarkable(parts) == LastMarkable(parts[..k])
        {
          k := k - 1;
          if Markable(parts[k]) {
            return Some((n, k));
          }
          assert parts[..k + 1][..k] == parts[..k];
        }
      }
    }
    return None;
  }

  /** Moves the breakpoint, touching only the items whose markers are wrong. */
  method ResetSharedBreakpoint(input: seq<Item>) returns (items: seq<Item>)
    ensures items == Reset(input)
  {
    items := input;
    var endpoint := FindEndpoint(input);
    var i := 0;
    while i < |items|
      invariant i <= |items| == |input|
      invariant forall k :: 0 <= k < i ==> items[k] == Reset(input)[k]
      invariant forall k :: i <= k < |items| ==> items[k] == input[k]
    {
      if items[i].content.Some? {
        var at := PartAt(endpoint, i);
        var parts := items[i].content.value;
        var changed := exists k :: 0 <= k < |parts| && if at == Some(k) then parts[k].marker != Some(true)
                                                       else parts[k].marker.Some?;
        if changed {
          items := items[i := items[i].(content := Some(Marked(parts, at)))];
        } else {
          assert Marked(parts, at) == parts;
        }
      }
      i := i + 1;
    }
  }

  function Bare(item: Item): Item {
    MarkedItem(item, None)
  }

  lemma {:induction false} LastMarkableIs(parts: seq<Part>)
    ensures match LastMarkable(parts)
            case Some(k) => k < |parts| && Markable(parts[k])
            case None => true
    ensures LastMarkable(parts).Some? ==> forall j :: LastMarkable(parts).value < j < |parts| ==> !Markable(parts[j])
    ensures LastMarkable(parts).None? ==> forall j :: 0 <= j < |parts| ==> !Markable(parts[j])
    decreases |parts|
  {
    if parts != [] {
      LastMarkableIs(parts[..|parts| - 1]);
    }
  }

  /** Moving markers does not move the endpoint. */
  lemma {:induction false} SameMarkable(a: seq<Part>, b: seq<Part>)
    requires |a| == |b| && forall k :: 0 <= k < |a| ==> a[k].partType == b[k].partType
    ensures LastMarkable(a) == LastMarkable(b)
    decreases |a|
  {
    if a != [] {
      SameMarkable(a[..|a| - 1], b[..|b| - 1]);
    }
  }

  lemma {:induction false} SameEndpoint(a: seq<Item>, b: seq<Item>)
    requires |a| == |b| && forall i :: 0 <= i < |a| ==> Bare(a[i]) == Bare(b[i])
    ensures Endpoint(a) == Endpoint(b)
    decreases |a|
  {
    if a != [] {
      var x, y := a[|a| - 1], b[|b| - 1];
      SameEndpoint(a[..|a| - 1], b[..|b| - 1]);
      assert Bare(x) == Bare(y);
      if x.content.Some? {
        BareParts(x, y);
        SameMarkable(x.content.value, y.content.value);
      }
    }
  }

  lemma BareParts(x: Item, y: Item)
    requires Bare(x) == Bare(y) && x.content.Some?
    ensures y.content.Some? && |x.content.value| == |y.content.value|
    ensures forall k :: 0 <= k < |x.content.value| ==>
                          x.content.value[k].partType == y.content.value[k].partType
  {
    var xs, ys := Marked(x.content.value, None), Marked(y.content.value, None);
    assert xs == ys && |xs| == |x.content.value| && |ys| == |y.content.value|;
    forall k | 0 <= k < |x.content.value|
      ensures x.content.value[k].partType == y.content.value[k].partType
    {
      assert xs[k].partType == x.content.value[k].partType && ys[k].partType == y.content.value[k].partType;
    }
  }

  lemma MarkTwice(item: Item, a: Option<nat>, b: Option<nat>)
    ensures MarkedItem(MarkedItem(item, a), b) == MarkedItem(item, b)
  {
    if item.content.Some? {
      assert Marked(Marked(item.content.value, a), b) == Marked(item.content.value, b);
    }
  }

  /** Resetting changes nothing but markers, and resetting again changes nothing at all. */
  lemma ResetMovesOnlyMarkers(items: seq<Item>)
    ensures |Reset(items)| == |items|
    ensures forall i :: 0 <= i < |items| ==> Bare(Reset(items)[i]) == Bare(items[i])
    ensures Reset(Reset(items)) == Reset(items)
  {
    hide MarkedItem;
    var once := Reset(items);
    forall i | 0 <= i < |items| ensures Bare(once[i]) == Bare(items[i]) {
      MarkTwice(items[i], PartAt(Endpoint(items), i), None);
    }
    SameEndpoint(once, items);
    forall i | 0 <= i < |items| ensures Reset(once)[i] == once[i] {
      MarkTwice(items[i], PartAt(Endpoint(items), i), PartAt(Endpoint(items), i));
    }
  }

  /** Part `k` of item `i` is the last text or image part of the whole input. */
  ghost predicate IsLastPart(items: seq<Item>, i: nat, k: nat) {
    && i < |items| && IsPart(items[i], k)
    && (forall j: nat :: k < j ==> !IsPart(items[i], j))
    && forall n: nat, j: nat :: i < n < |items| ==> !IsPart(items[n], j)
  }

  predicate IsPart(item: Item, k: nat) {
    && item.content.Some? && k < |item.content.value|
    && (item.content.value[k].partType == InputText || item.content.value[k].partType == InputImage)
  }

  lemma {:induction false} EndpointIs(items: seq<Item>)
    ensures Endpoint(items).Some? ==> IsLastPart(items, Endpoint(items).value.0, Endpoint(items).value.1)
    ensures Endpoint(items).None? ==> forall i: nat, k: nat :: i < |items| ==> !IsPart(items[i], k)
    decreases |items|
  {
    if items != [] {
      var n := |items| - 1;
      EndpointIs(items[..n]);
      assert forall i :: 0 <= i < n ==> items[..n][i] == items[i];
      if items[n].content.Some? {
        LastMarkableIs(items[n].content.value);
      }
    }
  }

  /**
   After a reset exactly the last text or image part of the input is marked; everything else of
   every part, every item and the input is as it was.
   */
  lemma ResetOutcome(items: seq<Item>, i: nat)
    requires i < |items|
    ensures |Reset(items)| == |items|
    ensures var before, after := items[i], Reset(items)[i];
            if before.content.None? then after == before
            else
              && after.rest == before.rest && after.content.Some?
              && |after.content.value| == |before.content.value|
              && forall k :: 0 <= k < |before.content.value| ==>
                               var x, y := before.content.value[k], after.content.value[k];
                               && y.partType == x.partType && y.body == x.body
                               && (y.marker == Some(true) <==> IsLastPart(items, i, k))
                               && (y.marker != Some(true) ==> y.marker == None)
  {
    EndpointIs(items);
    hide Endpoint, LastMarkable;
    if items[i].content.Some? {
      var parts := items[i].content.value;
      forall k | 0 <= k < |parts| ensures IsLastPart(items, i, k) <==> Endpoint(items) == Some((i, k)) {
        OnlyOneLast(items, i, k);
      }
    }
  }

  lemma OnlyOneLast(items: seq<Item>, i: nat, k: nat)
    requires i < |items|
    requires Endpoint(items).Some? ==> IsLastPart(items, Endpoint(items).value.0, Endpoint(items).value.1)
    requires Endpoint(items).None? ==> forall i: nat, k: nat :: i < |items| ==> !IsPart(items[i], k)
    ensures IsLastPart(items, i, k) <==> Endpoint(items) == Some((i, k))
  {
    hide Endpoint, IsPart;
  }

  // ---------- rewrites ----------

  /** What a boundary's hooks see and change. */
  datatype Boundary = Boundary(
    input: seq<Item>, transcript: seq<Item>, epoch: nat, reasons: seq<Reason>, keepsUsage: bool,
    changed: bool)

  /** A rewrite, or None when the epoch cannot advance any more. */
  function Rewritten(b: Boundary, reason: Reason, proposed: seq<Item>): Option<Boundary> {
    if proposed == b.input then Some(b)
    else if b.reasons == [] && b.epoch >= U64_MAX then None
    else
      Some(b.(
             input := Reset(proposed),
             epoch := if b.reasons == [] then b.epoch + 1 else b.epoch,
             reasons := if reason in b.reasons then b.reasons else b.reasons + [reason],
             keepsUsage := false, changed := true))
  }

  class ModelContext {
    const checkpointSequence: nat
    const durable: StagedInput
    var transcriptDelta: seq<Item>
    var epoch: nat
    var reasons: seq<Reason>
    var keepsUsage: bool
    var changed: bool

    constructor (checkpointSequence: nat, durable: StagedInput, transcriptDelta: seq<Item>, epoch: nat)
      ensures this.durable == durable && this.checkpointSequence == checkpointSequence
      ensures Now() == Boundary(durable.Input(), transcriptDelta, epoch, [], true, false)
    {
      this.checkpointSequence, this.durable := checkpointSequence, durable;
      this.transcriptDelta, this.epoch := transcriptDelta, epoch;
      reasons, keepsUsage, changed := [], true, false;
    }

    ghost function Now(): Boundary
      reads this, durable
    {
      Boundary(durable.Input(), transcriptDelta, epoch, reasons, keepsUsage, changed)
    }

    /** Replaces the input and advances the epoch once per boundary. */
    method RewriteInput(reason: Reason, input: seq<Item>) returns (ok: bool)
      modifies this, durable
      ensures match Rewritten(old(Now()), reason, input)
              case Some(b) => ok && Now() == b
              case None => !ok && Now() == old(Now())
      ensures input == old(durable.Input()) ==> ok && Now() == old(Now())
      ensures input != old(durable.Input()) ==>
                (ok <==> old(reasons) != [] || old(epoch) < 0xFFFF_FFFF_FFFF_FFFF)
      ensures ok && input != old(durable.Input()) ==>
                && durable.Input() == Reset(input) && transcriptDelta == old(transcriptDelta)
                && epoch == old(epoch) + (if old(reasons) == [] then 1 else 0)
                && reasons == old(reasons) + (if reason in old(reasons) then [] else [reason])
                && !keepsUsage && changed
    {
      if input == durable.Input() {
        return true;
      }
      if reasons == [] {
        if epoch >= U64_MAX {
          return false;
        }
        epoch := epoch + 1;
      }
      if reason !in reasons {
        reasons := reasons + [reason];
      }
      var items := ResetSharedBreakpoint(input);
      durable.Replace(items);
      keepsUsage := false;
      changed := true;
      return true;
    }

    method AppendModelInput(item: Item)
      modifies this, durable
      ensures Now() == old(Now()).(input := old(Now()).input + [item], changed := true)
    {
      durable.Push(item);
      changed := true;
    }

    method RecordTranscriptItem(item: Item)
      modifies this
      ensures Now() == old(Now()).(transcript := old(Now()).transcript + [item], changed := true)
    {
      transcriptDelta := transcriptDelta + [item];
      changed := true;
    }

    /** Pushes to the context and the transcript, and names the position it will be saved at. */
    method PushInput(item: Item) returns (target: Option<MessageTarget>)
      modifies this, durable
      ensures Now() == old(Now()).(input := old(Now()).input + [item],
                                   transcript := old(Now()).transcript + [item], changed := true)
      ensures target == if checkpointSequence >= U64_MAX then None
                        else Some(MessageTarget(checkpointSequence + 1, 1 + |old(transcriptDelta)|))
    {
      durable.Push(item);
      transcriptDelta := transcriptDelta + [item];
      changed := true;
      if checkpointSequence >= U64_MAX {
        return None;
      }
      return Some(MessageTarget(checkpointSequence + 1, 1 + (|transcriptDelta| - 1)));
    }
  }

  // ---------- the epoch over a boundary ----------

  datatype Hook =
    | Rewrite(reason: Reason, input: seq<Item>)
    | Append(item: Item)
    | PushInput(item: Item)
    | RecordItem(item: Item)

  function Next(b: Boundary, hook: Hook): Boundary {
    match hook
    case Rewrite(reason, input) =>
      var after := Rewritten(b, reason, input);
      if after.Some? then after.value else b
    case Append(item) => b.(input := b.input + [item], changed := true)
    case PushInput(item) =>
      b.(input := b.input + [item], transcript := b.transcript + [item], changed := true)
    case RecordItem(item) => b.(transcript := b.transcript + [item], changed := true)
  }

  function Run(b: Boundary, hooks: seq<Hook>): Boundary
    decreases |hooks|
  {
    if hooks == [] then b else Next(Run(b, hooks[..|hooks| - 1]), hooks[|hooks| - 1])
  }

  /** The position announced for an item pushed onto a transcript of `count` items. */
  function Announced(sequence: nat, count: nat): Option<MessageTarget> {
    if sequence >= U64_MAX then None else Some(MessageTarget(sequence + 1, 1 + count))
  }

  /** The hooks of one boundary, on the context they share, and the positions they are told. */
  method RunBoundary(context: ModelContext, hooks: seq<Hook>)
    returns (targets: seq<Option<MessageTarget>>)
    modifies context, context.durable
    ensures context.Now() == Run(old(context.Now()), hooks) && |targets| == |hooks|
    ensures forall j :: 0 <= j < |hooks| && hooks[j].PushInput? ==>
                          targets[j] == Announced(context.checkpointSequence,
                                                  |Run(old(context.Now()), hooks[..j]).transcript|)
  {
    hide Rewritten, Announced, Run;
    targets := [];
    var i := 0;
    RunNothing(context.Now());
    while i < |hooks|
      invariant i <= |hooks| && |targets| == i
      invariant context.Now() == Run(old(context.Now()), hooks[..i])
      invariant forall j :: 0 <= j < i && hooks[j].PushInput? ==>
                              targets[j] == Announced(context.checkpointSequence,
                                                      |Run(old(context.Now()), hooks[..j]).transcript|)
    {
      RunPush(old(context.Now()), hooks, i);
      ghost var count := |context.transcriptDelta|;
      var target := None;
      match hooks[i] {
        case Rewrite(reason, input) => var _ := context.RewriteInput(reason, input);
        case Append(item) => context.AppendModelInput(item);
        case PushInput(item) =>
          target := context.PushInput(item);
          AnnouncedIs(context.checkpointSequence, count);
        case RecordItem(item) => context.RecordTranscriptItem(item);
      }
      targets := targets + [target];
      i := i + 1;
    }
    assert hooks[..|hooks|] == hooks;
  }

  lemma RunNothing(b: Boundary)
    ensures Run(b, []) == b
  {
  }

  lemma AnnouncedIs(sequence: nat, count: nat)
    ensures Announced(sequence, count)
            == if sequence >= U64_MAX then None else Some(MessageTarget(sequence + 1, 1 + count))
  {
  }

  lemma RunPush(b: Boundary, hooks: seq<Hook>, i: nat)
    requires i < |hooks|
    ensures hooks[..0] == [] && Run(b, hooks[..i + 1]) == Next(Run(b, hooks[..i]), hooks[i])
  {
    assert hooks[..i + 1][..i] == hooks[..i];
  }

  /** Hook `k` rewrites, and proposes another sequence than the one it sees. */
  predicate Differs(b: Boundary, hooks: seq<Hook>, k: nat) {
    k < |hooks| && hooks[k].Rewrite? && hooks[k].input != Run(b, hooks[..k]).input
  }

  /** Hook `k` rewrites, and leaves another sequence than the one it sees. */
  predicate Changes(b: Boundary, hooks: seq<Hook>, k: nat) {
    k < |hooks| && hooks[k].Rewrite?
    && Next(Run(b, hooks[..k]), hooks[k]).input != Run(b, hooks[..k]).input
  }

  lemma DiffersFront(b: Boundary, hooks: seq<Hook>, k: nat)
    requires k < |hooks| - 1
    ensures Differs(b, hooks, k) <==> Differs(b, hooks[..|hooks| - 1], k)
  {
    assert hooks[..|hooks| - 1][..k] == hooks[..k];
  }

  /** The epoch rises once, however many rewrites propose something new. */
  lemma {:induction false} EpochCountsBoundaries(b: Boundary, hooks: seq<Hook>)
    requires b.reasons == [] && b.epoch < U64_MAX
    ensures Run(b, hooks).epoch
            == b.epoch + if exists k: nat :: Differs(b, hooks, k) then 1 else 0
    ensures Run(b, hooks).reasons != [] <==> exists k: nat :: Differs(b, hooks, k)
    decreases |hooks|
  {
    hide Reset, Differs;
    if hooks != [] {
      var n := |hooks| - 1;
      var front := hooks[..n];
      EpochCountsBoundaries(b, front);
      forall k: nat | k < n ensures Differs(b, hooks, k) <==> Differs(b, front, k) {
        DiffersFront(b, hooks, k);
      }
      forall k: nat | k >= n ensures !Differs(b, front, k) {
        DiffersAt(b, front, k);
      }
      DiffersAt(b, hooks, n);
    } else {
      forall k: nat ensures !Differs(b, hooks, k) {
        DiffersAt(b, hooks, k);
      }
    }
    forall k: nat | k >= |hooks| ensures !Differs(b, hooks, k) {
      DiffersAt(b, hooks, k);
    }
  }

  lemma DiffersAt(b: Boundary, hooks: seq<Hook>, k: nat)
    ensures Differs(b, hooks, k)
            <==> k < |hooks| && hooks[k].Rewrite? && hooks[k].input != Run(b, hooks[..k]).input
  {
  }

  /**
   A proposal differs from the current input in its markers alone, and the current input already
   has its breakpoint where a reset puts it.
   */
  predicate MovesOnlyMarkers(proposed: seq<Item>, seen: seq<Item>) {
    |proposed| == |seen|
    && (forall i :: 0 <= i < |seen| ==> Bare(proposed[i]) == Bare(seen[i]))
    && Reset(seen) == seen
  }

  /** Items that agree but for their markers are reset to the same sequence. */
  lemma ResetIgnoresMarkers(a: seq<Item>, b: seq<Item>)
    requires |a| == |b| && forall i :: 0 <= i < |a| ==> Bare(a[i]) == Bare(b[i])
    ensures Reset(a) == Reset(b)
  {
    hide MarkedItem;
    SameEndpoint(a, b);
    forall i | 0 <= i < |a| ensures Reset(a)[i] == Reset(b)[i] {
      MarkTwice(a[i], None, PartAt(Endpoint(a), i));
      MarkTwice(b[i], None, PartAt(Endpoint(a), i));
    }
  }

  /** When a rewrite installs the very sequence it saw. */
  lemma ResetRestoresIff(proposed: seq<Item>, seen: seq<Item>)
    ensures Reset(proposed) == seen <==> MovesOnlyMarkers(proposed, seen)
  {
    hide MarkedItem;
    ResetMovesOnlyMarkers(proposed);
    if MovesOnlyMarkers(proposed, seen) {
      ResetIgnoresMarkers(proposed, seen);
    }
  }

  /** A rewrite changes the sequence exactly when it differs in more than a moved marker. */
  lemma ChangesUnlessMarkers(b: Boundary, hooks: seq<Hook>, k: nat)
    requires b.reasons == [] && b.epoch < U64_MAX
    ensures Changes(b, hooks, k)
            <==> Differs(b, hooks, k) && !MovesOnlyMarkers(hooks[k].input, Run(b, hooks[..k]).input)
  {
    hide Reset, MovesOnlyMarkers;
    if k < |hooks| {
      EpochCountsBoundaries(b, hooks[..k]);
      if hooks[k].Rewrite? {
        ResetRestoresIff(hooks[k].input, Run(b, hooks[..k]).input);
      }
    }
  }

  /** Some rewrite differs from what it saw, and every one that does only moves markers. */
  ghost predicate OnlyMarkersProposed(b: Boundary, hooks: seq<Hook>) {
    (exists k: nat :: Differs(b, hooks, k))
    && forall k: nat :: Differs(b, hooks, k) ==>
                          MovesOnlyMarkers(hooks[k].input, Run(b, hooks[..k]).input)
  }

  /**
   The epoch rises if and only if some rewrite changed the sequence, unless the rewrites that
   differ from what they saw all differ in markers alone, on an input whose breakpoint is in place.
   */
  lemma EpochRisesIffChanged(b: Boundary, hooks: seq<Hook>)
    requires b.reasons == [] && b.epoch < U64_MAX
    ensures (Run(b, hooks).epoch == b.epoch + 1 <==> exists k: nat :: Changes(b, hooks, k))
            <==> !OnlyMarkersProposed(b, hooks)
  {
    hide Differs, Changes, Run, MovesOnlyMarkers;
    EpochCountsBoundaries(b, hooks);
    forall k: nat
      ensures Changes(b, hooks, k) <==> Differs(b, hooks, k) && !OnlyMoves(b, hooks, k)
    {
      ChangesUnlessMarkers(b, hooks, k);
      DiffersAt(b, hooks, k);
    }
    forall k: nat ensures Differs(b, hooks, k) ==> k < |hooks| && hooks[k].Rewrite? {
      DiffersAt(b, hooks, k);
    }
  }

  predicate OnlyMoves(b: Boundary, hooks: seq<Hook>, k: nat) {
    k < |hooks| && hooks[k].Rewrite? && MovesOnlyMarkers(hooks[k].input, Run(b, hooks[..k]).input)
  }

  /** Unmarking an input whose breakpoint is not in place does change it. */
  lemma MisplacedMarkerIsMoved(epoch: nat, reason: Reason)
    requires epoch < U64_MAX
    ensures var marked := Item(Some([Part(InputText, "hello", Some(true))]), "");
            var bare := Item(Some([Part(InputText, "hello", None)]), "");
            var b := Boundary([marked, bare], [], epoch, [], true, false);
            && Bare(marked) == Bare(bare)
            && Next(b, Rewrite(reason, [bare, bare])).input == [bare, marked]
  {
    var marked := Item(Some([Part(InputText, "hello", Some(true))]), "");
    var bare := Item(Some([Part(InputText, "hello", None)]), "");
    var parts := bare.content.value;
    assert marked.content.value[0].marker != parts[0].marker;
    assert marked.content != bare.content && [marked, bare][0] != [bare, bare][0];
    assert LastMarkable(parts) == Some(0);
    assert Endpoint([bare, bare]) == Some((1, 0));
    assert Marked(parts, Some(0)) == marked.content.value;
    assert Marked(parts, None) == parts && Marked(marked.content.value, None) == parts;
    assert Reset([bare, bare]) == [bare, marked];
  }

  /** A proposal that only drops the breakpoint advances the epoch and changes nothing. */
  lemma MarkerOnlyRewrite(epoch: nat, reason: Reason)
    requires epoch < U64_MAX
    ensures var item := Item(Some([Part(InputText, "hello", Some(true))]), "");
            var bare := Item(Some([Part(InputText, "hello", None)]), "");
            var b := Boundary([item], [], epoch, [], true, false);
            var after := Next(b, Rewrite(reason, [bare]));
            after.epoch == epoch + 1 && after.input == b.input
  {
    var item := Item(Some([Part(InputText, "hello", Some(true))]), "");
    var bare := Item(Some([Part(InputText, "hello", None)]), "");
    var parts := bare.content.value;
    assert item.content.value[0].marker != parts[0].marker;
    assert item.content != bare.content && [item][0] != [bare][0];
    assert LastMarkable(parts) == Some(0);
    assert Endpoint([bare]) == Some((0, 0));
    assert Marked(parts, Some(0)) == item.content.value;
    assert Reset([bare]) == [item];
  }
}
