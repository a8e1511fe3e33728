/** The durable session state, the store that holds it, and the transcript's positions. */
module Checkpoint {
  import opened DeliveryOnce
  import opened MessageQueue
  import opened Wrappers

  const U64_MAX: nat := 0xFFFF_FFFF_FFFF_FFFF
  const I64_MIN: int := -0x8000_0000_0000_0000
  const I64_MAX: int := 0x7FFF_FFFF_FFFF_FFFF

  datatype Failure =
    | Overflow | NoExecution | ActiveExecution | ActiveStep | NotQueued
    | NoHandler | Clock | Hook | Observer | Refused

  datatype Usage = Usage(
    input: int, cached: int, cacheWrite: int, output: int, reasoning: int, total: int)

  const NO_USAGE := Usage(0, 0, 0, 0, 0, 0)

  predicate FitsI64(n: int) {
    I64_MIN <= n <= I64_MAX
  }

  /** Adds usage field by field; None when any field leaves its 64-bit range. */
  function SumUsage(a: Usage, b: Usage): Option<Usage> {
    var sum := Usage(a.input + b.input, a.cached + b.cached, a.cacheWrite + b.cacheWrite,
                     a.output + b.output, a.reasoning + b.reasoning, a.total + b.total);
    if FitsI64(sum.input) && FitsI64(sum.cached) && FitsI64(sum.cacheWrite)
       && FitsI64(sum.output) && FitsI64(sum.reasoning) && FitsI64(sum.total)
    then Some(sum) else None
  }

  datatype Outcome = Completed | Aborted | Failed

  datatype ToolCall = ToolCall(callId: string, name: string, arguments: string)

  /** A tool's result; `usage` is what a paid tool charged, `additional` the input it adds. */
  datatype ToolResult = ToolResult(
    callId: string, name: string, output: string, isError: bool,
    usage: Option<Usage>, additional: seq<Item>)

  datatype Execution = Execution(
    submission: string, author: Author, turn: string, startedAt: int, modelCalls: nat,
    toolCalls: nat, failedToolCalls: nat, usage: Usage, idle: bool)

  datatype ExecutionRecord = ExecutionRecord(
    submission: string, author: Author, turn: string, startedAt: int, finishedAt: int,
    elapsed: nat, outcome: Outcome, modelCalls: nat, toolCalls: nat, failedToolCalls: nat,
    usage: Usage)

  datatype Stats = Stats(
    runs: nat, failedRuns: nat, abortedRuns: nat, modelCalls: nat, toolCalls: nat,
    failedToolCalls: nat, elapsed: nat, usage: Usage)

  datatype Approval = Approval(
    requestId: string, turn: string, callIds: seq<string>, calls: seq<ToolCall>,
    decisionReceived: bool)

  datatype Checkpoint = Checkpoint(
    sequence: nat,
    context: seq<Item>,
    delivered: Receipts,
    totalUsage: Usage,
    firstUserMessage: Option<string>,
    queue: seq<QueuedMessage>,
    execution: Option<Execution>,
    step: Option<string>,
    stats: Stats,
    pendingTools: seq<ToolCall>,
    pendingApproval: Option<Approval>)

  /** A durable transcript position: a batch, and a 1-based place in it. */
  datatype MessageTarget = MessageTarget(sequence: nat, count: nat)

  datatype Event =
    | TurnStarted(turn: string)
    | HookEvent(text: string)
    | Message(id: string, target: MessageTarget)
    | Rejected(id: string, reason: string)
    | ToolEnded(callId: string, output: string, isError: bool)
    | UsageTotal(total: Usage)
    | StepInterrupted(stepId: string)
    | TurnEnded(turn: string, outcome: Outcome, reason: string)

  datatype Batch = Batch(sequence: nat, items: seq<Item>)

  datatype Store = Store(
    checkpoint: Checkpoint, batches: seq<Batch>, events: seq<Event>,
    executions: seq<ExecutionRecord>)

  /** The runner's live state, what it has not saved yet, and what the store holds. */
  datatype World = World(
    state: Checkpoint, delta: seq<Item>, turnEnd: Option<string>, store: Store)

  // ---------- saving ----------

  function Saved(w: World, events: seq<Event>, record: Option<ExecutionRecord>): World {
    var state := w.state.(sequence := w.state.sequence + 1);
    var batches := if w.delta == [] then [] else [Batch(state.sequence, w.delta)];
    var records := if record.Some? then [record.value] else [];
    w.(
    state := state,
    delta := [],
    store := Store(state, w.store.batches + batches, w.store.events + events,
                   w.store.executions + records))
  }

  function Persist(w: World, events: seq<Event>, record: Option<ExecutionRecord>, stored: bool)
    : Result<World, Failure>
  {
    if w.state.sequence >= U64_MAX then Err(Overflow)
    else if !stored then Err(Refused)
    else Ok(Saved(w, events, record))
  }

  // ---------- the transcript ----------

  function Flat(batches: seq<Batch>): seq<Item>
    decreases |batches|
  {
    if batches == [] then []
    else Flat(batches[..|batches| - 1]) + batches[|batches| - 1].items
  }

  /** Everything pushed so far: the saved batches, then what is not saved yet. */
  function Journal(w: World): seq<Item> {
    Flat(w.store.batches) + w.delta
  }

  datatype Positioned = Positioned(target: MessageTarget, item: Item)

  function BatchPositions(b: Batch): seq<Positioned> {
    seq(|b.items|, i requires 0 <= i < |b.items| =>
      Positioned(MessageTarget(b.sequence, 1 + i), b.items[i]))
  }

  /** The positions a reader gives to the transcript, oldest first. */
  function Positions(batches: seq<Batch>): seq<Positioned>
    decreases |batches|
  {
    if batches == [] then []
    else Positions(batches[..|batches| - 1]) + BatchPositions(batches[|batches| - 1])
  }

  method PositionItems(batch: Batch) returns (positions: seq<Positioned>)
    ensures positions == BatchPositions(batch)
  {
    positions := [];
    var i := 0;
    while i < |batch.items|
      invariant i <= |batch.items|
      invariant positions == BatchPositions(batch)[..i]
    {
      positions := positions + [Positioned(MessageTarget(batch.sequence, 1 + i), batch.items[i])];
      i := i + 1;
    }
  }

  /** Flattens a newest-first page of batches into chronological positions. */
  method PositionedChronological(page: seq<Batch>) returns (positions: seq<Positioned>)
    ensures positions == Positions(Reversed(page))
  {
    hide BatchPositions, Reversed, Positions;
    positions := [];
    var i := |page|;
    NoPositions(page);
    while i > 0
      invariant 0 <= i <= |page|
      invariant positions == Positions(Reversed(page[i..]))
    {
      i := i - 1;
      var items := PositionItems(page[i]);
      positions := positions + items;
      PositionsOfOlder(page, i);
    }
    assert page[0..] == page;
  }

  lemma NoPositions(page: seq<Batch>)
    ensures Positions(Reversed(page[|page|..])) == []
  {
  }

  lemma PositionsOfOlder(page: seq<Batch>, i: nat)
    requires i < |page|
    ensures Positions(Reversed(page[i..]))
            == Positions(Reversed(page[i + 1..])) + BatchPositions(page[i])
  {
    hide BatchPositions;
    var batches := Reversed(page[i..]);
    assert batches[..|batches| - 1] == Reversed(page[i + 1..]);
    assert batches[|batches| - 1] == page[i];
  }

  function Reversed<T>(xs: seq<T>): seq<T> {
    seq(|xs|, i requires 0 <= i < |xs| => xs[|xs| - 1 - i])
  }

  /** Batch sequences rise and none is newer than `sequence`. */
  predicate Ascending(batches: seq<Batch>, sequence: nat) {
    && (forall i, j :: 0 <= i < j < |batches| ==> batches[i].sequence < batches[j].sequence)
    && (forall i :: 0 <= i < |batches| ==> batches[i].sequence <= sequence)
  }

  lemma {:induction false} PositionsShape(batches: seq<Batch>, sequence: nat)
    requires Ascending(batches, sequence)
    ensures |Positions(batches)| == |Flat(batches)|
    ensures forall i :: 0 <= i < |Flat(batches)| ==> Positions(batches)[i].item == Flat(batches)[i]
    ensures forall i :: 0 <= i < |Positions(batches)| ==>
                          Positions(batches)[i].target.sequence <= sequence
    decreases |batches|
  {
    if batches != [] {
      PositionsShape(batches[..|batches| - 1], sequence);
    }
  }

  /**
   A target computed before a save as the next sequence and one past the unsaved items names
   exactly the item that lands there, and no other item has that target.
   */
  lemma TargetNamesItsItem(w: World, events: seq<Event>, record: Option<ExecutionRecord>, k: nat)
    requires Ascending(w.store.batches, w.state.sequence) && k < |w.delta|
    ensures var target := MessageTarget(w.state.sequence + 1, 1 + k);
            var at := |Flat(w.store.batches)| + k;
            var after := Positions(Saved(w, events, record).store.batches);
            && at < |after| && after[at] == Positioned(target, w.delta[k])
            && forall j :: 0 <= j < |after| && after[j].target == target ==> j == at
  {
    var batch := Batch(w.state.sequence + 1, w.delta);
    var batches := w.store.batches + [batch];
    assert batches[..|batches| - 1] == w.store.batches;
    PositionsShape(w.store.batches, w.state.sequence);
  }

  /** A save moves the unsaved items into the transcript and loses none. */
  lemma SaveKeepsJournal(w: World, events: seq<Event>, record: Option<ExecutionRecord>)
    requires Ascending(w.store.batches, w.state.sequence)
    ensures Journal(Saved(w, events, record)) == Journal(w)
    ensures var after := Saved(w, events, record);
            && Ascending(after.store.batches, after.state.sequence)
            && w.store.batches <= after.store.batches
  {
    SavedBatches(w, events, record);
    hide Ascending, Flat, Saved;
    var after := Saved(w, events, record);
    FlatPush(w.store.batches, Batch(w.state.sequence + 1, w.delta));
    AscendingPush(w.store.batches, w.state.sequence, w.delta);
    assert Flat(after.store.batches) + [] == Flat(w.store.batches) + w.delta;
  }

  lemma SavedBatches(w: World, events: seq<Event>, record: Option<ExecutionRecord>)
    ensures var after := Saved(w, events, record);
            && after.delta == [] && after.state.sequence == w.state.sequence + 1
            && after.store.batches
               == if w.delta == [] then w.store.batches
                  else w.store.batches + [Batch(w.state.sequence + 1, w.delta)]
  {
    assert w.store.batches + [] == w.store.batches;
  }

  lemma FlatPush(batches: seq<Batch>, batch: Batch)
    ensures Flat(batches + [batch]) == Flat(batches) + batch.items
  {
    assert (batches + [batch])[..|batches|] == batches;
  }

  lemma AscendingPush(batches: seq<Batch>, sequence: nat, items: seq<Item>)
    requires Ascending(batches, sequence)
    ensures Ascending(batches, sequence + 1)
    ensures Ascending(batches + [Batch(sequence + 1, items)], sequence + 1)
  {
  }

  // ---------- counters ----------

  function ToolsRecorded(s: Checkpoint, calls: nat, failed: nat): Result<Checkpoint, Failure> {
    match s.execution
    case None => Err(NoExecution)
    case Some(e) =>
      if e.toolCalls + calls > U64_MAX || e.failedToolCalls + failed > U64_MAX then Err(Overflow)
      else
        Ok(s.(execution := Some(e.(
                toolCalls := e.toolCalls + calls, failedToolCalls := e.failedToolCalls + failed))))
  }

  function UsageRecorded(s: Checkpoint, usage: Usage, observed: bool): Result<Checkpoint, Failure> {
    match SumUsage(s.totalUsage, usage)
    case None => Err(Overflow)
    case Some(total) =>
      match s.execution
      case None => Err(NoExecution)
      case Some(e) =>
        match SumUsage(e.usage, usage)
        case None => Err(Overflow)
        case Some(used) =>
          if !observed then Err(Observer)
          else Ok(s.(totalUsage := total, execution := Some(e.(usage := used))))
  }

  function Tallied(stats: Stats, r: ExecutionRecord): Option<Stats> {
    match SumUsage(stats.usage, r.usage)
    case None => None
    case Some(usage) =>
      var next := Stats(
                    stats.runs + 1,
                    stats.failedRuns + (if r.outcome == Failed then 1 else 0),
                    stats.abortedRuns + (if r.outcome == Aborted then 1 else 0),
                    stats.modelCalls + r.modelCalls,
                    stats.toolCalls + r.toolCalls,
                    stats.failedToolCalls + r.failedToolCalls,
                    stats.elapsed + r.elapsed,
                    usage);
      if next.runs > U64_MAX || next.failedRuns > U64_MAX || next.abortedRuns > U64_MAX
         || next.modelCalls > U64_MAX || next.toolCalls > U64_MAX
         || next.failedToolCalls > U64_MAX || next.elapsed > U64_MAX
      then None else Some(next)
  }

  function RecordOf(e: Execution, outcome: Outcome, now: int): ExecutionRecord {
    var finishedAt := if now < e.startedAt then e.startedAt else now;
    ExecutionRecord(e.submission, e.author, e.turn, e.startedAt, finishedAt,
                    finishedAt - e.startedAt, outcome, e.modelCalls, e.toolCalls,
                    e.failedToolCalls, e.usage)
  }

  /** Ends the active execution; refused while a model step is in flight. */
  function Finished(s: Checkpoint, outcome: Outcome, clock: Option<int>)
    : Result<(Checkpoint, ExecutionRecord), Failure>
  {
    if clock.None? then Err(Clock)
    else if s.step.Some? then Err(ActiveStep)
    else if s.execution.None? then Err(NoExecution)
    else
      var record := RecordOf(s.execution.value, outcome, clock.value);
      match Tallied(s.stats, record)
      case None => Err(Overflow)
      case Some(stats) => Ok((s.(execution := None, stats := stats), record))
  }

  /** The stats that a log of finished executions adds up to. */
  function Tally(records: seq<ExecutionRecord>): Option<Stats>
    decreases |records|
  {
    if records == [] then Some(Stats(0, 0, 0, 0, 0, 0, 0, NO_USAGE))
    else
      match Tally(records[..|records| - 1])
      case None => None
      case Some(stats) => Tallied(stats, records[|records| - 1])
  }
}
