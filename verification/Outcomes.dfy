/**
 What the runner's operations leave behind, field by field: the saved state, the transcript batch,
 the events and the records of each operation that succeeds.
 */
module Outcomes {
  import opened Checkpoint
  import opened DeliveryOnce
  import opened MessageQueue
  import opened RunnerSpec
  import opened Sequences
  import opened Startup
  import opened Wrappers

  // ---------- saving ----------

  /** A save stores the state under the next sequence, the delta as its batch, and the rest as given. */
  lemma SaveOutcome(w: World, events: seq<Event>, record: Option<ExecutionRecord>, stored: bool)
    ensures Persist(w, events, record, stored).Ok? <==> stored && w.state.sequence < 0xFFFF_FFFF_FFFF_FFFF
    ensures Persist(w, events, record, stored).Ok? ==>
              var next := Persist(w, events, record, stored).value;
              && next.state == w.state.(sequence := w.state.sequence + 1)
              && next.delta == [] && next.turnEnd == w.turnEnd
              && next.store.checkpoint == next.state
              && next.store.batches
                 == w.store.batches
                    + (if w.delta == [] then [] else [Batch(w.state.sequence + 1, w.delta)])
              && next.store.events == w.store.events + events
              && next.store.executions
                 == w.store.executions + (match record case Some(r) => [r] case None => [])
  {
  }

  // ---------- ending an execution ----------

  /** A finished execution becomes a record and adds to the statistics, each field by itself. */
  lemma FinishOutcome(s: Checkpoint, outcome: Outcome, now: int)
    requires s.execution.Some? && Finished(s, outcome, Some(now)).Ok?
    ensures var (state, r) := Finished(s, outcome, Some(now)).value;
            var e, a, b := s.execution.value, s.stats, state.stats;
            && s.step.None? && state == s.(execution := None, stats := b)
            && r.submission == e.submission && r.author == e.author && r.turn == e.turn
            && r.startedAt == e.startedAt && r.outcome == outcome
            && r.finishedAt >= e.startedAt && r.finishedAt >= now
            && (r.finishedAt == now || r.finishedAt == e.startedAt)
            && r.elapsed == r.finishedAt - e.startedAt
            && r.modelCalls == e.modelCalls && r.toolCalls == e.toolCalls
            && r.failedToolCalls == e.failedToolCalls && r.usage == e.usage
            && b.runs == a.runs + 1
            && b.failedRuns == a.failedRuns + (if outcome.Failed? then 1 else 0)
            && b.abortedRuns == a.abortedRuns + (if outcome.Aborted? then 1 else 0)
            && b.modelCalls == a.modelCalls + e.modelCalls && b.toolCalls == a.toolCalls + e.toolCalls
            && b.failedToolCalls == a.failedToolCalls + e.failedToolCalls
            && b.elapsed == a.elapsed + r.elapsed
            && Adds(a.usage, e.usage, b.usage) && InRange(b.usage) && Counts(b)
  {
  }

  /** Every counter fits an unsigned 64-bit integer. */
  predicate Counts(s: Stats) {
    && s.runs <= 0xFFFF_FFFF_FFFF_FFFF && s.failedRuns <= 0xFFFF_FFFF_FFFF_FFFF
    && s.abortedRuns <= 0xFFFF_FFFF_FFFF_FFFF && s.modelCalls <= 0xFFFF_FFFF_FFFF_FFFF
    && s.toolCalls <= 0xFFFF_FFFF_FFFF_FFFF && s.failedToolCalls <= 0xFFFF_FFFF_FFFF_FFFF
    && s.elapsed <= 0xFFFF_FFFF_FFFF_FFFF
  }

  /** `sum` is the two usages added, field by field. */
  predicate Adds(a: Usage, b: Usage, sum: Usage) {
    && sum.input == a.input + b.input && sum.cached == a.cached + b.cached
    && sum.cacheWrite == a.cacheWrite + b.cacheWrite && sum.output == a.output + b.output
    && sum.reasoning == a.reasoning + b.reasoning && sum.total == a.total + b.total
  }

  /** An execution is refused its end by a failing clock, a step in flight, or an overflow alone. */
  lemma FinishRefused(s: Checkpoint, outcome: Outcome, clock: Option<int>)
    requires s.execution.Some? && clock.Some? && s.step.None?
    requires s.stats.runs < U64_MAX && s.stats.failedRuns < U64_MAX && s.stats.abortedRuns < U64_MAX
    requires s.stats.modelCalls + s.execution.value.modelCalls <= U64_MAX
    requires s.stats.toolCalls + s.execution.value.toolCalls <= U64_MAX
    requires s.stats.failedToolCalls + s.execution.value.failedToolCalls <= U64_MAX
    requires s.stats.elapsed + (if clock.value < s.execution.value.startedAt then 0
                                else clock.value - s.execution.value.startedAt) <= U64_MAX
    requires exists sum :: Adds(s.stats.usage, s.execution.value.usage, sum) && InRange(sum)
    ensures Finished(s, outcome, clock).Ok?
  {
  }

  /** Every field fits a signed 64-bit integer. */
  predicate InRange(u: Usage) {
    && -0x8000_0000_0000_0000 <= u.input <= 0x7FFF_FFFF_FFFF_FFFF
    && -0x8000_0000_0000_0000 <= u.cached <= 0x7FFF_FFFF_FFFF_FFFF
    && -0x8000_0000_0000_0000 <= u.cacheWrite <= 0x7FFF_FFFF_FFFF_FFFF
    && -0x8000_0000_0000_0000 <= u.output <= 0x7FFF_FFFF_FFFF_FFFF
    && -0x8000_0000_0000_0000 <= u.reasoning <= 0x7FFF_FFFF_FFFF_FFFF
    && -0x8000_0000_0000_0000 <= u.total <= 0x7FFF_FFFF_FFFF_FFFF
  }

  // ---------- starting a turn ----------

  /** Position `i` holds the first message of the owner with this identity that may start a turn. */
  predicate FirstToStart(items: seq<QueuedMessage>, owner: string, id: string, i: nat) {
    && i < |items| && items[i].owner == owner && items[i].id == id
    && (items[i].boundary == Turn || items[i].boundary == Boundary.Queue)
    && forall k :: 0 <= k < i ==>
                     !(items[k].owner == owner && items[k].id == id
                       && (items[k].boundary == Turn || items[k].boundary == Boundary.Queue))
  }

  /** What a started turn leaves: one message off the queue, and in context, transcript and events. */
  lemma StartOutcome(w: World, owner: Option<string>, p: Start) returns (i: nat)
    requires TurnBegun(w, owner, p).Ok?
    ensures owner.Some? && p.clock.Some? && p.stored && w.state.execution.None?
    ensures FirstToStart(w.state.queue, owner.value, p.id, i)
    ensures var s, next := w.state, TurnBegun(w, owner, p).value;
            var message := Item(UserText(p.text), None);
            && next.state
               == s.(sequence := s.sequence + 1,
                     queue := s.queue[..i] + s.queue[i + 1..],
                     context := s.context + Kept(s.delivered, p.submitted) + [message],
                     delivered := Accepted(s.delivered, p.submitted),
                     firstUserMessage := if s.firstUserMessage.Some? then s.firstUserMessage else p.title,
                     execution := Some(Execution(p.id, p.author, p.turn, p.clock.value, 0, 0, 0,
                                                 Usage(0, 0, 0, 0, 0, 0), false)))
            && next.turnEnd == w.turnEnd && next.delta == []
            && next.store.checkpoint == next.state && next.store.executions == w.store.executions
            && next.store.batches == w.store.batches + [Batch(s.sequence + 1, w.delta + [message])]
            && next.store.events
               == w.store.events + [TurnStarted(p.turn)]
                  + seq(|p.hooks|, j requires 0 <= j < |p.hooks| => HookEvent(p.hooks[j]))
                  + [Message(p.id, MessageTarget(s.sequence + 1, 1 + |w.delta|))]
  {
    hide Kept, Accepted;
    i := IndexWhere(Startable(owner.value, p.id), w.state.queue).value;
    assert w.store.executions + [] == w.store.executions;
  }

  /** A turn starts whenever nothing the source checks is in its way. */
  lemma StartAccepted(w: World, owner: string, p: Start, i: nat)
    requires FirstToStart(w.state.queue, owner, p.id, i)
    requires w.state.sequence < U64_MAX && w.state.execution.None? && p.clock.Some? && p.stored
    ensures TurnBegun(w, Some(owner), p).Ok?
  {
  }

  // ---------- tool results ----------

  /** The additional input of a batch, in order. */
  function Additions(results: seq<ToolResult>): seq<Item>
    decreases |results|
  {
    if results == [] then []
    else Additions(results[..|results| - 1]) + results[|results| - 1].additional
  }

  /**
   Result `i` has its output at `at[i]`, and directly behind it what was admitted of the input that
   it adds.
   */
  ghost predicate OutputAt(r: Receipts, results: seq<ToolResult>, items: seq<Item>, at: seq<nat>, i: nat)
    requires i < |results| == |at|
  {
    var end := if i + 1 < |results| then at[i + 1] else |items|;
    && at[i] < end <= |items|
    && items[at[i]]
       == Item(FunctionOutput(results[i].callId, results[i].output, results[i].isError), None)
    && items[at[i] + 1..end] == Kept(Accepted(r, Additions(results[..i])), results[i].additional)
  }

  /** The items of a batch are, in order, one output per result and the admitted additional input. */
  ghost predicate Outputs(r: Receipts, results: seq<ToolResult>, items: seq<Item>, at: seq<nat>) {
    && |at| == |results|
    && (if results == [] then items == [] else at[0] == 0)
    && forall i :: 0 <= i < |results| ==> OutputAt(r, results, items, at, i)
  }

  lemma {:induction false} OfferedReceipts(r: Receipts, results: seq<ToolResult>)
    ensures Accepted(r, Offered(results)) == Accepted(r, Additions(results))
    decreases |results|
  {
    if results != [] {
      var front, last := results[..|results| - 1], results[|results| - 1];
      OfferedReceipts(r, front);
      AcceptedConcat(r, Offered(front), [OutputItem(last)] + last.additional);
      AcceptedConcat(Accepted(r, Offered(front)), [OutputItem(last)], last.additional);
      PlainAccepted(Accepted(r, Offered(front)), OutputItem(last));
      AcceptedConcat(r, Additions(front), last.additional);
    }
  }

  lemma PlainAccepted(r: Receipts, item: Item)
    requires item.receipt.None?
    ensures Accepted(r, [item]) == r && Kept(r, [item]) == [item]
  {
    assert [item][..0] == [];
  }

  lemma {:induction false} OfferedOutputs(r: Receipts, results: seq<ToolResult>) returns (at: seq<nat>)
    ensures Outputs(r, results, Kept(r, Offered(results)), at)
    decreases |results|
  {
    hide Accepted;
    at := [];
    if results != [] {
      var n := |results| - 1;
      var front, last := results[..n], results[n];
      var before := OfferedOutputs(r, front);
      var items, all := Kept(r, Offered(front)), Kept(r, Offered(results));
      var after := Kept(Accepted(r, Offered(front)), last.additional);
      AcceptedConcat(r, Offered(front), [OutputItem(last)] + last.additional);
      AcceptedConcat(Accepted(r, Offered(front)), [OutputItem(last)], last.additional);
      PlainAccepted(Accepted(r, Offered(front)), OutputItem(last));
      OfferedReceipts(r, front);
      assert all == items + [OutputItem(last)] + after;
      at := before + [|items|];
      OutputsPush(r, results, items, after, before);
    }
  }

  lemma OutputsPush(r: Receipts, results: seq<ToolResult>, items: seq<Item>, after: seq<Item>,
                    at: seq<nat>)
    requires results != [] && Outputs(r, results[..|results| - 1], items, at)
    requires after == Kept(Accepted(r, Additions(results[..|results| - 1])), results[|results| - 1].additional)
    ensures Outputs(r, results, items + [OutputItem(results[|results| - 1])] + after, at + [|items|])
  {
    hide Accepted, Kept, Additions, OutputAt;
    var n := |results| - 1;
    var all, more := items + [OutputItem(results[n])] + after, at + [|items|];
    forall i | 0 <= i < |results| ensures OutputAt(r, results, all, more, i) {
      if i < n {
        OutputStays(r, results, items, all, at, i);
      } else {
        OutputIsLast(r, results, items, after, at);
      }
    }
  }

  lemma OutputIsLast(r: Receipts, results: seq<ToolResult>, items: seq<Item>, after: seq<Item>,
                     at: seq<nat>)
    requires results != [] && |at| == |results| - 1
    requires after == Kept(Accepted(r, Additions(results[..|results| - 1])), results[|results| - 1].additional)
    ensures OutputAt(r, results, items + [OutputItem(results[|results| - 1])] + after, at + [|items|],
                     |results| - 1)
  {
    hide Accepted, Kept, Additions;
    var all := items + [OutputItem(results[|results| - 1])] + after;
    assert all[|items| + 1..] == after;
  }

  lemma OutputStays(r: Receipts, results: seq<ToolResult>, items: seq<Item>, all: seq<Item>,
                    at: seq<nat>, i: nat)
    requires results != [] && |at| == |results| - 1 && i < |at| && items <= all
    requires OutputAt(r, results[..|results| - 1], items, at, i)
    ensures OutputAt(r, results, all, at + [|items|], i)
  {
    hide Accepted, Kept, Additions;
    var front := results[..|results| - 1];
    var end := if i + 1 < |front| then at[i + 1] else |items|;
    assert front[..i] == results[..i];
    PrefixSlice(items, all, at[i] + 1, end);
  }

  /** The usage that a batch charges, field by field. */
  function Paid(results: seq<ToolResult>): Usage
    decreases |results|
  {
    if results == [] then Usage(0, 0, 0, 0, 0, 0)
    else
      var before, last := Paid(results[..|results| - 1]), results[|results| - 1];
      match last.usage
      case None => before
      case Some(u) =>
        Usage(before.input + u.input, before.cached + u.cached, before.cacheWrite + u.cacheWrite,
              before.output + u.output, before.reasoning + u.reasoning, before.total + u.total)
  }

  lemma {:induction false} UsageIsPaid(s: Checkpoint, results: seq<ToolResult>, observed: nat -> bool)
    requires s.execution.Some? && UsageCharged(s, results, observed).Ok?
    ensures var after := UsageCharged(s, results, observed).value;
            && after == s.(totalUsage := after.totalUsage, execution := after.execution)
            && Adds(s.totalUsage, Paid(results), after.totalUsage)
            && after.execution.Some?
            && after.execution.value == s.execution.value.(usage := after.execution.value.usage)
            && Adds(s.execution.value.usage, Paid(results), after.execution.value.usage)
    decreases |results|
  {
    if results != [] {
      UsageIsPaid(s, results[..|results| - 1], observed);
    }
  }

  lemma {:induction false} PaidInRange(s: Checkpoint, results: seq<ToolResult>, observed: nat -> bool)
    requires UsageCharged(s, results, observed).Ok?
    requires exists i :: 0 <= i < |results| && results[i].usage.Some?
    ensures var after := UsageCharged(s, results, observed).value;
            InRange(after.totalUsage) && after.execution.Some? && InRange(after.execution.value.usage)
    decreases |results|
  {
    var n := |results| - 1;
    if results[n].usage.None? {
      var i :| 0 <= i < |results| && results[i].usage.Some?;
      assert results[..n][i] == results[i];
      PaidInRange(s, results[..n], observed);
    }
  }

  lemma {:induction false} ErrorsAre(results: seq<ToolResult>)
    ensures Errors(results) == |set i | 0 <= i < |results| && results[i].isError|
    decreases |results|
  {
    if results != [] {
      var n := |results| - 1;
      ErrorsAre(results[..n]);
      var before := set i | 0 <= i < n && results[..n][i].isError;
      var all := set i | 0 <= i < |results| && results[i].isError;
      assert all == before + if results[n].isError then {n} else {};
    }
  }

  lemma {:induction false} PaysIfAny(results: seq<ToolResult>)
    requires BatchUsage(results).Some?
    ensures BatchUsage(results).value.Some? <==> exists i :: 0 <= i < |results| && results[i].usage.Some?
    decreases |results|
  {
    if results != [] {
      PaysIfAny(results[..|results| - 1]);
      assert forall i :: 0 <= i < |results| - 1 ==> results[..|results| - 1][i] == results[i];
    }
  }

  /**
   What a completed tool step leaves: each result's output with its own identity, text and error
   mark, in context and transcript alike; the answered calls and the approval gone; the counters and
   the usage charged; and one end event per result.
   */
  lemma ToolsOutcome(w: World, results: seq<ToolResult>, hooks: seq<string>, observed: nat -> bool,
                     stored: bool) returns (items: seq<Item>, at: seq<nat>)
    requires ToolStepDone(w, results, hooks, observed, stored).Ok? && (results != [] || hooks != [])
    ensures w.state.execution.Some? && Outputs(w.state.delivered, results, items, at)
    ensures var s, next := w.state, ToolStepDone(w, results, hooks, observed, stored).value;
            var e := s.execution.value;
            && next.state == s.(
                              sequence := s.sequence + 1, context := s.context + items,
                              delivered := Accepted(s.delivered, Additions(results)),
                              totalUsage := next.state.totalUsage, execution := next.state.execution,
                              pendingTools := next.state.pendingTools, pendingApproval := None)
            && (forall c :: c in next.state.pendingTools <==>
                              c in s.pendingTools
                              && forall i :: 0 <= i < |results| ==> results[i].callId != c.callId)
            && next.state.execution.Some?
            && next.state.execution.value
               == e.(toolCalls := e.toolCalls + |results|,
                     failedToolCalls := e.failedToolCalls
                                        + |set i | 0 <= i < |results| && results[i].isError|,
                     usage := next.state.execution.value.usage)
            && Adds(s.totalUsage, Paid(results), next.state.totalUsage)
            && Adds(e.usage, Paid(results), next.state.execution.value.usage)
            && ChargeFits(next.state, results)
            && next.delta == [] && next.turnEnd == w.turnEnd
            && next.store.checkpoint == next.state && next.store.executions == w.store.executions
            && next.store.batches
               == w.store.batches
                  + (if w.delta + items == [] then [] else [Batch(s.sequence + 1, w.delta + items)])
            && ToolsReported(w, results, hooks, next)
  {
    hide Accepted, Kept, Outputs, BatchUsage, Charged, ToolsReported, Filter, Errors, Paid, ChargeFits;
    var taken := w.state.(pendingApproval := None);
    items := Kept(w.state.delivered, Offered(results));
    at := OfferedOutputs(w.state.delivered, results);
    OfferedReceipts(w.state.delivered, results);
    ChargedFields(taken, results, observed);
    ErrorsAre(results);
    forall c ensures c in Filter(Unfinished(results), w.state.pendingTools) <==>
                     c in w.state.pendingTools
                     && forall i :: 0 <= i < |results| ==> results[i].callId != c.callId
    {
      FilterMembers(Unfinished(results), w.state.pendingTools, c);
    }
    ToolsReport(w, results, hooks, observed, stored);
    SameCharge(Charged(taken, results, observed).value,
               ToolStepDone(w, results, hooks, observed, stored).value.state, results);
    assert w.store.executions + [] == w.store.executions;
  }

  /** The events of a saved batch. */
  ghost predicate ToolsReported(w: World, results: seq<ToolResult>, hooks: seq<string>, next: World) {
    var n, more := |w.store.events| + |hooks|, next.store.events;
    && w.store.events <= more
    && |more| == n + |results|
                 + (if exists i :: 0 <= i < |results| && results[i].usage.Some? then 1 else 0)
    && (forall i :: 0 <= i < |hooks| ==> more[|w.store.events| + i] == HookEvent(hooks[i]))
    && (forall i :: 0 <= i < |results| ==>
          more[n + i] == ToolEnded(results[i].callId, results[i].output, results[i].isError))
    && (|more| > n + |results| ==> more[n + |results|] == UsageTotal(next.state.totalUsage))
  }

  lemma ToolsReport(w: World, results: seq<ToolResult>, hooks: seq<string>, observed: nat -> bool,
                    stored: bool)
    requires ToolStepDone(w, results, hooks, observed, stored).Ok? && (results != [] || hooks != [])
    ensures ToolsReported(w, results, hooks, ToolStepDone(w, results, hooks, observed, stored).value)
  {
    hide Accepted, Kept, BatchUsage, Charged, Filter, Offered;
    PaysIfAny(results);
  }

  /** No counter left its range; usage is only checked when a result charges some. */
  ghost predicate ChargeFits(s: Checkpoint, results: seq<ToolResult>) {
    && s.execution.Some?
    && s.execution.value.toolCalls <= 0xFFFF_FFFF_FFFF_FFFF
    && s.execution.value.failedToolCalls <= 0xFFFF_FFFF_FFFF_FFFF
    && ((exists i :: 0 <= i < |results| && results[i].usage.Some?) ==>
          InRange(s.totalUsage) && InRange(s.execution.value.usage))
  }

  lemma SameCharge(s: Checkpoint, next: Checkpoint, results: seq<ToolResult>)
    requires next.execution == s.execution && next.totalUsage == s.totalUsage
    ensures ChargeFits(s, results) <==> ChargeFits(next, results)
  {
  }

  /** A batch without charges is refused by an overflowing counter, a full sequence or the store alone. */
  lemma ToolsAccepted(w: World, results: seq<ToolResult>, hooks: seq<string>, observed: nat -> bool)
    requires w.state.execution.Some? && w.state.sequence < 0xFFFF_FFFF_FFFF_FFFF
    requires forall i :: 0 <= i < |results| ==> results[i].usage.None?
    requires w.state.execution.value.toolCalls + |results| <= 0xFFFF_FFFF_FFFF_FFFF
    requires w.state.execution.value.failedToolCalls + |set i | 0 <= i < |results| && results[i].isError|
             <= 0xFFFF_FFFF_FFFF_FFFF
    ensures ToolStepDone(w, results, hooks, observed, true).Ok?
  {
    hide Offered, Kept, Accepted, Filter, Errors;
    ErrorsAre(results);
    FreeOfCharge(ToolsRecorded(w.state.(pendingApproval := None), |results|, Errors(results)).value,
                 results, observed);
  }

  lemma {:induction false} FreeOfCharge(s: Checkpoint, results: seq<ToolResult>, observed: nat -> bool)
    requires forall i :: 0 <= i < |results| ==> results[i].usage.None?
    ensures BatchUsage(results) == Some(None) && UsageCharged(s, results, observed) == Ok(s)
    decreases |results|
  {
    if results != [] {
      FreeOfCharge(s, results[..|results| - 1], observed);
    }
  }

  lemma ChargedFields(s: Checkpoint, results: seq<ToolResult>, observed: nat -> bool)
    requires Charged(s, results, observed).Ok?
    ensures s.execution.Some?
    ensures var after, e := Charged(s, results, observed).value, s.execution.value;
            && after == s.(totalUsage := after.totalUsage, execution := after.execution)
            && Adds(s.totalUsage, Paid(results), after.totalUsage)
            && after.execution.Some?
            && after.execution.value
               == e.(toolCalls := e.toolCalls + |results|,
                     failedToolCalls := e.failedToolCalls + Errors(results),
                     usage := after.execution.value.usage)
            && Adds(e.usage, Paid(results), after.execution.value.usage)
            && ChargeFits(after, results)
  {
    hide UsageCharged, Paid, Errors;
    UsageIsPaid(ToolsRecorded(s, |results|, Errors(results)).value, results, observed);
    if exists i :: 0 <= i < |results| && results[i].usage.Some? {
      PaidInRange(ToolsRecorded(s, |results|, Errors(results)).value, results, observed);
    }
  }

  // ---------- staged messages ----------

  /** The input that the hooks submitted with the messages they let through, in order. */
  function Inputs(messages: seq<QueuedMessage>, replies: nat -> Reply): seq<Item>
    decreases |messages|
  {
    if messages == [] then []
    else
      var n := |messages| - 1;
      Inputs(messages[..n], replies) + if replies(n).Submit? then replies(n).input else []
  }

  /** What staging adds to the context: per message let through, its admitted input and its text. */
  function Woven(r: Receipts, messages: seq<QueuedMessage>, replies: nat -> Reply): seq<Item>
    decreases |messages|
  {
    if messages == [] then []
    else
      var n := |messages| - 1;
      Woven(r, messages[..n], replies)
      + if !replies(n).Submit? then []
        else Kept(Accepted(r, Inputs(messages[..n], replies)), replies(n).input)
             + [Item(UserText(messages[n].text), None)]
  }

  /** What staging adds to the transcript: the text of each message let through. */
  function Said(messages: seq<QueuedMessage>, replies: nat -> Reply): seq<Item>
    decreases |messages|
  {
    if messages == [] then []
    else
      var n := |messages| - 1;
      Said(messages[..n], replies)
      + if replies(n).Submit? then [Item(UserText(messages[n].text), None)] else []
  }

  /** What staging publishes: per message, its hooks' events and its announcement or rejection. */
  function Announced(sequence: nat, unsaved: nat, messages: seq<QueuedMessage>, replies: nat -> Reply)
    : seq<Event>
    decreases |messages|
  {
    if messages == [] then []
    else
      var n := |messages| - 1;
      Announced(sequence, unsaved, messages[..n], replies)
      + match replies(n)
        case Submit(_, hooks) =>
          seq(|hooks|, j requires 0 <= j < |hooks| => HookEvent(hooks[j]))
          + [Message(messages[n].id,
                     MessageTarget(sequence + 1, 1 + unsaved + |Said(messages[..n], replies)|))]
        case TurnAway(reason, hooks) =>
          seq(|hooks|, j requires 0 <= j < |hooks| => HookEvent(hooks[j]))
          + [Rejected(messages[n].id, reason)]
        case Fail => []
  }

  /** Message `i` is the first one let through. */
  predicate FirstThrough(messages: seq<QueuedMessage>, replies: nat -> Reply, i: nat) {
    i < |messages| && replies(i).Submit? && forall k :: 0 <= k < i ==> !replies(k).Submit?
  }

  predicate NoneThrough(messages: seq<QueuedMessage>, replies: nat -> Reply) {
    forall i :: 0 <= i < |messages| ==> !replies(i).Submit?
  }

  lemma {:induction false} StagedIs(w: World, messages: seq<QueuedMessage>, replies: nat -> Reply)
    ensures StagedAll(w, messages, replies).None? <==> exists i :: 0 <= i < |messages| && replies(i).Fail?
    ensures StagedAll(w, messages, replies).Some? ==>
              var st := StagedAll(w, messages, replies).value;
              && st.context == w.state.context + Woven(w.state.delivered, messages, replies)
              && st.delivered == Accepted(w.state.delivered, Inputs(messages, replies))
              && st.transcript == Said(messages, replies)
              && st.events == Announced(w.state.sequence, |w.delta|, messages, replies)
    decreases |messages|
  {
    hide Kept, Accepted;
    if messages == [] {
      assert w.state.context + [] == w.state.context;
      NothingAccepted(w.state.delivered);
    } else {
      var n := |messages| - 1;
      StagedIs(w, messages[..n], replies);
      if StagedAll(w, messages, replies).Some? {
        StagedPush(w, messages, replies);
      }
    }
  }

  lemma NothingAccepted(r: Receipts)
    ensures Accepted(r, []) == r
  {
  }

  lemma StagedPush(w: World, messages: seq<QueuedMessage>, replies: nat -> Reply)
    requires messages != [] && StagedAll(w, messages, replies).Some?
    requires var front := messages[..|messages| - 1];
             StagedAll(w, front, replies).Some?
             && var st := StagedAll(w, front, replies).value;
                && st.context == w.state.context + Woven(w.state.delivered, front, replies)
                && st.delivered == Accepted(w.state.delivered, Inputs(front, replies))
                && st.transcript == Said(front, replies)
                && st.events == Announced(w.state.sequence, |w.delta|, front, replies)
    ensures var st := StagedAll(w, messages, replies).value;
            && st.context == w.state.context + Woven(w.state.delivered, messages, replies)
            && st.delivered == Accepted(w.state.delivered, Inputs(messages, replies))
            && st.transcript == Said(messages, replies)
            && st.events == Announced(w.state.sequence, |w.delta|, messages, replies)
  {
    hide Kept, Accepted;
    var n := |messages| - 1;
    if replies(n).Submit? {
      AcceptedConcat(w.state.delivered, Inputs(messages[..n], replies), replies(n).input);
    } else {
      assert Inputs(messages[..n], replies) + [] == Inputs(messages[..n], replies);
    }
  }

  lemma {:induction false} StagedOrigin(w: World, messages: seq<QueuedMessage>, replies: nat -> Reply)
    requires StagedAll(w, messages, replies).Some?
    ensures var st := StagedAll(w, messages, replies).value;
            if w.state.execution.None? || !w.state.execution.value.idle then st.origin.None?
            else
              && (st.origin.None? <==> NoneThrough(messages, replies))
              && forall i: nat :: FirstThrough(messages, replies, i) ==>
                                    st.origin == Some((messages[i].author, messages[i].id))
    ensures StagedAll(w, messages, replies).value.transcript == [] <==> NoneThrough(messages, replies)
    decreases |messages|
  {
    hide Kept, Accepted;
    if messages != [] {
      var n := |messages| - 1;
      StagedOrigin(w, messages[..n], replies);
    }
  }

  /**
   What staging leaves: the turn's steering messages leave the queue, and those let through enter
   context and transcript with their input; an idle execution becomes the first one's turn.
   */
  lemma StageOutcome(w: World, owner: string, turn: string, replies: nat -> Reply)
    requires InputStaged(w, Some(owner), turn, replies, true).Ok?
    ensures var s, next := w.state, InputStaged(w, Some(owner), turn, replies, true).value;
            var steers := (m: QueuedMessage) => m.owner == owner && m.boundary == Steer(turn);
            var others := (m: QueuedMessage) => !(m.owner == owner && m.boundary == Steer(turn));
            var messages := Filter(steers, s.queue);
            if messages == [] then next == w
            else
              && next.state == s.(
                                sequence := s.sequence + 1, queue := Filter(others, s.queue),
                                context := s.context + Woven(s.delivered, messages, replies),
                                delivered := Accepted(s.delivered, Inputs(messages, replies)),
                                execution := next.state.execution)
              && Wakes(s.execution, messages, replies, next.state.execution)
              && next.delta == [] && next.turnEnd == w.turnEnd
              && next.store.checkpoint == next.state && next.store.executions == w.store.executions
              && next.store.batches
                 == w.store.batches
                    + (if w.delta + Said(messages, replies) == [] then []
                       else [Batch(s.sequence + 1, w.delta + Said(messages, replies))])
              && next.store.events
                 == w.store.events
                    + ((if next.state.execution != s.execution then [TurnStarted(turn)] else [])
                       + Announced(s.sequence, |w.delta|, messages, replies))
  {
    hide Kept, Accepted, StagedAll, Filter, Woven, Said, Announced, Inputs;
    var steers := (m: QueuedMessage) => m.owner == owner && m.boundary == Steer(turn);
    var others := (m: QueuedMessage) => !(m.owner == owner && m.boundary == Steer(turn));
    FilterSame(Leaving(owner, turn), steers, w.state.queue);
    FilterSame(Staying(owner, turn), others, w.state.queue);
    var messages := Filter(steers, w.state.queue);
    if messages != [] {
      StagedIs(w, messages, replies);
      StagedOrigin(w, messages, replies);
      assert w.store.executions + [] == w.store.executions;
      if !NoneThrough(messages, replies) {
        var i := FirstOf(messages, replies);
      }
    }
  }

  /** An idle execution becomes a turn of the first message let through; any other is kept. */
  ghost predicate Wakes(before: Option<Execution>, messages: seq<QueuedMessage>, replies: nat -> Reply,
                        after: Option<Execution>)
  {
    if before.None? || !before.value.idle || NoneThrough(messages, replies) then after == before
    else
      exists i: nat :: FirstThrough(messages, replies, i)
                       && after == Some(before.value.(idle := false, author := messages[i].author))
  }

  lemma FirstOf(messages: seq<QueuedMessage>, replies: nat -> Reply) returns (i: nat)
    requires !NoneThrough(messages, replies)
    ensures FirstThrough(messages, replies, i)
  {
    i := 0;
    while !replies(i).Submit?
      invariant i < |messages| && forall k :: 0 <= k < i ==> !replies(k).Submit?
      decreases |messages| - i
    {
      i := i + 1;
    }
  }

  // ---------- ending a turn ----------

  /** A message that steers the turn waits for the next one; every other message is untouched. */
  ghost predicate Released(before: seq<QueuedMessage>, after: seq<QueuedMessage>, owner: string,
                           turn: string)
  {
    |after| == |before|
    && forall i :: 0 <= i < |before| ==>
                     after[i] == if before[i].owner == owner && before[i].boundary == Steer(turn)
                                 then before[i].(boundary := Boundary.Queue) else before[i]
  }

  /** What ending a turn leaves: the record, the queue, the mark of the hooks, and the last event. */
  lemma EndOutcome(w: World, owner: Option<string>, turn: string, outcome: Outcome, reason: string,
                   events: seq<Event>, env: Ending)
    requires TurnFinished(w, owner, turn, outcome, reason, events, env).Ok?
    ensures owner.Some? && env.clock.Some? && env.stored && w.state.execution.Some?
    ensures w.turnEnd != Some(turn) ==> env.hooks.Some?
    ensures var s, next := w.state, TurnFinished(w, owner, turn, outcome, reason, events, env).value;
            var hooks := if w.turnEnd == Some(turn) then [] else env.hooks.value;
            && Finished(s, outcome, env.clock).Ok?
            && var (ended, record) := Finished(s, outcome, env.clock).value;
               && next.state == ended.(sequence := s.sequence + 1, queue := next.state.queue)
               && (outcome.Completed? ==> next.state.queue == s.queue)
               && (!outcome.Completed? ==> Released(s.queue, next.state.queue, owner.value, turn))
               && next.turnEnd == Some(turn) && next.delta == []
               && next.store.checkpoint == next.state
               && next.store.executions == w.store.executions + [record]
               && next.store.batches
                  == w.store.batches
                     + (if w.delta == [] then [] else [Batch(s.sequence + 1, w.delta)])
               && next.store.events
                  == w.store.events
                     + (events + seq(|hooks|, i requires 0 <= i < |hooks| => HookEvent(hooks[i]))
                        + [TurnEnded(turn, outcome, reason)])
  {
    hide Tallied, RecordOf;
  }

  /** The items and events that settle the pending calls of an aborted turn. */
  ghost predicate Settles(s: Checkpoint, reason: string, items: seq<Item>, ends: seq<Event>) {
    var calls, first := s.pendingTools, if s.step.Some? then |s.pendingTools| else 0;
    && |items| == first + |calls| && |ends| == |calls|
    && (forall i :: 0 <= i < first ==>
          items[i] == Item(FunctionCall(calls[i].callId, calls[i].name, calls[i].arguments), None))
    && (forall i :: 0 <= i < |calls| ==>
          && items[first + i]
             == Item(FunctionOutput(calls[i].callId, "execution interrupted; result unknown: " + reason, true),
                     None)
          && ends[i] == ToolEnded(calls[i].callId, "execution interrupted; result unknown: " + reason, true))
  }

  /** What an aborted turn leaves: its calls settled, nothing in flight, and its record. */
  lemma AbortOutcome(w: World, owner: Option<string>, turn: string, outcome: Outcome, reason: string,
                     events: seq<Event>, env: Ending) returns (items: seq<Item>, ends: seq<Event>)
    requires TurnAborted(w, owner, turn, outcome, reason, events, env).Ok? && !outcome.Completed?
    ensures Settles(w.state, reason, items, ends)
    ensures w.state.execution.Some? && owner.Some? && env.clock.Some?
    ensures w.turnEnd != Some(turn) ==> env.hooks.Some?
    ensures var s, next := w.state, TurnAborted(w, owner, turn, outcome, reason, events, env).value;
            var calls, hooks := |s.pendingTools|, if w.turnEnd == Some(turn) then [] else env.hooks.value;
            var record := next.store.executions[|next.store.executions| - 1];
            && next.state == s.(
                              sequence := s.sequence + 1, context := s.context + items,
                              queue := next.state.queue, execution := None, step := None,
                              stats := next.state.stats, pendingTools := [], pendingApproval := None)
            && Released(s.queue, next.state.queue, owner.value, turn)
            && next.store.executions == w.store.executions + [record]
            && record.outcome == outcome && record.turn == s.execution.value.turn
            && record.toolCalls == s.execution.value.toolCalls + calls
            && record.failedToolCalls == s.execution.value.failedToolCalls + calls
            && next.delta == [] && next.turnEnd == Some(turn)
            && next.store.batches
               == w.store.batches
                  + (if w.delta + items == [] then [] else [Batch(s.sequence + 1, w.delta + items)])
            && next.store.events
               == w.store.events
                  + (events + ends + seq(|hooks|, i requires 0 <= i < |hooks| => HookEvent(hooks[i]))
                     + [TurnEnded(turn, outcome, reason)])
  {
    hide Released, Settles, PendingFinished, TurnFinished, SumUsage;
    PendingFinishedIs(w, reason, env.observed);
    var (finished, reported) := PendingFinished(w, reason, env.observed).value;
    ends := reported;
    items := (if w.state.step.Some? then CallItems(w.state.pendingTools) else [])
             + ErrorItems(w.state.pendingTools, INTERRUPTED + reason);
    EndOutcome(Settled(finished), owner, turn, outcome, reason, events + ends, env);
    AbortSettles(w, reason, env.observed, items, ends);
  }

  lemma AbortSettles(w: World, reason: string, observed: nat -> bool, items: seq<Item>, ends: seq<Event>)
    requires PendingFinished(w, reason, observed).Ok? && PendingFinished(w, reason, observed).value.1 == ends
    requires items == (if w.state.step.Some? then CallItems(w.state.pendingTools) else [])
                      + ErrorItems(w.state.pendingTools, INTERRUPTED + reason)
    ensures Settles(w.state, reason, items, ends)
  {
    hide ToolsApplied;
  }
}
