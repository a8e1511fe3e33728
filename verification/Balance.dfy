/** Calls and outputs in the context: what is open, and how each kind of append changes it. */
module Balance {
  import opened Checkpoint
  import opened DeliveryOnce
  import opened RunnerSpec
  import opened Sequences
  import opened Startup
  import opened Sums
  import opened Wrappers

  function CallsTo(id: string): Item -> nat {
    (item: Item) => if item.body.FunctionCall? && item.body.callId == id then 1 else 0
  }

  function OutputsOf(id: string): Item -> nat {
    (item: Item) => if item.body.FunctionOutput? && item.body.callId == id then 1 else 0
  }

  function CallCount(items: seq<Item>, id: string): nat {
    Sum(CallsTo(id), items)
  }

  function OutputCount(items: seq<Item>, id: string): nat {
    Sum(OutputsOf(id), items)
  }

  /** Hook and tool guidance: neither a call nor an output. */
  predicate Quiet(items: seq<Item>) {
    forall i :: 0 <= i < |items| ==> IsQuiet(items[i])
  }

  predicate IsQuiet(item: Item) {
    !item.body.FunctionCall? && !item.body.FunctionOutput?
  }

  /** Only guidance carries a receipt. */
  predicate OnlyGuidanceOnce(items: seq<Item>) {
    forall i :: 0 <= i < |items| && !IsQuiet(items[i]) ==> items[i].receipt.None?
  }

  ghost function Ids(calls: seq<ToolCall>): set<string> {
    set i | 0 <= i < |calls| :: calls[i].callId
  }

  ghost predicate DistinctIds(calls: seq<ToolCall>) {
    forall i, j :: 0 <= i < j < |calls| ==> calls[i].callId != calls[j].callId
  }

  /** No output comes before the call it answers. */
  ghost predicate InOrder(items: seq<Item>) {
    forall n, id :: 0 <= n <= |items| ==> OutputCount(items[..n], id) <= CallCount(items[..n], id)
  }

  /** Each call has exactly one output after it, but for one call of each identity in `open`. */
  ghost predicate Matched(items: seq<Item>, open: set<string>) {
    && InOrder(items)
    && forall id :: CallCount(items, id) == OutputCount(items, id) + if id in open then 1 else 0
  }

  /**
   Between model steps the open calls are exactly the pending tools. While a model step is active
   nothing is open: its pending calls are not in the context yet.
   */
  ghost predicate Balanced(s: Checkpoint) {
    && DistinctIds(s.pendingTools)
    && Matched(s.context, if s.step.None? then Ids(s.pendingTools) else {})
  }

  lemma CountConcat(a: seq<Item>, b: seq<Item>, id: string)
    ensures CallCount(a + b, id) == CallCount(a, id) + CallCount(b, id)
    ensures OutputCount(a + b, id) == OutputCount(a, id) + OutputCount(b, id)
  {
    SumConcat(CallsTo(id), a, b);
    SumConcat(OutputsOf(id), a, b);
  }

  /** Appending outputs for calls that are already there keeps the order. */
  lemma OrderAppend(items: seq<Item>, more: seq<Item>)
    requires InOrder(items)
    requires forall id :: OutputCount(items, id) + OutputCount(more, id) <= CallCount(items, id)
    ensures InOrder(items + more)
  {
    var all := items + more;
    forall n, id | 0 <= n <= |all| ensures OutputCount(all[..n], id) <= CallCount(all[..n], id) {
      if n <= |items| {
        assert all[..n] == items[..n];
      } else {
        var k := n - |items|;
        assert all[..n] == items + more[..k];
        CountConcat(items, more[..k], id);
        SumPrefix(OutputsOf(id), more, k);
      }
    }
  }

  /** Appending one call for each of some identities that are not open opens exactly those. */
  lemma CallsOpen(items: seq<Item>, more: seq<Item>, added: set<string>)
    requires Matched(items, {})
    requires forall id :: CallCount(more, id) == if id in added then 1 else 0
    requires forall id :: OutputCount(more, id) == 0
    ensures Matched(items + more, added)
  {
    hide InOrder;
    OrderAppend(items, more);
    forall id
      ensures CallCount(items + more, id)
              == OutputCount(items + more, id) + if id in added then 1 else 0
    {
      CountConcat(items, more, id);
    }
  }

  /** Appending one output for each of some open calls closes exactly those. */
  lemma OutputsClose(items: seq<Item>, more: seq<Item>, open: set<string>, closed: set<string>)
    requires Matched(items, open) && closed <= open
    requires forall id :: OutputCount(more, id) == if id in closed then 1 else 0
    requires forall id :: CallCount(more, id) == 0
    ensures Matched(items + more, open - closed)
  {
    hide InOrder;
    OrderAppend(items, more);
    forall id
      ensures CallCount(items + more, id)
              == OutputCount(items + more, id) + if id in open - closed then 1 else 0
    {
      CountConcat(items, more, id);
    }
  }

  lemma {:induction false} QuietCounts(items: seq<Item>, id: string)
    requires Quiet(items)
    ensures CallCount(items, id) == 0 && OutputCount(items, id) == 0
    decreases |items|
  {
    if items != [] {
      QuietCounts(items[..|items| - 1], id);
    }
  }

  /** Guidance and messages leave the balance alone. */
  lemma QuietKeeps(items: seq<Item>, more: seq<Item>, open: set<string>)
    requires Matched(items, open) && Quiet(more)
    ensures Matched(items + more, open)
  {
    forall id ensures CallCount(more, id) == 0 && OutputCount(more, id) == 0 {
      QuietCounts(more, id);
    }
    OutputsClose(items, more, open, {});
    assert open - {} == open;
  }

  /** Acceptance drops only guidance: calls and outputs carry no receipt. */
  lemma {:induction false} KeptCounts(r: Receipts, items: seq<Item>, id: string)
    requires OnlyGuidanceOnce(items)
    ensures CallCount(Kept(r, items), id) == CallCount(items, id)
    ensures OutputCount(Kept(r, items), id) == OutputCount(items, id)
    decreases |items|
  {
    hide Accepted;
    if items != [] {
      var front, last := items[..|items| - 1], items[|items| - 1];
      KeptCounts(r, front, id);
      SumPush(CallsTo(id), Kept(r, front), last);
      SumPush(OutputsOf(id), Kept(r, front), last);
      assert Kept(r, front) + [] == Kept(r, front);
    }
  }

  lemma {:induction false} KeptQuiet(r: Receipts, items: seq<Item>)
    requires Quiet(items)
    ensures Quiet(Kept(r, items))
    decreases |items|
  {
    if items != [] {
      KeptQuiet(r, items[..|items| - 1]);
    }
  }

  lemma IdsFront(calls: seq<ToolCall>)
    requires calls != []
    ensures Ids(calls) == Ids(calls[..|calls| - 1]) + {calls[|calls| - 1].callId}
    ensures DistinctIds(calls) ==>
              DistinctIds(calls[..|calls| - 1])
              && calls[|calls| - 1].callId !in Ids(calls[..|calls| - 1])
  {
    var front := calls[..|calls| - 1];
    assert forall i :: 0 <= i < |front| ==> front[i] == calls[i];
    forall id | id in Ids(front) + {calls[|calls| - 1].callId} ensures id in Ids(calls) {
      if id != calls[|calls| - 1].callId {
        var i :| 0 <= i < |front| && front[i].callId == id;
        assert calls[i].callId == id;
      }
    }
  }

  lemma {:induction false} CallItemsCount(calls: seq<ToolCall>, id: string)
    requires DistinctIds(calls)
    ensures CallCount(CallItems(calls), id) == if id in Ids(calls) then 1 else 0
    ensures OutputCount(CallItems(calls), id) == 0
    decreases |calls|
  {
    if calls != [] {
      var front, last := calls[..|calls| - 1], calls[|calls| - 1];
      IdsFront(calls);
      CallItemsCount(front, id);
      assert CallItems(calls) == CallItems(front) + [CallItem(last)];
      SumPush(CallsTo(id), CallItems(front), CallItem(last));
      SumPush(OutputsOf(id), CallItems(front), CallItem(last));
    }
  }

  lemma {:induction false} ErrorItemsCount(calls: seq<ToolCall>, message: string, id: string)
    requires DistinctIds(calls)
    ensures OutputCount(ErrorItems(calls, message), id) == if id in Ids(calls) then 1 else 0
    ensures CallCount(ErrorItems(calls, message), id) == 0
    decreases |calls|
  {
    if calls != [] {
      var front, last := calls[..|calls| - 1], calls[|calls| - 1];
      var item := Item(FunctionOutput(last.callId, message, true), None);
      IdsFront(calls);
      ErrorItemsCount(front, message, id);
      assert ErrorItems(calls, message) == ErrorItems(front, message) + [item];
      SumPush(CallsTo(id), ErrorItems(front, message), item);
      SumPush(OutputsOf(id), ErrorItems(front, message), item);
    }
  }

  // ---------- results ----------

  ghost function ResultIds(results: seq<ToolResult>): set<string> {
    set i | 0 <= i < |results| :: results[i].callId
  }

  ghost predicate DistinctResults(results: seq<ToolResult>) {
    forall i, j :: 0 <= i < j < |results| ==> results[i].callId != results[j].callId
  }

  /** Results of distinct pending calls that add nothing but guidance. */
  ghost predicate Answers(results: seq<ToolResult>, calls: seq<ToolCall>) {
    && DistinctResults(results)
    && ResultIds(results) <= Ids(calls)
    && forall i :: 0 <= i < |results| ==> Quiet(results[i].additional)
  }

  lemma ResultIdsFront(results: seq<ToolResult>)
    requires results != [] && DistinctResults(results)
    ensures ResultIds(results)
            == ResultIds(results[..|results| - 1]) + {results[|results| - 1].callId}
    ensures DistinctResults(results[..|results| - 1])
    ensures results[|results| - 1].callId !in ResultIds(results[..|results| - 1])
  {
    var front := results[..|results| - 1];
    assert forall i :: 0 <= i < |front| ==> front[i] == results[i];
    forall id | id in ResultIds(front) + {results[|results| - 1].callId} ensures id in ResultIds(results) {
      if id != results[|results| - 1].callId {
        var i :| 0 <= i < |front| && front[i].callId == id;
        assert results[i].callId == id;
      }
    }
  }

  /** A batch appends one output per result, and nothing else that counts. */
  lemma {:induction false} OfferedCounts(results: seq<ToolResult>, id: string)
    requires DistinctResults(results)
    requires forall i :: 0 <= i < |results| ==> Quiet(results[i].additional)
    ensures OutputCount(Offered(results), id) == if id in ResultIds(results) then 1 else 0
    ensures CallCount(Offered(results), id) == 0
    ensures OnlyGuidanceOnce(Offered(results))
    decreases |results|
  {
    hide ResultIds, DistinctResults, Quiet;
    if results != [] {
      var front, last := results[..|results| - 1], results[|results| - 1];
      ResultIdsFront(results);
      OfferedCounts(front, id);
      var tail := [OutputItem(last)] + last.additional;
      OutputTail(last, id);
      CountConcat(Offered(front), tail, id);
    } else {
      NoResults();
    }
  }

  lemma NoResults()
    ensures ResultIds([]) == {}
  {
  }

  lemma OutputTail(r: ToolResult, id: string)
    requires Quiet(r.additional)
    ensures var tail := [OutputItem(r)] + r.additional;
            && CallCount(tail, id) == 0 && OnlyGuidanceOnce(tail)
            && OutputCount(tail, id) == if id == r.callId then 1 else 0
  {
    QuietCounts(r.additional, id);
    CountConcat([OutputItem(r)], r.additional, id);
    SumPush(CallsTo(id), [], OutputItem(r));
    SumPush(OutputsOf(id), [], OutputItem(r));
    assert [] + [OutputItem(r)] == [OutputItem(r)];
  }

  /** Removing the answered calls from the pending tools leaves exactly the open ones. */
  lemma {:induction false} PendingLeft(calls: seq<ToolCall>, results: seq<ToolResult>)
    requires DistinctIds(calls)
    ensures var rest := Filter(Unfinished(results), calls);
            DistinctIds(rest) && Ids(rest) == Ids(calls) - ResultIds(results)
    decreases |calls|
  {
    if calls != [] {
      var front, last := calls[..|calls| - 1], calls[|calls| - 1];
      PendingLeft(front, results);
      IdsFront(calls);
      var rest := Filter(Unfinished(results), front);
      if Unfinished(results)(last) {
        var all := rest + [last];
        assert all[..|all| - 1] == rest;
        IdsFront(all);
        forall i | 0 <= i < |rest| ensures rest[i].callId != last.callId {
          assert rest[i].callId in Ids(rest);
        }
      } else {
        var i :| 0 <= i < |results| && results[i].callId == last.callId;
        assert last.callId in ResultIds(results);
        assert rest + [] == rest;
      }
    }
  }

  // ---------- settling ----------

  /** The items that settle every pending call of a state. */
  function Settling(s: Checkpoint, message: string): seq<Item> {
    (if s.step.Some? then CallItems(s.pendingTools) else [])
    + ErrorItems(s.pendingTools, message)
  }

  /** A live abort and a restart both leave no call open, whichever side of a step they meet. */
  lemma SettlingBalances(s: Checkpoint, message: string)
    requires Balanced(s)
    ensures Matched(s.context + Settling(s, message), {})
  {
    hide Matched, CallItems, ErrorItems, CallCount, OutputCount;
    var head := if s.step.Some? then CallItems(s.pendingTools) else [];
    var ids := Ids(s.pendingTools);
    forall id
      ensures CallCount(CallItems(s.pendingTools), id) == if id in ids then 1 else 0
      ensures OutputCount(CallItems(s.pendingTools), id) == 0
      ensures OutputCount(ErrorItems(s.pendingTools, message), id) == if id in ids then 1 else 0
      ensures CallCount(ErrorItems(s.pendingTools, message), id) == 0
    {
      CallItemsCount(s.pendingTools, id);
      ErrorItemsCount(s.pendingTools, message, id);
    }
    if s.step.Some? {
      CallsOpen(s.context, head, ids);
    } else {
      assert s.context + head == s.context;
    }
    OutputsClose(s.context + head, ErrorItems(s.pendingTools, message), ids, ids);
    Assoc(s.context, head, ErrorItems(s.pendingTools, message));
    assert ids - ids == {};
  }
}
