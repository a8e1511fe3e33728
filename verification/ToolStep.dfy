/** Assembling a batch of tool results: one per call, in call order. */
module ToolStep {
  import opened Balance
  import opened Checkpoint
  import opened DeliveryOnce
  import opened RunnerSpec
  import opened Sequences
  import opened Wrappers

  // ---------- ordering ----------

  ghost predicate HasResult(results: seq<ToolResult>, id: string) {
    exists i :: 0 <= i < |results| && results[i].callId == id
  }

  /** The last result of a call. */
  method RPosition(results: seq<ToolResult>, id: string) returns (index: Option<nat>)
    ensures index.None? <==> !HasResult(results, id)
    ensures index.Some? ==> index.value < |results| && results[index.value].callId == id
    ensures index.Some? ==> forall k :: index.value < k < |results| ==> results[k].callId != id
  {
    var i := |results|;
    while i > 0
      invariant 0 <= i <= |results|
      invariant forall k :: i <= k < |results| ==> results[k].callId != id
    {
      i := i - 1;
      if results[i].callId == id {
        return Some(i);
      }
    }
    return None;
  }

  /** Removes one result in constant time: the last one takes its place. */
  method SwapRemove(results: seq<ToolResult>, index: nat)
    returns (removed: ToolResult, rest: seq<ToolResult>)
    requires index < |results|
    ensures removed == results[index]
    ensures multiset(results) == multiset(rest) + multiset{removed}
  {
    removed := results[index];
    var last := results[|results| - 1];
    var front := results[..|results| - 1];
    assert results == front + [last];
    rest := if index < |front| then front[index := last] else front;
  }

  ghost predicate Named(results: seq<ToolResult>, calls: seq<ToolCall>) {
    |results| == |calls| && forall i :: 0 <= i < |calls| ==> results[i].callId == calls[i].callId
  }

  /** The calls that have a result, in order. */
  ghost function Answered(calls: seq<ToolCall>, results: seq<ToolResult>): seq<ToolCall>
    decreases |calls|
  {
    if calls == [] then []
    else
      var last := calls[|calls| - 1];
      Answered(calls[..|calls| - 1], results) + if HasResult(results, last.callId) then [last] else []
  }

  /**
   Puts results in call order. No result is invented or used twice, and when the calls are
   distinct exactly the calls that have a result keep one.
   */
  method OrderResults(calls: seq<ToolCall>, results: seq<ToolResult>) returns (ordered: seq<ToolResult>)
    ensures multiset(ordered) <= multiset(results)
    ensures DistinctIds(calls) ==> Named(ordered, Answered(calls, results))
  {
    hide Named, DistinctIds, Answered, HasResult;
    ordered := [];
    AnsweredPush([], results, ToolCall("", "", ""));
    var left := results;
    var i := 0;
    assert Named([], []) by {
      NamedPush([], [], None);
    }
    while i < |calls|
      invariant i <= |calls|
      invariant multiset(ordered) + multiset(left) == multiset(results)
      invariant forall k :: 0 <= k < |ordered| ==> exists j :: 0 <= j < i && ordered[k].callId == calls[j].callId
      invariant DistinctIds(calls) ==> Named(ordered, Answered(calls[..i], results))
    {
      assert calls[..i + 1] == calls[..i] + [calls[i]];
      AnsweredPush(calls[..i], results, calls[i]);
      LeftHas(results, ordered, left, calls, i);
      var index := RPosition(left, calls[i].callId);
      if index.Some? {
        var removed;
        removed, left := SwapRemove(left, index.value);
        NamedPush(ordered, Answered(calls[..i], results), Some((removed, calls[i])));
        ordered := ordered + [removed];
      } else {
        assert Answered(calls[..i], results) + [] == Answered(calls[..i], results);
      }
      i := i + 1;
    }
    assert calls[..|calls|] == calls;
  }

  lemma AnsweredPush(calls: seq<ToolCall>, results: seq<ToolResult>, c: ToolCall)
    ensures Answered([], results) == []
    ensures Answered(calls + [c], results)
            == Answered(calls, results) + if HasResult(results, c.callId) then [c] else []
  {
    assert (calls + [c])[..|calls|] == calls;
  }

  lemma NamedPush(results: seq<ToolResult>, calls: seq<ToolCall>, more: Option<(ToolResult, ToolCall)>)
    requires more.Some? ==> more.value.0.callId == more.value.1.callId
    ensures Named([], [])
    ensures more.Some? && Named(results, calls)
            ==> Named(results + [more.value.0], calls + [more.value.1])
  {
  }

  /** A call that was not reached yet has a result left exactly when it ever had one. */
  lemma LeftHas(results: seq<ToolResult>, ordered: seq<ToolResult>, left: seq<ToolResult>,
                calls: seq<ToolCall>, i: nat)
    requires i < |calls| && multiset(ordered) + multiset(left) == multiset(results)
    requires forall k :: 0 <= k < |ordered| ==> exists j :: 0 <= j < i && ordered[k].callId == calls[j].callId
    ensures HasResult(left, calls[i].callId) ==> HasResult(results, calls[i].callId)
    ensures DistinctIds(calls) ==>
              (HasResult(left, calls[i].callId) <==> HasResult(results, calls[i].callId))
  {
    var id := calls[i].callId;
    if k :| 0 <= k < |left| && left[k].callId == id {
      assert left[k] in multiset(results);
    }
    if DistinctIds(calls) && HasResult(results, id) {
      var k :| 0 <= k < |results| && results[k].callId == id;
      assert results[k] in multiset(ordered) + multiset(left);
      assert forall m :: 0 <= m < |ordered| ==> ordered[m].callId != id;
      assert results[k] in left;
    }
  }

  lemma {:induction false} AllAnswered(calls: seq<ToolCall>, results: seq<ToolResult>)
    requires forall i :: 0 <= i < |calls| ==> HasResult(results, calls[i].callId)
    ensures Answered(calls, results) == calls
    decreases |calls|
  {
    if calls != [] {
      AllAnswered(calls[..|calls| - 1], results);
    }
  }

  /** Whatever the order they came in, one result per distinct call comes out in call order. */
  lemma OneResultPerCall(calls: seq<ToolCall>, expected: seq<ToolResult>, results: seq<ToolResult>,
                         ordered: seq<ToolResult>)
    requires DistinctIds(calls) && Named(expected, calls)
    requires multiset(results) == multiset(expected)
    requires multiset(ordered) <= multiset(results) && Named(ordered, Answered(calls, results))
    ensures ordered == expected
  {
    hide DistinctIds;
    forall i | 0 <= i < |calls| ensures HasResult(results, calls[i].callId) {
      assert expected[i] in multiset(expected);
      assert expected[i] in results;
    }
    AllAnswered(calls, results);
    forall i | 0 <= i < |ordered| ensures ordered[i] == expected[i] {
      assert ordered[i] in multiset(ordered);
      InMore(multiset(ordered), multiset(results), ordered[i]);
      assert ordered[i] in multiset(expected);
      OnlyNamed(calls, expected, ordered[i], i);
    }
  }

  lemma InMore<T>(a: multiset<T>, b: multiset<T>, x: T)
    requires a <= b && x in a
    ensures x in b
  {
  }

  /** A result named like call `i` of distinct calls can only be result `i`. */
  lemma OnlyNamed(calls: seq<ToolCall>, expected: seq<ToolResult>, r: ToolResult, i: nat)
    requires DistinctIds(calls) && Named(expected, calls) && i < |calls|
    requires r in expected && r.callId == calls[i].callId
    ensures r == expected[i]
  {
    var j :| 0 <= j < |expected| && expected[j] == r;
  }

  // ---------- assembling a step's results ----------

  datatype Ran = Ran(output: string, isError: bool, usage: Option<Usage>, additional: seq<Item>)

  function ErrorResult(c: ToolCall, message: string): ToolResult {
    ToolResult(c.callId, c.name, message, true, None, [])
  }

  /** How far a batch got: it ran, or newer input cancelled it before or while it ran. */
  datatype Progress = NotStarted | Cancelled | Executed

  /** What the tools around a batch do: why a call cannot be bound, and what a bound one returns. */
  datatype Tools = Tools(unbound: ToolCall -> Option<string>, run: ToolCall -> Ran)

  /** The one result that a call of a batch ends with. */
  function ResultOf(t: Tools, progress: Progress, c: ToolCall): ToolResult {
    match t.unbound(c)
    case Some(error) => ErrorResult(c, error)
    case None =>
      match progress
      case NotStarted =>
        ErrorResult(c, "execution cancelled before start because newer input is ready")
      case Cancelled => ErrorResult(c, "execution cancelled by newer input; result unknown")
      case Executed =>
        var ran := t.run(c);
        ToolResult(c.callId, c.name, ran.output, ran.isError, ran.usage, ran.additional)
  }

  function ResultsOf(t: Tools, progress: Progress, calls: seq<ToolCall>): seq<ToolResult> {
    seq(|calls|, i requires 0 <= i < |calls| => ResultOf(t, progress, calls[i]))
  }

  lemma ResultsPush(t: Tools, progress: Progress, calls: seq<ToolCall>, c: ToolCall)
    ensures ResultsOf(t, progress, calls + [c])
            == ResultsOf(t, progress, calls) + [ResultOf(t, progress, c)]
    ensures ResultsOf(t, progress, []) == []
  {
  }

  /** Separates the calls that can run from those that cannot, with an error for each of these. */
  method BindBatch(t: Tools, calls: seq<ToolCall>, ghost progress: Progress)
    returns (callable: seq<ToolCall>, unavailable: seq<ToolResult>)
    ensures forall i :: 0 <= i < |callable| ==> t.unbound(callable[i]).None?
    ensures multiset(ResultsOf(t, progress, callable)) + multiset(unavailable)
            == multiset(ResultsOf(t, progress, calls))
  {
    hide ResultsOf;
    callable, unavailable := [], [];
    var i := 0;
    assert calls[..0] == [];
    while i < |calls|
      invariant i <= |calls|
      invariant forall k :: 0 <= k < |callable| ==> t.unbound(callable[k]).None?
      invariant multiset(ResultsOf(t, progress, callable)) + multiset(unavailable)
                == multiset(ResultsOf(t, progress, calls[..i]))
    {
      assert calls[..i + 1] == calls[..i] + [calls[i]];
      ResultsPush(t, progress, calls[..i], calls[i]);
      match t.unbound(calls[i]) {
        case None =>
          ResultsPush(t, progress, callable, calls[i]);
          callable := callable + [calls[i]];
        case Some(error) =>
          unavailable := unavailable + [ErrorResult(calls[i], error)];
      }
      i := i + 1;
    }
    assert calls[..|calls|] == calls;
  }

  /** What one look at the inbox found: newer input, and an interrupt of the turn. */
  datatype Poll = Poll(changed: bool, interrupt: Option<string>)

  /**
   What arrives around a batch: `first` before it starts, and `polls` until it is done. `cancels`
   is whether newer input cancels these tools, `waiting` whether messages wait for the turn.
   */
  datatype Arrivals = Arrivals(cancels: bool, waiting: bool, first: Poll, polls: seq<Poll>)

  /** How a batch ends: for its calls, or for the whole turn. */
  datatype Fate = Finishes(progress: Progress, changed: bool) | Interrupts(submission: string)

  function FateOf(a: Arrivals): Fate {
    if a.first.interrupt.Some? then Interrupts(a.first.interrupt.value)
    else if a.cancels && (a.first.changed || a.waiting) then Finishes(NotStarted, true)
    else FateAmong(a.cancels, a.first.changed, a.polls)
  }

  function FateAmong(cancels: bool, changed: bool, polls: seq<Poll>): Fate
    decreases |polls|
  {
    if polls == [] then Finishes(Executed, changed)
    else if polls[0].interrupt.Some? then Interrupts(polls[0].interrupt.value)
    else if cancels && polls[0].changed then Finishes(Cancelled, true)
    else FateAmong(cancels, changed || polls[0].changed, polls[1..])
  }

  predicate Stops(cancels: bool, p: Poll) {
    p.interrupt.Some? || (cancels && p.changed)
  }

  /** Poll `i` interrupts the turn, and nothing stopped the batch before it. */
  predicate InterruptsAt(cancels: bool, polls: seq<Poll>, i: nat, submission: string) {
    && i < |polls| && polls[i].interrupt == Some(submission)
    && forall j :: 0 <= j < i ==> polls[j].interrupt.None? && !(cancels && polls[j].changed)
  }

  /**
   A batch runs to its end exactly when nothing stops it, and then no input goes unnoticed; the
   turn is interrupted exactly by an interrupt that nothing came before.
   */
  lemma {:induction false} FateAmongIs(cancels: bool, changed: bool, polls: seq<Poll>, who: string)
    ensures var fate := FateAmong(cancels, changed, polls);
            && (fate.Finishes? && fate.progress.Executed?
                <==> forall i :: 0 <= i < |polls| ==>
                                   polls[i].interrupt.None? && !(cancels && polls[i].changed))
            && (fate.Finishes? && fate.progress.Executed? ==>
                  (fate.changed <==> changed || exists i :: 0 <= i < |polls| && polls[i].changed))
            && !(fate.Finishes? && fate.progress.NotStarted?)
            && (fate.Finishes? && fate.progress.Cancelled? ==>
                  cancels && fate.changed && exists i :: 0 <= i < |polls| && polls[i].changed)
            && (fate == Interrupts(who) <==> exists i: nat :: InterruptsAt(cancels, polls, i, who))
    decreases |polls|
  {
    if polls != [] {
      var head, rest := polls[0], polls[1..];
      assert head.interrupt == Some(who) ==> InterruptsAt(cancels, polls, 0, who);
      FateAmongIs(cancels, changed || head.changed, rest, who);
      assert forall i :: 0 < i < |polls| ==> polls[i] == rest[i - 1];
      if !Stops(cancels, head) {
        InterruptsLater(cancels, polls, who);
      }
    }
  }

  lemma InterruptsLater(cancels: bool, polls: seq<Poll>, who: string)
    requires polls != [] && !Stops(cancels, polls[0])
    ensures (exists i: nat :: InterruptsAt(cancels, polls, i, who))
            <==> exists i: nat :: InterruptsAt(cancels, polls[1..], i, who)
  {
    var rest := polls[1..];
    assert forall i :: 0 < i < |polls| ==> polls[i] == rest[i - 1];
    if i: nat :| InterruptsAt(cancels, rest, i, who) {
      assert InterruptsAt(cancels, polls, i + 1, who);
    }
    if i: nat :| InterruptsAt(cancels, polls, i, who) {
      assert InterruptsAt(cancels, rest, i - 1, who);
    }
  }

  /** Before a batch starts, an interrupt ends it, and newer input cancels it if its tools allow. */
  lemma FateBefore(a: Arrivals)
    ensures a.first.interrupt.Some? ==> FateOf(a) == Interrupts(a.first.interrupt.value)
    ensures a.first.interrupt.None? ==>
              (FateOf(a) == Finishes(NotStarted, true) <==> a.cancels && (a.first.changed || a.waiting))
    ensures a.first.interrupt.None? && !(a.cancels && (a.first.changed || a.waiting)) ==>
              FateOf(a) == FateAmong(a.cancels, a.first.changed, a.polls)
  {
    FateAmongIs(a.cancels, a.first.changed, a.polls, "");
  }

  /** Watches the inbox until the batch is done or something stops it. */
  method Watch(a: Arrivals) returns (fate: Fate)
    ensures fate == FateOf(a)
  {
    if a.first.interrupt.Some? {
      return Interrupts(a.first.interrupt.value);
    }
    if a.cancels && (a.first.changed || a.waiting) {
      return Finishes(NotStarted, true);
    }
    var changed := a.first.changed;
    var i := 0;
    assert a.polls[0..] == a.polls;
    while i < |a.polls|
      invariant i <= |a.polls|
      invariant FateAmong(a.cancels, a.first.changed, a.polls) == FateAmong(a.cancels, changed, a.polls[i..])
    {
      var poll := a.polls[i];
      assert a.polls[i..][1..] == a.polls[i + 1..];
      if poll.interrupt.Some? {
        return Interrupts(poll.interrupt.value);
      }
      if a.cancels && poll.changed {
        return Finishes(Cancelled, true);
      }
      changed := changed || poll.changed;
      i := i + 1;
    }
    return Finishes(Executed, changed);
  }

  /** The calls end in any order. */
  method RunBatch(t: Tools, calls: seq<ToolCall>, progress: Progress) returns (results: seq<ToolResult>)
    ensures multiset(results) == multiset(ResultsOf(t, progress, calls))
  {
    hide ResultsOf;
    results := [];
    var left := calls;
    ResultsPush(t, progress, [], ToolCall("", "", ""));
    while left != []
      invariant multiset(results) + multiset(ResultsOf(t, progress, left))
                == multiset(ResultsOf(t, progress, calls))
      decreases |left|
    {
      var next: int := *;
      var k: nat := if 0 <= next < |left| then next else 0;
      results := results + [ResultOf(t, progress, left[k])];
      ResultsWithout(t, progress, left, k);
      left := Without(left, k);
    }
  }

  lemma ResultsWithout(t: Tools, progress: Progress, calls: seq<ToolCall>, k: nat)
    requires k < |calls|
    ensures multiset(ResultsOf(t, progress, calls))
            == multiset{ResultOf(t, progress, calls[k])} + multiset(ResultsOf(t, progress, Without(calls, k)))
  {
    hide ResultsOf;
    var front, back := calls[..k], calls[k + 1..];
    assert calls == front + [calls[k]] + back;
    ResultsConcat(t, progress, front + [calls[k]], back);
    ResultsPush(t, progress, front, calls[k]);
    ResultsConcat(t, progress, front, back);
  }

  lemma ResultsConcat(t: Tools, progress: Progress, a: seq<ToolCall>, b: seq<ToolCall>)
    ensures ResultsOf(t, progress, a + b) == ResultsOf(t, progress, a) + ResultsOf(t, progress, b)
  {
    hide ResultOf;
  }

  /** What a batch hands to its step: nothing when a submission interrupts the turn. */
  datatype Completion = Results(results: seq<ToolResult>, changed: bool) | InterruptedBy(submission: string)

  /** Every distinct call gets exactly one result, in call order, unless the turn is interrupted. */
  method ExecuteTools(t: Tools, calls: seq<ToolCall>, a: Arrivals) returns (completion: Completion)
    requires DistinctIds(calls)
    ensures match FateOf(a)
            case Interrupts(submission) => completion == InterruptedBy(submission)
            case Finishes(progress, changed) =>
              completion == Results(ResultsOf(t, progress, calls), changed)
  {
    hide DistinctIds, Named, Answered, ResultsOf, FateOf;
    ghost var progress := if FateOf(a).Finishes? then FateOf(a).progress else NotStarted;
    var callable, unavailable := BindBatch(t, calls, progress);
    var fate := Watch(a);
    if fate.Interrupts? {
      return InterruptedBy(fate.submission);
    }
    var finished := RunBatch(t, callable, fate.progress);
    var results := finished + unavailable;
    var ordered := OrderResults(calls, results);
    ResultsNamed(t, progress, calls);
    OneResultPerCall(calls, ResultsOf(t, progress, calls), results, ordered);
    return Results(ordered, fate.changed);
  }

  lemma ResultsNamed(t: Tools, progress: Progress, calls: seq<ToolCall>)
    ensures Named(ResultsOf(t, progress, calls), calls)
  {
  }

  // ---------- a denied approval ----------

  /** The one result of a call when the calls that asked for approval were denied. */
  function DeniedResult(t: Tools, progress: Progress, asked: set<string>, rejection: string,
                        c: ToolCall): ToolResult
  {
    if c.callId in asked then ErrorResult(c, "tool denied: " + rejection) else ResultOf(t, progress, c)
  }

  function DeniedResults(t: Tools, progress: Progress, asked: set<string>, rejection: string,
                         calls: seq<ToolCall>): seq<ToolResult>
  {
    seq(|calls|, i requires 0 <= i < |calls| => DeniedResult(t, progress, asked, rejection, calls[i]))
  }

  function Rejections(rejection: string, calls: seq<ToolCall>): seq<ToolResult> {
    seq(|calls|, i requires 0 <= i < |calls| => ErrorResult(calls[i], "tool denied: " + rejection))
  }

  function Allowed(asked: set<string>): ToolCall -> bool {
    (c: ToolCall) => c.callId !in asked
  }

  function Denied(asked: set<string>): ToolCall -> bool {
    (c: ToolCall) => c.callId in asked
  }

  /** Nothing is run, and so nothing interrupted, when every call was denied. */
  function DeniedFate(calls: seq<ToolCall>, asked: set<string>, a: Arrivals): Fate {
    if Filter(Allowed(asked), calls) == [] then Finishes(Executed, false) else FateOf(a)
  }

  /**
   A denial still runs the calls that needed no approval; denied, executed, unavailable and
   cancelled results combine into one per call, in call order.
   */
  method ApplyDenial(t: Tools, calls: seq<ToolCall>, asked: seq<string>, rejection: string, a: Arrivals)
    returns (completion: Completion)
    requires DistinctIds(calls)
    ensures var ids := set id | id in asked;
            match DeniedFate(calls, ids, a)
            case Interrupts(submission) => completion == InterruptedBy(submission)
            case Finishes(progress, changed) =>
              completion == Results(DeniedResults(t, progress, ids, rejection, calls), changed)
  {
    hide DistinctIds, Named, Answered, ResultsOf, FateOf, Filter;
    var ids := set id | id in asked;
    var allowed, denied := Split(calls, ids);
    SplitDistinct(calls, ids);
    completion := Results([], false);
    ghost var progress := Executed;
    if allowed != [] {
      completion := ExecuteTools(t, allowed, a);
      if completion.InterruptedBy? {
        return;
      }
      progress := FateOf(a).progress;
    } else {
      ResultsPush(t, progress, [], ToolCall("", "", ""));
    }
    var results := completion.results + Rejections(rejection, denied);
    SplitResults(t, progress, ids, rejection, calls);
    var ordered := OrderResults(calls, results);
    DeniedNamed(t, progress, ids, rejection, calls);
    OneResultPerCall(calls, DeniedResults(t, progress, ids, rejection, calls), results, ordered);
    return Results(ordered, completion.changed);
  }

  method Split(calls: seq<ToolCall>, asked: set<string>)
    returns (allowed: seq<ToolCall>, denied: seq<ToolCall>)
    ensures allowed == Filter(Allowed(asked), calls) && denied == Filter(Denied(asked), calls)
  {
    allowed, denied := [], [];
    var i := 0;
    while i < |calls|
      invariant i <= |calls|
      invariant allowed == Filter(Allowed(asked), calls[..i])
      invariant denied == Filter(Denied(asked), calls[..i])
    {
      assert calls[..i + 1][..i] == calls[..i];
      if calls[i].callId in asked {
        denied := denied + [calls[i]];
      } else {
        allowed := allowed + [calls[i]];
      }
      i := i + 1;
    }
    assert calls[..|calls|] == calls;
  }

  lemma {:induction false} SplitDistinct(calls: seq<ToolCall>, asked: set<string>)
    requires DistinctIds(calls)
    ensures DistinctIds(Filter(Allowed(asked), calls))
    decreases |calls|
  {
    if calls != [] {
      var front, last := calls[..|calls| - 1], calls[|calls| - 1];
      SplitDistinct(front, asked);
      forall c | c in Filter(Allowed(asked), front) ensures c.callId != last.callId {
        FilterMembers(Allowed(asked), front, c);
        var i :| 0 <= i < |front| && front[i] == c;
        assert calls[i] == c;
      }
    }
  }

  lemma DeniedNamed(t: Tools, progress: Progress, asked: set<string>, rejection: string,
                    calls: seq<ToolCall>)
    ensures Named(DeniedResults(t, progress, asked, rejection, calls), calls)
  {
  }

  lemma {:induction false} SplitResults(t: Tools, progress: Progress, asked: set<string>,
                                        rejection: string, calls: seq<ToolCall>)
    ensures multiset(ResultsOf(t, progress, Filter(Allowed(asked), calls))
                     + Rejections(rejection, Filter(Denied(asked), calls)))
            == multiset(DeniedResults(t, progress, asked, rejection, calls))
    decreases |calls|
  {
    hide ResultsOf, DeniedResults, Rejections;
    if calls != [] {
      var front, last := calls[..|calls| - 1], calls[|calls| - 1];
      SplitResults(t, progress, asked, rejection, front);
      var allowed, denied := Filter(Allowed(asked), front), Filter(Denied(asked), front);
      assert calls == front + [last];
      DeniedPush(t, progress, asked, rejection, front, last);
      if last.callId in asked {
        RejectionsPush(rejection, denied, last);
        assert allowed + [] == allowed;
      } else {
        ResultsPush(t, progress, allowed, last);
        assert denied + [] == denied;
      }
    } else {
      FilterNothing(Allowed(asked));
      FilterNothing(Denied(asked));
      ResultsPush(t, progress, [], ToolCall("", "", ""));
      RejectionsPush(rejection, [], ToolCall("", "", ""));
      DeniedPush(t, progress, asked, rejection, [], ToolCall("", "", ""));
    }
  }

  lemma DeniedPush(t: Tools, progress: Progress, asked: set<string>, rejection: string,
                   calls: seq<ToolCall>, c: ToolCall)
    ensures DeniedResults(t, progress, asked, rejection, calls + [c])
            == DeniedResults(t, progress, asked, rejection, calls)
               + [DeniedResult(t, progress, asked, rejection, c)]
    ensures DeniedResults(t, progress, asked, rejection, []) == []
  {
  }

  lemma RejectionsPush(rejection: string, calls: seq<ToolCall>, c: ToolCall)
    ensures Rejections(rejection, calls + [c])
            == Rejections(rejection, calls) + [ErrorResult(c, "tool denied: " + rejection)]
    ensures Rejections(rejection, []) == []
  {
  }

  /** What every call of a batch hands back: its own identity, and what became of it. */
  lemma ResultFields(t: Tools, progress: Progress, calls: seq<ToolCall>, i: nat)
    requires i < |calls|
    ensures |ResultsOf(t, progress, calls)| == |calls|
    ensures var c, r := calls[i], ResultsOf(t, progress, calls)[i];
            && r.callId == c.callId && r.name == c.name
            && (t.unbound(c).Some? ==>
                  r.output == t.unbound(c).value && r.isError && r.usage.None? && r.additional == [])
            && (t.unbound(c).None? && progress.NotStarted? ==>
                  && r.output == "execution cancelled before start because newer input is ready"
                  && r.isError && r.usage.None? && r.additional == [])
            && (t.unbound(c).None? && progress.Cancelled? ==>
                  && r.output == "execution cancelled by newer input; result unknown"
                  && r.isError && r.usage.None? && r.additional == [])
            && (t.unbound(c).None? && progress.Executed? ==>
                  && r.output == t.run(c).output && r.isError == t.run(c).isError
                  && r.usage == t.run(c).usage && r.additional == t.run(c).additional)
  {
  }

  /** After a denial the asked calls carry the rejection, and only they. */
  lemma DeniedFields(t: Tools, progress: Progress, asked: set<string>, rejection: string,
                     calls: seq<ToolCall>, i: nat)
    requires i < |calls|
    ensures |DeniedResults(t, progress, asked, rejection, calls)| == |calls|
    ensures var c, r := calls[i], DeniedResults(t, progress, asked, rejection, calls)[i];
            && r.callId == c.callId && r.name == c.name
            && if c.callId in asked then
                 r.output == "tool denied: " + rejection && r.isError && r.usage.None? && r.additional == []
               else r == ResultsOf(t, progress, calls)[i]
  {
    ResultFields(t, progress, calls, i);
    hide ResultOf;
  }

  // ---------- what a step hands over ----------

  /** Tools add nothing but guidance to the context. */
  ghost predicate AddsGuidance(t: Tools) {
    forall c :: Quiet(t.run(c).additional)
  }

  /** One result per distinct call, named like it, is what saving the step relies on. */
  lemma NamedAnswers(results: seq<ToolResult>, calls: seq<ToolCall>)
    requires DistinctIds(calls) && Named(results, calls)
    requires forall i :: 0 <= i < |results| ==> Quiet(results[i].additional)
    ensures Answers(results, calls) && ResultIds(results) == Ids(calls)
  {
    forall id | id in ResultIds(results) ensures id in Ids(calls) {
      var i :| 0 <= i < |results| && results[i].callId == id;
      assert calls[i].callId == id;
    }
    forall id | id in Ids(calls) ensures id in ResultIds(results) {
      var i :| 0 <= i < |calls| && calls[i].callId == id;
      assert results[i].callId == id;
    }
  }

  /** Executing a batch, and denying one, both end with results that answer exactly their calls. */
  lemma StepsAnswer(t: Tools, progress: Progress, asked: set<string>, rejection: string,
                    calls: seq<ToolCall>)
    requires DistinctIds(calls) && AddsGuidance(t)
    ensures Answers(ResultsOf(t, progress, calls), calls)
    ensures ResultIds(ResultsOf(t, progress, calls)) == Ids(calls)
    ensures Answers(DeniedResults(t, progress, asked, rejection, calls), calls)
    ensures ResultIds(DeniedResults(t, progress, asked, rejection, calls)) == Ids(calls)
  {
    hide Answers, DistinctIds, Named;
    ResultsNamed(t, progress, calls);
    DeniedNamed(t, progress, asked, rejection, calls);
    forall i | 0 <= i < |calls|
      ensures Quiet(ResultsOf(t, progress, calls)[i].additional)
      ensures Quiet(DeniedResults(t, progress, asked, rejection, calls)[i].additional)
    {
      assert Quiet(t.run(calls[i]).additional);
    }
    NamedAnswers(ResultsOf(t, progress, calls), calls);
    NamedAnswers(DeniedResults(t, progress, asked, rejection, calls), calls);
  }

  /** Results for every pending call empty the pending tools. */
  lemma {:induction false} CompleteStepEmptiesPending(calls: seq<ToolCall>, results: seq<ToolResult>)
    requires forall c :: c in calls ==> HasResult(results, c.callId)
    ensures Filter(Unfinished(results), calls) == []
    decreases |calls|
  {
    if calls != [] {
      var front, last := calls[..|calls| - 1], calls[|calls| - 1];
      assert calls == front + [last];
      CompleteStepEmptiesPending(front, results);
      assert last in calls;
    }
  }
}
