/** Restart recovery: settles the execution that a crash interrupted. */
module Startup {
  import opened Checkpoint
  import opened DeliveryOnce
  import opened MessageQueue
  import opened OnceOnly
  import opened RunnerSpec
  import opened Sequences
  import opened Wrappers

  const RESTARTED := "execution interrupted; result unknown after restart"
  const RESTART_REASON := "interrupted by restart"

  /** What recovery hands to the first save: the state, its transcript items, events and record. */
  datatype Recovery = Recovery(
    state: Checkpoint, delta: seq<Item>, events: seq<Event>, record: Option<ExecutionRecord>)

  /** Pending tools may have run, unless an approval still waits for its decision. */
  predicate Uncertain(s: Checkpoint) {
    s.pendingTools != [] && (s.pendingApproval.None? || s.pendingApproval.value.decisionReceived)
  }

  predicate Interrupts(s: Checkpoint) {
    Uncertain(s) || s.step.Some?
  }

  function ErrorItems(calls: seq<ToolCall>, message: string): seq<Item> {
    seq(|calls|, i requires 0 <= i < |calls| =>
      Item(FunctionOutput(calls[i].callId, message, true), None))
  }

  /** The items recovery adds: the calls, if their model step never completed, and their errors. */
  function RecoveryItems(s: Checkpoint): seq<Item> {
    if !Uncertain(s) then []
    else
      (if s.step.Some? then CallItems(s.pendingTools) else [])
      + ErrorItems(s.pendingTools, RESTARTED)
  }

  function RecoveryEvents(s: Checkpoint): seq<Event> {
    (if s.step.Some? then [StepInterrupted(s.step.value)] else [])
    + if Uncertain(s) then ToolEvents(Interrupted(s.pendingTools, RESTARTED)) else []
  }

  function Recounted(e: Execution, calls: nat): Option<Execution> {
    if e.toolCalls + calls > U64_MAX || e.failedToolCalls + calls > U64_MAX then None
    else
      Some(e.(toolCalls := e.toolCalls + calls, failedToolCalls := e.failedToolCalls + calls))
  }

  /** The state whose execution recovery then finishes as aborted. */
  function Patched(s: Checkpoint, owner: string, execution: Execution): Checkpoint {
    s.(
    step := None,
    context := s.context + RecoveryItems(s),
    pendingTools := if Uncertain(s) then [] else s.pendingTools,
    pendingApproval := if Uncertain(s) then None else s.pendingApproval,
    queue := PromotedAll(s.queue, owner, execution.turn),
    execution := Some(execution))
  }

  function Recovered(s: Checkpoint, owner: Option<string>, clock: Option<int>)
    : Result<Recovery, Failure>
  {
    if !Interrupts(s) then Ok(Recovery(s, [], [], None))
    else if s.execution.None? then Err(NoExecution)
    else if s.step.Some? && clock.None? then Err(Clock)
    else if owner.None? then Err(NoHandler)
    else
      match if Uncertain(s) then Recounted(s.execution.value, |s.pendingTools|) else s.execution
      case None => Err(Overflow)
      case Some(execution) =>
        match Finished(Patched(s, owner.value, execution), Aborted, clock)
        case Err(e) => Err(e)
        case Ok((state, record)) =>
          Ok(Recovery(state, RecoveryItems(s), RecoveryEvents(s), Some(record)))
  }

  /** Gives every call an error output. */
  method AppendErrors(context: seq<Item>, delta: seq<Item>, events: seq<Event>, calls: seq<ToolCall>)
    returns (context': seq<Item>, delta': seq<Item>, events': seq<Event>)
    ensures context' == context + ErrorItems(calls, RESTARTED)
    ensures delta' == delta + ErrorItems(calls, RESTARTED)
    ensures events' == events + ToolEvents(Interrupted(calls, RESTARTED))
  {
    context', delta', events' := context, delta, events;
    var i := 0;
    while i < |calls|
      invariant i <= |calls|
      invariant context' == context + ErrorItems(calls, RESTARTED)[..i]
      invariant delta' == delta + ErrorItems(calls, RESTARTED)[..i]
      invariant events' == events + ToolEvents(Interrupted(calls, RESTARTED))[..i]
    {
      var item := Item(FunctionOutput(calls[i].callId, RESTARTED, true), None);
      context' := context' + [item];
      delta' := delta' + [item];
      events' := events' + [ToolEnded(calls[i].callId, RESTARTED, true)];
      i := i + 1;
    }
  }

  /** The recovery part of opening a session: settles tools and steps left in flight. */
  method Recover(saved: Checkpoint, owner: Option<string>, clock: Option<int>)
    returns (r: Result<Recovery, Failure>)
    ensures r == Recovered(saved, owner, clock)
  {
    hide PromotedAll, Finished, ErrorItems, CallItems, ToolEvents, Interrupted;
    var state, delta, events := saved, [], [];
    var uncertain, interruptedStep := Uncertain(state), state.step.Some?;
    var interrupted := uncertain || interruptedStep;
    if interruptedStep {
      var step := state.step.value;
      state := state.(step := None);
      if state.execution.None? {
        return Err(NoExecution);
      }
      if clock.None? {
        return Err(Clock);
      }
      events := [StepInterrupted(step)];
    }
    var recoveredCalls := 0;
    if uncertain {
      if interruptedStep {
        var calls := CallItems(state.pendingTools);
        state := state.(context := state.context + calls);
        delta := calls;
      } else {
        assert saved.context == saved.context + [];
      }
      recoveredCalls := |state.pendingTools|;
      if state.execution.None? {
        return Err(NoExecution);
      }
      var calls := state.pendingTools;
      state := state.(pendingTools := []);
      Assoc(saved.context, delta, ErrorItems(calls, RESTARTED));
      var context;
      context, delta, events := AppendErrors(state.context, delta, events, calls);
      state := state.(context := context);
      state := state.(pendingApproval := None);
    }
    assert saved.context + [] == saved.context && RecoveryEvents(saved) == events;
    assert state == saved.(step := None, context := saved.context + RecoveryItems(saved),
                           pendingTools := state.pendingTools,
                           pendingApproval := state.pendingApproval);
    if !interrupted {
      return Ok(Recovery(state, [], [], None));
    }
    if owner.None? {
      return Err(NoHandler);
    }
    var queue := new MessageQueue(state.queue, owner);
    var promoted := queue.PromoteFailedTurn(state.execution.value.turn);
    state := state.(queue := queue.items);
    if uncertain {
      var active := state.execution.value;
      if active.toolCalls + recoveredCalls > U64_MAX {
        return Err(Overflow);
      }
      active := active.(toolCalls := active.toolCalls + recoveredCalls);
      if active.failedToolCalls + recoveredCalls > U64_MAX {
        return Err(Overflow);
      }
      active := active.(failedToolCalls := active.failedToolCalls + recoveredCalls);
      state := state.(execution := Some(active));
    }
    assert state == Patched(saved, owner.value, state.execution.value);
    var finished := Finished(state, Aborted, clock);
    if finished.Err? {
      return Err(finished.error);
    }
    var (settled, record) := finished.value;
    return Ok(Recovery(settled, delta, events, Some(record)));
  }

  // ---------- opening a session ----------

  /** What opening meets: the clock, the session-start hooks, and the turn-end hooks. */
  datatype Opening = Opening(clock: Option<int>, hooks: seq<Hook>, ended: Option<seq<string>>)

  /** Recovery, then the session-start hooks on the recovered context, then the turn's end. */
  function Opened(s: Checkpoint, owner: Option<string>, env: Opening): Result<Recovery, Failure> {
    match Recovered(s, owner, env.clock)
    case Err(e) => Err(e)
    case Ok(recovery) =>
      match Staged(recovery.state.delivered, recovery.state.context, env.hooks)
      case None => Err(Hook)
      case Some(input) =>
        var state := recovery.state.(
                     context := input, delivered := Accepted(recovery.state.delivered, input));
        if recovery.record.None? then Ok(recovery.(state := state))
        else if env.ended.None? then Err(Hook)
        else
          Ok(recovery.(state := state, events := recovery.events + HookEvents(env.ended.value)
                                                 + [TurnEnded(recovery.record.value.turn, Aborted, RESTART_REASON)]))
  }

  method OpenSession(saved: Checkpoint, owner: Option<string>, env: Opening)
    returns (r: Result<Recovery, Failure>)
    ensures r == Opened(saved, owner, env)
    ensures Waits(saved) && r.Ok? ==>
              && r.value.record.None? && r.value.state.execution == saved.execution
              && r.value.state.pendingTools == saved.pendingTools
              && r.value.state.pendingApproval == saved.pendingApproval
  {
    if Waits(saved) && Opened(saved, owner, env).Ok? {
      OpeningLeavesWaiting(saved, owner, env);
    }
    hide Recovered, Staged, Accepted, Waits, Opened;
    r := Recover(saved, owner, env.clock);
    if r.Err? {
      return;
    }
    var recovery := r.value;
    var receipts, context, ok, _, _ :=
      SessionStart(recovery.state.delivered, recovery.state.context, env.hooks, false);
    if !ok {
      return Err(Hook);
    }
    recovery := recovery.(state := recovery.state.(context := context, delivered := receipts));
    if recovery.record.Some? {
      if env.ended.None? {
        return Err(Hook);
      }
      var events := recovery.events + HookEvents(env.ended.value)
                    + [TurnEnded(recovery.record.value.turn, Aborted, RESTART_REASON)];
      recovery := recovery.(events := events);
    }
    return Ok(recovery);
  }

  // ---------- what a restart leaves alone, and what it settles ----------

  /** No step is in flight, and every pending tool waits for an approval that was not given yet. */
  predicate Waits(s: Checkpoint) {
    && s.step.None?
    && (s.pendingTools == []
        || (s.pendingApproval.Some? && !s.pendingApproval.value.decisionReceived))
  }

  /** A restart leaves a session alone that only waits: its turn, its calls and its approval stay. */
  lemma RestartLeavesWaiting(s: Checkpoint, owner: Option<string>, clock: Option<int>)
    requires s.step.None?
    requires s.pendingTools == []
             || (s.pendingApproval.Some? && !s.pendingApproval.value.decisionReceived)
    ensures Recovered(s, owner, clock) == Ok(Recovery(s, [], [], None))
  {
  }

  /**
   In every other case recovery ends the execution as aborted, or fails. The pending calls of
   uncertain tools leave with one error output each, entering first if their step was in flight;
   those that still wait for an approval stay.
   */
  lemma RestartSettles(s: Checkpoint, owner: Option<string>, clock: Option<int>)
    requires s.step.Some?
             || (s.pendingTools != []
                 && (s.pendingApproval.None? || s.pendingApproval.value.decisionReceived))
    requires Recovered(s, owner, clock).Ok?
    ensures var r := Recovered(s, owner, clock).value;
            var calls := s.pendingTools;
            var waits := calls == [] || (s.pendingApproval.Some? && !s.pendingApproval.value.decisionReceived);
            var first := if s.step.Some? && !waits then |calls| else 0;
            && s.execution.Some? && owner.Some? && clock.Some?
            && r.record.Some? && r.record.value.outcome == Aborted
            && r.record.value.turn == s.execution.value.turn
            && r.state.execution.None? && r.state.step.None?
            && r.state.context == s.context + r.delta && r.state.delivered == s.delivered
            && (if waits then
                  r.delta == [] && r.state.pendingTools == calls
                  && r.state.pendingApproval == s.pendingApproval
                else
                  && r.state.pendingTools == [] && r.state.pendingApproval.None?
                  && |r.delta| == first + |calls|
                  && (forall i :: 0 <= i < first ==>
                        r.delta[i].body == FunctionCall(calls[i].callId, calls[i].name, calls[i].arguments))
                  && (forall i :: 0 <= i < |calls| ==>
                        r.delta[first + i].body
                        == FunctionOutput(calls[i].callId,
                                          "execution interrupted; result unknown after restart", true))
                  && (forall i :: 0 <= i < |r.delta| ==> r.delta[i].receipt.None?)
                  && r.record.value.toolCalls == s.execution.value.toolCalls + |calls|
                  && r.record.value.failedToolCalls == s.execution.value.failedToolCalls + |calls|)
            && |r.state.queue| == |s.queue|
            && forall i :: 0 <= i < |s.queue| ==>
                             r.state.queue[i]
                             == if s.queue[i].owner == owner.value
                                   && s.queue[i].boundary == Steer(s.execution.value.turn)
                                then s.queue[i].(boundary := Boundary.Queue) else s.queue[i]
  {
    hide SumUsage;
    assert s.context + [] == s.context;
  }

  /** The events of a recovery: the step that ends, then one end per settled call. */
  lemma RecoveryReports(s: Checkpoint) returns (ends: seq<Event>)
    ensures RecoveryEvents(s) == (if s.step.Some? then [StepInterrupted(s.step.value)] else []) + ends
    ensures var uncertain := s.pendingTools != []
                             && (s.pendingApproval.None? || s.pendingApproval.value.decisionReceived);
            var calls := if uncertain then s.pendingTools else [];
            && |ends| == |calls|
            && forall i :: 0 <= i < |calls| ==>
                             ends[i] == ToolEnded(calls[i].callId,
                                                  "execution interrupted; result unknown after restart", true)
  {
    ends := if Uncertain(s) then ToolEvents(Interrupted(s.pendingTools, RESTARTED)) else [];
    EndsAre(s.pendingTools);
    hide ToolEvents, Interrupted;
  }

  lemma EndsAre(calls: seq<ToolCall>)
    ensures var ends := ToolEvents(Interrupted(calls, RESTARTED));
            && |ends| == |calls|
            && forall i :: 0 <= i < |calls| ==>
                             ends[i] == ToolEnded(calls[i].callId,
                                                  "execution interrupted; result unknown after restart", true)
  {
  }

  /** Opening reports what recovery did, then the turn-end hooks and the aborted turn, or nothing. */
  lemma OpeningReports(s: Checkpoint, owner: Option<string>, env: Opening)
    requires Opened(s, owner, env).Ok?
    ensures var events := Opened(s, owner, env).value.events;
            if s.step.None? && (s.pendingTools == [] || (s.pendingApproval.Some?
                                                         && !s.pendingApproval.value.decisionReceived))
            then events == []
            else
              && env.ended.Some? && s.execution.Some?
              && events == RecoveryEvents(s)
                           + seq(|env.ended.value|, i requires 0 <= i < |env.ended.value| =>
                               HookEvent(env.ended.value[i]))
                           + [TurnEnded(s.execution.value.turn, Aborted, "interrupted by restart")]
  {
    hide Staged, Accepted, PromotedAll, RecoveryItems, RecoveryEvents, Tallied;
  }

  /** Opening a session that only waits keeps everything but the guidance that its hooks add. */
  lemma OpeningLeavesWaiting(s: Checkpoint, owner: Option<string>, env: Opening)
    requires Waits(s) && Opened(s, owner, env).Ok?
    ensures var r := Opened(s, owner, env).value;
            && r.delta == [] && r.events == [] && r.record.None?
            && s.context <= r.state.context
            && r.state == s.(context := r.state.context, delivered := r.state.delivered)
  {
    RestartLeavesWaiting(s, owner, env.clock);
    StagedExtends(s.delivered, s.context, env.hooks);
  }

  // ---------- recovery agrees with a live abort ----------

  /** An item without the text of its output. */
  function Blank(item: Item): Item {
    if item.body.FunctionOutput? then item.(body := item.body.(output := "")) else item
  }

  function Blanked(items: seq<Item>): seq<Item> {
    seq(|items|, i requires 0 <= i < |items| => Blank(items[i]))
  }

  lemma {:induction false} InterruptedOffers(calls: seq<ToolCall>, message: string)
    ensures Offered(Interrupted(calls, message)) == ErrorItems(calls, message)
    ensures Errors(Interrupted(calls, message)) == |calls|
    decreases |calls|
  {
    if calls != [] {
      var front, results := calls[..|calls| - 1], Interrupted(calls, message);
      assert results[..|results| - 1] == Interrupted(front, message);
      InterruptedOffers(front, message);
      assert ErrorItems(calls, message) == ErrorItems(front, message)
                                           + [OutputItem(results[|results| - 1])];
      assert ErrorItems(calls, message)
             == ErrorItems(front, message) + ([OutputItem(results[|results| - 1])] + []);
    }
  }

  lemma {:induction false} PlainEnter(r: Receipts, items: seq<Item>)
    requires forall i :: 0 <= i < |items| ==> items[i].receipt.None?
    ensures Kept(r, items) == items && Accepted(r, items) == r
    decreases |items|
  {
    if items != [] {
      PlainEnter(r, items[..|items| - 1]);
      assert items == items[..|items| - 1] + [items[|items| - 1]];
    }
  }

  lemma {:induction false} InterruptedCharge(s: Checkpoint, calls: seq<ToolCall>, message: string,
                                             observed: nat -> bool)
    ensures UsageCharged(s, Interrupted(calls, message), observed) == Ok(s)
    decreases |calls|
  {
    if calls != [] {
      var results := Interrupted(calls, message);
      assert results[..|results| - 1] == Interrupted(calls[..|calls| - 1], message);
      InterruptedCharge(s, calls[..|calls| - 1], message, observed);
    }
  }

  /** What a live abort appends for its pending calls, and how it counts them. */
  lemma PendingFinishedIs(w: World, reason: string, observed: nat -> bool)
    ensures var calls := w.state.pendingTools;
            var added := (if w.state.step.Some? then CallItems(calls) else [])
                         + ErrorItems(calls, INTERRUPTED + reason);
            var state := w.state.(pendingTools := [], context := w.state.context + added);
            match PendingFinished(w, reason, observed)
            case Ok((after, events)) =>
              && after.delta == w.delta + added && after.store == w.store
              && after.turnEnd == w.turnEnd
              && (calls == [] ==> after.state == state)
              && (calls != [] ==>
                    w.state.execution.Some? && Recounted(w.state.execution.value, |calls|).Some?
                    && after.state
                       == state.(execution := Recounted(w.state.execution.value, |calls|)))
            case Err(e) =>
              calls != []
              && (w.state.execution.None? || Recounted(w.state.execution.value, |calls|).None?)
  {
    hide Kept, Accepted, Filter, UsageCharged, Offered, Errors;
    var calls, message := w.state.pendingTools, INTERRUPTED + reason;
    var results := Interrupted(calls, message);
    PlainEnter(w.state.delivered, CallItems(calls));
    PlainEnter(w.state.delivered, ErrorItems(calls, message));
    InterruptedOffers(calls, message);
    var taken := w.(state := w.state.(pendingTools := []));
    var entered := if w.state.step.Some? then Extended(taken, CallItems(calls)) else taken;
    var counted := ToolsRecorded(entered.state, |calls|, |calls|);
    if counted.Ok? {
      InterruptedCharge(counted.value, calls, message, observed);
    }
    FilterNothing(Unfinished(results));
    var head := if w.state.step.Some? then CallItems(calls) else [];
    Assoc(w.state.context, head, ErrorItems(calls, message));
    Assoc(w.delta, head, ErrorItems(calls, message));
    assert w.state.context + [] == w.state.context && w.delta + [] == w.delta;
    if calls == [] {
      assert CallItems(calls) == [] && ErrorItems(calls, message) == [];
    }
  }

  /**
   A live abort and a restart settle an interrupted execution in the same way: the same
   record, queue, counters and context, but for the text that explains each lost result. An
   approval only waits between model steps.
   */
  lemma RestartMatchesAbort(w: World, owner: Option<string>, reason: string, env: Ending)
    requires Interrupts(w.state) && w.state.execution.Some?
    requires w.state.pendingApproval.Some? ==> Uncertain(w.state)
    requires w.state.sequence < U64_MAX && env.stored && env.hooks.Some?
    ensures var turn := w.state.execution.value.turn;
            match Recovered(w.state, owner, env.clock)
            case Err(_) => TurnAborted(w, owner, turn, Aborted, reason, [], env).Err?
            case Ok(recovery) =>
              match TurnAborted(w, owner, turn, Aborted, reason, [], env)
              case Err(_) => false
              case Ok(after) =>
                && after.store.executions == w.store.executions + [recovery.record.value]
                && Blanked(after.state.context) == Blanked(recovery.state.context)
                && after.state.(sequence := w.state.sequence, context := recovery.state.context)
                   == recovery.state
  {
    hide Kept, Accepted, Filter, UsageCharged, Offered, Errors, PromotedAll, Tallied, PendingFinished;
    PendingFinishedIs(w, reason, env.observed);
    var s := w.state;
    var added := (if s.step.Some? then CallItems(s.pendingTools) else [])
                 + ErrorItems(s.pendingTools, INTERRUPTED + reason);
    if s.pendingTools == [] {
      assert CallItems(s.pendingTools) == [] && ErrorItems(s.pendingTools, INTERRUPTED + reason) == [];
    }
    assert Blanked(s.context + added) == Blanked(s.context + RecoveryItems(s));
  }
}
