/** The runner: tentative changes to its checkpoint, undone by hand when a save fails. */
module Runner {
  import opened Checkpoint
  import opened DeliveryOnce
  import opened MessageQueue
  import opened RunnerSpec
  import opened Sequences
  import opened Wrappers

  class Runner {
    const owner: Option<string>
    var state: Checkpoint
    var delta: seq<Item>
    var turnEnd: Option<string>
    var store: Store

    constructor (owner: Option<string>, w: World)
      ensures this.owner == owner && Now() == w
    {
      this.owner := owner;
      state, delta, turnEnd, store := w.state, w.delta, w.turnEnd, w.store;
    }

    ghost function Now(): World
      reads this
    {
      World(state, delta, turnEnd, store)
    }

    // ---------- saving and counting ----------

    /** Saves the next sequence; a refused save puts the previous sequence back. */
    method PersistWithEvents(events: seq<Event>, record: Option<ExecutionRecord>, stored: bool)
      returns (r: Result<nat, Failure>)
      modifies this
      ensures match Persist(old(Now()), events, record, stored)
              case Ok(w) => r == Ok(state.sequence) && Now() == w
              case Err(e) => r == Err(e) && Now() == old(Now())
    {
      var previous := state.sequence;
      if state.sequence >= U64_MAX {
        return Err(Overflow);
      }
      state := state.(sequence := state.sequence + 1);
      if !stored {
        state := state.(sequence := previous);
        return Err(Refused);
      }
      var batches := store.batches;
      if delta != [] {
        batches := batches + [Batch(state.sequence, delta)];
      } else {
        assert store.batches + [] == store.batches;
      }
      var executions := store.executions;
      if record.Some? {
        executions := executions + [record.value];
      } else {
        assert store.executions + [] == store.executions;
      }
      store := Store(state, batches, store.events + events, executions);
      delta := [];
      return Ok(state.sequence);
    }

    method RecordUsage(usage: Usage, observed: bool) returns (r: Result<(), Failure>)
      modifies this`state
      ensures match UsageRecorded(old(state), usage, observed)
              case Ok(s) => r.Ok? && state == s
              case Err(e) => r == Err(e) && e != Refused && state == old(state)
    {
      var total := SumUsage(state.totalUsage, usage);
      if total.None? {
        return Err(Overflow);
      }
      if state.execution.None? {
        return Err(NoExecution);
      }
      var used := SumUsage(state.execution.value.usage, usage);
      if used.None? {
        return Err(Overflow);
      }
      if !observed {
        return Err(Observer);
      }
      state := state.(totalUsage := total.value);
      state := state.(execution := Some(state.execution.value.(usage := used.value)));
      return Ok(());
    }

    method RecordTools(calls: nat, failed: nat) returns (r: Result<(), Failure>)
      modifies this`state
      ensures match ToolsRecorded(old(state), calls, failed)
              case Ok(s) => r.Ok? && state == s
              case Err(e) => r == Err(e) && e != Refused && state == old(state)
    {
      if state.execution.None? {
        return Err(NoExecution);
      }
      var active := state.execution.value;
      if active.toolCalls + calls > U64_MAX {
        return Err(Overflow);
      }
      if active.failedToolCalls + failed > U64_MAX {
        return Err(Overflow);
      }
      state := state.(execution := Some(active.(
                        toolCalls := active.toolCalls + calls,
                        failedToolCalls := active.failedToolCalls + failed)));
      return Ok(());
    }

    /** Takes the active execution; totals out of range put it back. */
    method FinishExecution(outcome: Outcome, clock: Option<int>)
      returns (r: Result<ExecutionRecord, Failure>)
      modifies this`state
      ensures match Finished(old(state), outcome, clock)
              case Ok((s, record)) => r == Ok(record) && state == s
              case Err(e) => r == Err(e) && state == old(state)
    {
      if clock.None? {
        return Err(Clock);
      }
      if state.step.Some? {
        return Err(ActiveStep);
      }
      var taken := state.execution;
      state := state.(execution := None);
      if taken.None? {
        return Err(NoExecution);
      }
      var record := RecordOf(taken.value, outcome, clock.value);
      var next := Tallied(state.stats, record);
      if next.None? {
        state := state.(execution := Some(taken.value));
        return Err(Overflow);
      }
      state := state.(stats := next.value);
      return Ok(record);
    }

    method FinishAndPersistExecution(outcome: Outcome, events: seq<Event>, clock: Option<int>,
                                     stored: bool) returns (r: Result<nat, Failure>)
      modifies this
      ensures r.Err? ==> Now() == old(Now())
      ensures match Finished(old(state), outcome, clock)
              case Err(e) => r == Err(e)
              case Ok((s, record)) =>
                match Persist(old(Now()).(state := s), events, Some(record), stored)
                case Err(e) => r == Err(e)
                case Ok(w) => r.Ok? && Now() == w
    {
      var execution, stats := state.execution, state.stats;
      var record := FinishExecution(outcome, clock);
      if record.Err? {
        return Err(record.error);
      }
      r := PersistWithEvents(events, Some(record.value), stored);
      if r.Err? {
        state := state.(execution := execution);
        state := state.(stats := stats);
      }
    }

    // ---------- the context ----------

    method PushContext(item: Item)
      modifies this`state, this`delta
      ensures state == old(state).(context := old(state).context + [item])
      ensures delta == old(delta) + [item]
    {
      state := state.(context := state.context + [item]);
      delta := delta + [item];
    }

    method ExtendContext(items: seq<Item>)
      modifies this`state, this`delta
      ensures Now() == Extended(old(Now()), items)
    {
      var i := 0;
      while i < |items|
        invariant i <= |items|
        invariant Now() == Extended(old(Now()), items[..i])
      {
        assert items[..i + 1][..i] == items[..i];
        var receipts, accepted := Accept(state.delivered, items[i]);
        state := state.(delivered := receipts);
        if accepted {
          PushContext(items[i]);
        }
        i := i + 1;
      }
      assert items[..|items|] == items;
    }

    // ---------- turns ----------

    method BeginTurn(submission: string, turn: string, author: Author, clock: Option<int>)
      returns (r: Result<(), Failure>)
      modifies this`state
      ensures match Begun(old(state), submission, turn, author, clock)
              case Ok(s) => r.Ok? && state == s
              case Err(e) => r == Err(e) && state == old(state)
    {
      if state.execution.Some? {
        return Err(ActiveExecution);
      }
      if clock.None? {
        return Err(Clock);
      }
      state := state.(execution := Some(
        Execution(submission, author, turn, clock.value, 0, 0, 0, NO_USAGE, false)));
      return Ok(());
    }

    method ConsumeNextTurn(id: string) returns (r: Result<(nat, QueuedMessage), Failure>)
      modifies this`state
      ensures owner.None? ==> r == Err(NoHandler) && state == old(state)
      ensures owner.Some? ==>
                match IndexWhere(Startable(owner.value, id), old(state).queue)
                case None => r == Err(NotQueued) && state == old(state)
                case Some(i) =>
                  && r == Ok((i, old(state).queue[i]))
                  && state == old(state).(queue := Without(old(state).queue, i))
                  && i <= |state.queue|
                  && InsertAt(state.queue, i, r.value.1) == old(state).queue
    {
      if owner.None? {
        return Err(NoHandler);
      }
      var queue := new MessageQueue(state.queue, owner);
      var taken := queue.ConsumeNextTurn(id);
      state := state.(queue := queue.items);
      if taken.Err? {
        return Err(NotQueued);
      }
      var (index, message) := taken.value;
      return Ok((index, message));
    }

    /**
     Starts a turn with a queued message. When the save fails, the message goes back to its
     place in the queue, the context and the transcript are truncated, and receipts are rolled
     back; the world is the old one exactly when those receipts can be restored.
     */
    method StartMessageTurn(p: Start) returns (r: Result<(), Failure>)
      modifies this
      ensures match TurnBegun(old(Now()), owner, p)
              case Ok(w) => r.Ok? && Now() == w
              case Err(e) => r == Err(e)
      ensures r.Err? ==> Now() == old(Now()).(state := old(state).(delivered := state.delivered))
      ensures r.Err? && r.error != Refused ==> Now() == old(Now())
      ensures r == Err(Refused) ==>
                (Now() == old(Now())
                 <==> Restorable(old(state).delivered, Kept(old(state).delivered, p.submitted)))
    {
      hide RolledBack, Restorable, Accepted, Kept, InputSubmitted, InsertAt, Without;
      if state.sequence >= U64_MAX {
        return Err(Overflow);
      }
      var target := MessageTarget(state.sequence + 1, 1 + |delta|);
      var events := [TurnStarted(p.turn)] + HookEvents(p.hooks) + [Message(p.id, target)];
      var taken := ConsumeNextTurn(p.id);
      if taken.Err? {
        return Err(taken.error);
      }
      var (index, message) := taken.value;
      var begun := BeginTurn(p.id, p.turn, p.author, p.clock);
      if begun.Err? {
        state := state.(queue := InsertAt(state.queue, index, message));
        return Err(begun.error);
      }
      var contextLen, transcriptLen := |state.context|, |delta|;
      var hadTitle := state.firstUserMessage.Some?;
      ghost var begunWorld := Now();
      SubmitInput(p);
      InputIsUndone(begunWorld, p);
      var saved := PersistWithEvents(events, None, p.stored);
      if saved.Err? {
        UndoTurnStart(index, message, contextLen, transcriptLen, hadTitle);
        RollbackIsExact(begunWorld.state.delivered, p.submitted);
        return Err(saved.error);
      }
      return Ok(());
    }

    /** Tentatively adds the hooks' input, the title and the message. */
    method SubmitInput(p: Start)
      modifies this`state, this`delta
      ensures Now() == InputSubmitted(old(Now()), p)
    {
      hide Kept, Accepted;
      var receipts, context := Extend(state.delivered, state.context, p.submitted);
      state := state.(delivered := receipts, context := context);
      if state.firstUserMessage.None? && p.title.Some? {
        state := state.(firstUserMessage := p.title);
      }
      PushContext(MessageItem(p.text));
    }

    /** Takes back what a turn start changed since its execution began. */
    method UndoTurnStart(index: nat, message: QueuedMessage, contextLen: nat, transcriptLen: nat,
                         hadTitle: bool)
      requires index <= |state.queue| && contextLen <= |state.context| && transcriptLen <= |delta|
      modifies this`state, this`delta
      ensures state == old(state).(
                       queue := InsertAt(old(state).queue, index, message),
                       delivered := RolledBack(old(state).delivered, old(state).context[contextLen..]),
                       context := old(state).context[..contextLen],
                       firstUserMessage := if hadTitle then old(state).firstUserMessage else None,
                       execution := None)
      ensures delta == old(delta)[..transcriptLen]
    {
      state := state.(queue := InsertAt(state.queue, index, message));
      var rolled := Rollback(state.delivered, state.context[contextLen..]);
      state := state.(delivered := rolled);
      state := state.(context := state.context[..contextLen]);
      delta := delta[..transcriptLen];
      if !hadTitle {
        state := state.(firstUserMessage := None);
      }
      state := state.(execution := None);
    }

    /** Installs the changed queue; a failed save puts the previous one back. */
    method PersistSubmissionChange(queue: seq<QueuedMessage>, events: seq<Event>, stored: bool)
      returns (r: Result<(), Failure>)
      modifies this
      ensures match QueueChanged(old(Now()), queue, events, stored)
              case Ok(w) => r.Ok? && Now() == w
              case Err(e) => r == Err(e) && Now() == old(Now())
    {
      var previous := state.queue;
      state := state.(queue := queue);
      var saved := PersistWithEvents(events, None, stored);
      if saved.Err? {
        state := state.(queue := previous);
        return Err(saved.error);
      }
      return Ok(());
    }

    /** Runs the turn-end hooks once per turn, however often ending it is tried. */
    method TurnEndEvents(turn: string, hooks: Option<seq<string>>)
      returns (r: Result<seq<Event>, Failure>)
      modifies this`turnEnd
      ensures turnEnd == Some(turn)
      ensures old(turnEnd) == Some(turn) ==> r == Ok([])
      ensures old(turnEnd) != Some(turn) ==>
                r == if hooks.Some? then Ok(HookEvents(hooks.value)) else Err(Hook)
    {
      if turnEnd == Some(turn) {
        return Ok([]);
      }
      turnEnd := Some(turn);
      if hooks.None? {
        return Err(Hook);
      }
      return Ok(HookEvents(hooks.value));
    }

    method FinishTurn(turn: string, outcome: Outcome, reason: string, events: seq<Event>, env: Ending)
      returns (r: Result<(), Failure>)
      modifies this
      ensures match TurnFinished(old(Now()), owner, turn, outcome, reason, events, env)
              case Ok(w) => r.Ok? && Now() == w
              case Err(e) => r == Err(e)
      ensures r.Err? ==>
                && turnEnd == (if owner.Some? then Some(turn) else old(turnEnd))
                && delta == old(delta) && store == old(store)
                && (outcome.Completed? ==> state == old(state))
    {
      if owner.None? {
        return Err(NoHandler);
      }
      if !outcome.Completed? {
        var queue := new MessageQueue(state.queue, owner);
        var promoted := queue.PromoteFailedTurn(turn);
        state := state.(queue := queue.items);
      }
      var ended := TurnEndEvents(turn, env.hooks);
      if ended.Err? {
        return Err(ended.error);
      }
      var saved := FinishAndPersistExecution(
        outcome, events + ended.value + [TurnEnded(turn, outcome, reason)], env.clock, env.stored);
      if saved.Err? {
        return Err(saved.error);
      }
      return Ok(());
    }

    method CompleteTurn(turn: string, events: seq<Event>, env: Ending) returns (r: Result<(), Failure>)
      modifies this
      ensures match TurnFinished(old(Now()), owner, turn, Completed, "", events, env)
              case Ok(w) => r.Ok? && Now() == w
              case Err(e) =>
                && r == Err(e)
                && Now() == old(Now()).(turnEnd := if owner.Some? then Some(turn) else old(turnEnd))
    {
      r := FinishTurn(turn, Completed, "", events, env);
    }

    /** Aborts a turn; a failure restores everything but the mark that its end hooks ran. */
    method AbortWithEvents(turn: string, outcome: Outcome, reason: string, events: seq<Event>,
                           env: Ending) returns (r: Result<(), Failure>)
      requires !outcome.Completed?
      modifies this
      ensures match TurnAborted(old(Now()), owner, turn, outcome, reason, events, env)
              case Ok(w) => r.Ok? && Now() == w
              case Err(e) =>
                && r == Err(e)
                && Now() == old(Now()).(
                            turnEnd := if ReachesTurnEnd(old(Now()), owner, reason, env.observed)
                            then Some(turn) else old(turnEnd))
    {
      hide TurnFinished, PendingFinished;
      var previous, transcriptLen := state, |delta|;
      var ended := FinishPendingTools(reason, env.observed);
      if ended.Err? {
        r := Err(ended.error);
      } else {
        state := state.(step := None);
        state := state.(pendingApproval := None);
        r := FinishTurn(turn, outcome, reason, events + ended.value, env);
      }
      if r.Err? {
        state := previous;
        delta := delta[..transcriptLen];
      }
    }

    // ---------- tools ----------

    /** Counts a batch and charges its paid results. */
    method ChargeToolResults(results: seq<ToolResult>, observed: nat -> bool)
      returns (r: Result<(), Failure>)
      modifies this`state
      ensures match Charged(old(state), results, observed)
              case Ok(s) => r.Ok? && state == s
              case Err(e) => r == Err(e) && e != Refused
      ensures OnlyCounted(old(state), state)
    {
      hide Errors, UsageRecorded, OnlyCounted, ToolsRecorded;
      ToolsOnlyCount(state, |results|, Errors(results));
      var recorded := RecordTools(|results|, Errors(results));
      if recorded.Err? {
        return recorded;
      }
      ghost var counted := state;
      var i := 0;
      while i < |results|
        invariant i <= |results|
        invariant UsageCharged(counted, results[..i], observed) == Ok(state)
      {
        assert results[..i + 1][..i] == results[..i];
        if results[i].usage.Some? {
          var charged := RecordUsage(results[i].usage.value, observed(i));
          if charged.Err? {
            ChargeStops(counted, results, observed, i + 1);
            UsageOnlyCounts(counted, results[..i], observed);
            CountedTwice(old(state), counted, state);
            return charged;
          }
        }
        i := i + 1;
      }
      assert results[..|results|] == results;
      UsageOnlyCounts(counted, results, observed);
      CountedTwice(old(state), counted, state);
      return Ok(());
    }

    /**
     Counts, charges and appends a batch of results, and takes its calls out of the pending
     tools. It fails only while counting and charging, before anything is appended.
     */
    method AppendToolResults(results: seq<ToolResult>, observed: nat -> bool)
      returns (r: Result<(), Failure>)
      modifies this`state, this`delta
      ensures match ToolsApplied(old(Now()), results, observed)
              case Ok(w) => r.Ok? && Now() == w
              case Err(e) => r == Err(e) && e != Refused
      ensures r.Err? ==> delta == old(delta) && OnlyCounted(old(state), state)
    {
      hide Kept, Accepted, Charged, OnlyCounted, Extended;
      r := ChargeToolResults(results, observed);
      if r.Err? {
        return;
      }
      var rest := Retain(state.pendingTools, results);
      state := state.(pendingTools := rest);
      ghost var w := Now();
      ExtendNothing(w);
      var i := 0;
      while i < |results|
        invariant i <= |results|
        invariant Now() == Extended(w, Offered(results[..i]))
      {
        assert results[..i + 1][..i] == results[..i];
        var result := results[i];
        ghost var so := Now();
        PushContext(OutputItem(result));
        ExtendPlain(so, OutputItem(result));
        ExtendContext(result.additional);
        ExtendTwice(so, [OutputItem(result)], result.additional);
        ExtendTwice(w, Offered(results[..i]), [OutputItem(result)] + result.additional);
        i := i + 1;
      }
      assert results[..|results|] == results;
    }

    /** Saves a batch of results; a failure takes back everything it changed. */
    method PersistToolResults(results: seq<ToolResult>, hooks: seq<string>, observed: nat -> bool,
                              stored: bool) returns (r: Result<(), Failure>)
      modifies this
      ensures match ToolsSaved(old(Now()), results, hooks, observed, stored)
              case Ok(w) => r.Ok? && Now() == w
              case Err(e) => r == Err(e)
      ensures r.Err? ==> Now() == old(Now()).(state := old(state).(delivered := state.delivered))
      ensures r.Err? && Restorable(old(state).delivered, Kept(old(state).delivered, Offered(results)))
              ==> Now() == old(Now())
      ensures r == Err(Refused) ==>
                (Now() == old(Now())
                 <==> Restorable(old(state).delivered, Kept(old(state).delivered, Offered(results))))
    {
      hide RolledBack, Restorable, Accepted, Kept, Charged, Offered, OnlyCounted;
      if results == [] && hooks == [] {
        return Ok(());
      }
      var paid := BatchUsage(results);
      if paid.None? {
        return Err(Overflow);
      }
      var pending, accounting, total := state.pendingTools, state.execution, state.totalUsage;
      var contextLen, transcriptLen := |state.context|, |delta|;
      ghost var before, kept := state, Kept(state.delivered, Offered(results));
      r := AppendToolResults(results, observed);
      if r.Ok? {
        AppliedCounts(before, results, observed);
        var events := HookEvents(hooks) + ToolEvents(results)
                      + if paid.value.Some? then [UsageTotal(state.totalUsage)] else [];
        var saved := PersistWithEvents(events, None, stored);
        if saved.Ok? {
          return Ok(());
        }
        r := Err(saved.error);
        assert state.context[contextLen..] == kept;
      } else {
        RolledBackEmpty(before.delivered);
        CountedFields(before, state);
        assert state.context[contextLen..] == [];
      }
      CountersComeBack(before, state, accounting);
      UndoToolResults(pending, accounting, total, contextLen, transcriptLen);
      RollbackIsExact(before.delivered, Offered(results));
    }

    /** Takes back what a batch of tool results changed. */
    method UndoToolResults(pending: seq<ToolCall>, accounting: Option<Execution>, total: Usage,
                           contextLen: nat, transcriptLen: nat)
      requires contextLen <= |state.context| && transcriptLen <= |delta|
      modifies this`state, this`delta
      ensures state == old(state).(
                       pendingTools := pending,
                       execution := Recounted(old(state).execution, accounting),
                       totalUsage := total,
                       delivered := RolledBack(old(state).delivered, old(state).context[contextLen..]),
                       context := old(state).context[..contextLen])
      ensures delta == old(delta)[..transcriptLen]
    {
      state := state.(pendingTools := pending);
      if accounting.Some? && state.execution.Some? {
        var active := state.execution.value;
        state := state.(execution := Some(active.(
                          toolCalls := accounting.value.toolCalls,
                          failedToolCalls := accounting.value.failedToolCalls,
                          usage := accounting.value.usage)));
      }
      state := state.(totalUsage := total);
      var rolled := Rollback(state.delivered, state.context[contextLen..]);
      state := state.(delivered := rolled);
      state := state.(context := state.context[..contextLen]);
      delta := delta[..transcriptLen];
    }

    /** Ends a tool step; a failure also puts the approval it waited for back. */
    method CompleteToolStep(results: seq<ToolResult>, hooks: seq<string>, observed: nat -> bool,
                            stored: bool) returns (r: Result<(), Failure>)
      modifies this
      ensures match ToolStepDone(old(Now()), results, hooks, observed, stored)
              case Ok(w) => r.Ok? && Now() == w
              case Err(e) => r == Err(e)
      ensures r.Err? ==> Now() == old(Now()).(state := old(state).(delivered := state.delivered))
      ensures r.Err? && Restorable(old(state).delivered, Kept(old(state).delivered, Offered(results)))
              ==> Now() == old(Now())
    {
      hide ToolsSaved, Restorable, Kept, Offered;
      var approval := state.pendingApproval;
      state := state.(pendingApproval := None);
      r := PersistToolResults(results, hooks, observed, stored);
      if r.Err? {
        state := state.(pendingApproval := approval);
      }
    }

    method FinishPendingTools(reason: string, observed: nat -> bool)
      returns (r: Result<seq<Event>, Failure>)
      modifies this`state, this`delta
      ensures match PendingFinished(old(Now()), reason, observed)
              case Ok((w, events)) => r == Ok(events) && Now() == w
              case Err(e) => r == Err(e)
      ensures old(delta) <= delta
    {
      hide ToolsApplied, Kept, Accepted;
      var calls := state.pendingTools;
      state := state.(pendingTools := []);
      if state.step.Some? {
        ExtendContext(CallItems(calls));
      }
      var results := Interrupted(calls, INTERRUPTED + reason);
      if results == [] {
        return Ok([]);
      }
      ghost var w := Now();
      var appended := AppendToolResults(results, observed);
      if appended.Err? {
        return Err(appended.error);
      }
      AppliedGrows(w, results, observed);
      return Ok(ToolEvents(results));
    }

    // ---------- staged messages ----------

    /** Stages every message that steers the turn; hooks see a copy, so failure changes nothing. */
    method StageMessageInput(turn: string, replies: nat -> Reply, stored: bool)
      returns (r: Result<(), Failure>)
      modifies this
      ensures match InputStaged(old(Now()), owner, turn, replies, stored)
              case Ok(w) => r.Ok? && Now() == w
              case Err(e) => r == Err(e) && Now() == old(Now())
    {
      hide StagedAll, Filter, Woken, Reidled, Owns, Promoted;
      if owner.None? {
        return Err(NoHandler);
      }
      var queue := new MessageQueue(state.queue, owner);
      var messages := queue.StageModelMessages(turn);
      if messages == [] {
        return Ok(());
      }
      if state.sequence >= U64_MAX {
        return Err(Overflow);
      }
      var staged := StageMessages(messages, replies);
      if staged.None? {
        return Err(Hook);
      }
      StagedContext(Now(), messages, replies);
      var st := staged.value;
      var contextLen, transcriptLen := |state.context|, |delta|;
      var previousQueue, previousDelivered := state.queue, state.delivered;
      state := state.(queue := queue.items);
      ghost var before := state.execution;
      var wasIdle, previousAuthor := WakeExecution(st);
      var events := if wasIdle && st.origin.Some? then [TurnStarted(turn)] + st.events else [] + st.events;
      state := state.(context := st.context);
      state := state.(delivered := st.delivered);
      delta := delta + st.transcript;
      var saved := PersistWithEvents(events, None, stored);
      if saved.Err? {
        UndoStaging(previousQueue, wasIdle, previousAuthor, contextLen, previousDelivered,
                    transcriptLen);
        return Err(saved.error);
      }
      return Ok(());
    }

    /** A staged message turns an idle execution into a normal one of that message's author. */
    method WakeExecution(st: Staging) returns (wasIdle: bool, author: Option<Author>)
      requires st.origin.Some? ==> st.transcript != [] && state.execution.Some?
                                   && state.execution.value.idle
      modifies this`state
      ensures state == old(state).(execution := Woken(old(state).execution, st))
      ensures wasIdle <==> state.execution != old(state).execution
      ensures Reidled(state.execution, wasIdle, author) == old(state).execution
    {
      wasIdle, author := false, None;
      if st.transcript != [] && state.execution.Some? {
        wasIdle := state.execution.value.idle;
        state := state.(execution := Some(state.execution.value.(idle := false)));
      }
      if st.origin.Some? && state.execution.Some? {
        author := Some(state.execution.value.author);
        state := state.(execution := Some(state.execution.value.(author := st.origin.value.0)));
      }
    }

    /** Takes back what staging changed once its messages were in the live state. */
    method UndoStaging(queue: seq<QueuedMessage>, wasIdle: bool, author: Option<Author>,
                       contextLen: nat, delivered: Receipts, transcriptLen: nat)
      requires contextLen <= |state.context| && transcriptLen <= |delta|
      modifies this`state, this`delta
      ensures state == old(state).(
                       queue := queue,
                       execution := Reidled(old(state).execution, wasIdle, author),
                       context := old(state).context[..contextLen],
                       delivered := delivered)
      ensures delta == old(delta)[..transcriptLen]
    {
      state := state.(queue := queue);
      if wasIdle && state.execution.Some? {
        state := state.(execution := Some(state.execution.value.(idle := true)));
        if author.Some? {
          state := state.(execution := Some(state.execution.value.(author := author.value)));
        }
      }
      state := state.(context := state.context[..contextLen]);
      state := state.(delivered := delivered);
      delta := delta[..transcriptLen];
    }

    /** Runs the submit hooks over the messages in order, each seeing what came before it. */
    method StageMessages(messages: seq<QueuedMessage>, replies: nat -> Reply)
      returns (staged: Option<Staging>)
      ensures staged == StagedAll(Now(), messages, replies)
    {
      hide Kept, Accepted;
      var st := Staging(state.context, state.delivered, [], [], None);
      var i := 0;
      while i < |messages|
        invariant i <= |messages|
        invariant StagedAll(Now(), messages[..i], replies) == Some(st)
      {
        assert messages[..i + 1][..i] == messages[..i];
        var m := messages[i];
        match replies(i) {
          case Fail =>
            StagingStops(Now(), messages, replies, i + 1);
            return None;
          case TurnAway(reason, hooks) =>
            st := st.(events := st.events + HookEvents(hooks) + [Rejected(m.id, reason)]);
          case Submit(input, hooks) =>
            var origin := st.origin;
            if origin.None? && state.execution.Some? && state.execution.value.idle {
              origin := Some((m.author, m.id));
            }
            var receipts, context := Extend(st.delivered, st.context, input);
            var target := MessageTarget(state.sequence + 1, 1 + (|delta| + |st.transcript|));
            st := Staging(context + [MessageItem(m.text)], receipts,
                          st.transcript + [MessageItem(m.text)],
                          st.events + HookEvents(hooks) + [Message(m.id, target)], origin);
        }
        i := i + 1;
      }
      assert messages[..|messages|] == messages;
      return Some(st);
    }
  }

  /** Removes the calls that have a result. */
  method Retain(calls: seq<ToolCall>, results: seq<ToolResult>) returns (rest: seq<ToolCall>)
    ensures rest == Filter(Unfinished(results), calls)
  {
    var completed := set i | 0 <= i < |results| :: results[i].callId;
    rest := [];
    var i := 0;
    while i < |calls|
      invariant i <= |calls|
      invariant rest == Filter(Unfinished(results), calls[..i])
    {
      assert calls[..i + 1][..i] == calls[..i];
      if calls[i].callId !in completed {
        rest := rest + [calls[i]];
      }
      i := i + 1;
    }
    assert calls[..|calls|] == calls;
  }

  // ---------- what the undo relies on ----------

  /** Only the tool counters and usage totals differ. */
  ghost predicate OnlyCounted(a: Checkpoint, b: Checkpoint) {
    b == a.(totalUsage := b.totalUsage, execution := b.execution)
    && match a.execution
       case None => b.execution.None?
       case Some(e) =>
         b.execution.Some?
         && b.execution.value == e.(toolCalls := b.execution.value.toolCalls,
                                    failedToolCalls := b.execution.value.failedToolCalls,
                                    usage := b.execution.value.usage)
  }

  /** The counters of `saved` put back into the current execution. */
  ghost function Recounted(now: Option<Execution>, saved: Option<Execution>): Option<Execution> {
    if now.None? || saved.None? then now
    else
      Some(now.value.(toolCalls := saved.value.toolCalls,
                      failedToolCalls := saved.value.failedToolCalls, usage := saved.value.usage))
  }

  ghost function Reidled(now: Option<Execution>, wasIdle: bool, author: Option<Author>)
    : Option<Execution>
  {
    if !wasIdle || now.None? then now
    else
      Some(now.value.(idle := true,
                      author := if author.Some? then author.value else now.value.author))
  }

  lemma CountersComeBack(a: Checkpoint, b: Checkpoint, accounting: Option<Execution>)
    requires accounting == a.execution
    requires exists c: Checkpoint :: OnlyCounted(a, c) && c.execution == b.execution
    ensures Recounted(b.execution, accounting) == a.execution
  {
  }

  lemma CountedFields(a: Checkpoint, b: Checkpoint)
    requires OnlyCounted(a, b)
    ensures b == a.(totalUsage := b.totalUsage, execution := b.execution)
  {
  }

  /** Charging changes counters only, and appending changes none. */
  lemma AppliedCounts(s: Checkpoint, results: seq<ToolResult>, observed: nat -> bool)
    ensures Charged(s, results, observed).Ok? ==>
              var c := Charged(s, results, observed).value;
              OnlyCounted(s, c) && c == s.(totalUsage := c.totalUsage, execution := c.execution)
  {
    ChargedOnlyCounts(s, results, observed);
  }

  lemma {:induction false} ChargeStops(s: Checkpoint, results: seq<ToolResult>,
                                       observed: nat -> bool, n: nat)
    requires n <= |results| && UsageCharged(s, results[..n], observed).Err?
    ensures UsageCharged(s, results, observed) == UsageCharged(s, results[..n], observed)
    decreases |results| - n
  {
    if n < |results| {
      assert results[..n + 1][..n] == results[..n];
      ChargeStops(s, results, observed, n + 1);
    } else {
      assert results[..n] == results;
    }
  }

  lemma {:induction false} UsageOnlyCounts(s: Checkpoint, results: seq<ToolResult>,
                                           observed: nat -> bool)
    ensures UsageCharged(s, results, observed).Ok? ==>
              OnlyCounted(s, UsageCharged(s, results, observed).value)
    decreases |results|
  {
    if results != [] {
      UsageOnlyCounts(s, results[..|results| - 1], observed);
    }
  }

  lemma ToolsOnlyCount(s: Checkpoint, calls: nat, failed: nat)
    ensures OnlyCounted(s, s)
    ensures ToolsRecorded(s, calls, failed).Ok? ==>
              OnlyCounted(s, ToolsRecorded(s, calls, failed).value)
  {
  }

  lemma CountedTwice(a: Checkpoint, b: Checkpoint, c: Checkpoint)
    requires OnlyCounted(a, b) && OnlyCounted(b, c)
    ensures OnlyCounted(a, c)
  {
  }

  lemma ChargedOnlyCounts(s: Checkpoint, results: seq<ToolResult>, observed: nat -> bool)
    ensures Charged(s, results, observed).Ok? ==>
              OnlyCounted(s, Charged(s, results, observed).value)
  {
    var counted := ToolsRecorded(s, |results|, Errors(results));
    if counted.Ok? {
      UsageOnlyCounts(counted.value, results, observed);
    }
  }

  lemma {:induction false} StagingStops(w: World, messages: seq<QueuedMessage>,
                                        replies: nat -> Reply, n: nat)
    requires n <= |messages| && StagedAll(w, messages[..n], replies).None?
    ensures StagedAll(w, messages, replies).None?
    decreases |messages| - n
  {
    if n < |messages| {
      assert messages[..n + 1][..n] == messages[..n];
      StagingStops(w, messages, replies, n + 1);
    } else {
      assert messages[..n] == messages;
    }
  }

  /** Staging only appends to the context, and only an idle execution gets an origin. */
  lemma {:induction false} StagedContext(w: World, messages: seq<QueuedMessage>, replies: nat -> Reply)
    requires StagedAll(w, messages, replies).Some?
    ensures var st := StagedAll(w, messages, replies).value;
            && w.state.context <= st.context
            && (st.origin.Some? ==> st.transcript != [] && w.state.execution.Some?
                                    && w.state.execution.value.idle)
    decreases |messages|
  {
    hide Kept, Accepted;
    if messages != [] {
      StagedContext(w, messages[..|messages| - 1], replies);
    }
  }

  lemma RolledBackEmpty(r: Receipts)
    ensures RolledBack(r, []) == r
  {
  }

  lemma ExtendNothing(w: World)
    ensures Extended(w, []) == w
  {
    assert w.state.context + [] == w.state.context && w.delta + [] == w.delta;
  }

  lemma ExtendPlain(w: World, item: Item)
    requires item.receipt.None?
    ensures Extended(w, [item]) == w.(state := w.state.(context := w.state.context + [item]),
                                      delta := w.delta + [item])
  {
    assert [item][..0] == [];
    assert Kept(w.state.delivered, [item]) == [item];
  }

  lemma ExtendTwice(w: World, a: seq<Item>, b: seq<Item>)
    ensures Extended(Extended(w, a), b) == Extended(w, a + b)
  {
    AcceptedConcat(w.state.delivered, a, b);
    Assoc(w.state.context, Kept(w.state.delivered, a), Kept(Accepted(w.state.delivered, a), b));
    Assoc(w.delta, Kept(w.state.delivered, a), Kept(Accepted(w.state.delivered, a), b));
  }

  /** The message that follows the accepted suffix carries no receipt, so it rolls nothing back. */
  lemma RollbackOfSuffix(r: Receipts, items: seq<Item>, text: string)
    ensures RolledBack(Accepted(r, items), Kept(r, items) + [MessageItem(text)])
            == RolledBack(Accepted(r, items), Kept(r, items))
  {
    var all := Kept(r, items) + [MessageItem(text)];
    assert all[..|all| - 1] == Kept(r, items);
  }

  /** Truncating and rolling back the submitted input leaves what was there before it. */
  lemma InputIsUndone(w: World, p: Start)
    ensures var after := InputSubmitted(w, p);
            && |w.state.context| <= |after.state.context| && |w.delta| <= |after.delta|
            && after.state.context[..|w.state.context|] == w.state.context
            && after.delta[..|w.delta|] == w.delta
            && after == w.(state := w.state.(context := after.state.context,
                                             delivered := after.state.delivered,
                                             firstUserMessage := after.state.firstUserMessage),
                           delta := after.delta)
            && (w.state.firstUserMessage.Some? ==>
                  after.state.firstUserMessage == w.state.firstUserMessage)
            && RolledBack(after.state.delivered, after.state.context[|w.state.context|..])
               == RolledBack(Accepted(w.state.delivered, p.submitted),
                             Kept(w.state.delivered, p.submitted))
  {
    var kept := Kept(w.state.delivered, p.submitted);
    Assoc(w.state.context, kept, [MessageItem(p.text)]);
    RollbackOfSuffix(w.state.delivered, p.submitted, p.text);
  }

  lemma AppliedGrows(w: World, results: seq<ToolResult>, observed: nat -> bool)
    requires ToolsApplied(w, results, observed).Ok?
    ensures w.delta <= ToolsApplied(w, results, observed).value.delta
  {
  }
}
