/** Runs of the runner: every operation, saved or failed, and every crash, keep one invariant. */
module RunnerRuns {
  import opened Balance
  import opened Checkpoint
  import opened DeliveryOnce
  import opened MessageQueue
  import Guidance = OnceOnly
  import opened Preparation
  import opened RunnerSpec
  import opened Sequences
  import opened Startup
  import opened Wrappers

  /**
   Admit and Edit change the queue. Prepare, Step, Stream and Output are the model step around the
   runner: its hooks change the context, it starts, its calls become pending one by one, and its
   output enters. Restart loses the live state and opens the stored one again; `resaved` is whether
   opening changes anything else.
   */
  datatype Op =
    | StartTurn(start: Start)
    | Stage(turn: string, replies: nat -> Reply, stored: bool)
    | Admit(message: QueuedMessage, events: seq<Event>, stored: bool)
    | Edit(id: string, replacement: string, text: string, events: seq<Event>, stored: bool)
    | Prepare(changes: seq<Change>, events: seq<Event>, stored: bool)
    | Step(id: string, stored: bool)
    | Stream(call: ToolCall, stored: bool)
    | Output(items: seq<Item>, calls: seq<ToolCall>, stored: bool)
    | Ask(approval: Approval, stored: bool)
    | Decide(stored: bool)
    | Tools(results: seq<ToolResult>, hooks: seq<string>, observed: nat -> bool, stored: bool)
    | Abort(outcome: Outcome, reason: string, events: seq<Event>, env: Ending)
    | Complete(events: seq<Event>, env: Ending)
    | Restart(opening: Opening, resaved: bool, stored: bool)

  /** The output of a model step: each of its calls once, no outputs, and guidance. */
  ghost predicate Opens(items: seq<Item>, calls: seq<ToolCall>) {
    && DistinctIds(calls) && OnlyGuidanceOnce(items)
    && (forall id :: CallCount(items, id) == if id in Ids(calls) then 1 else 0)
    && (forall id :: OutputCount(items, id) == 0)
  }

  /** The message of a turn start was prepared from the queued one. */
  predicate PreparedFrom(queue: seq<QueuedMessage>, owner: Option<string>, p: Start) {
    owner.Some? ==>
      match IndexWhere(Startable(owner.value, p.id), queue)
      case None => true
      case Some(i) => p.text == queue[i].text
  }

  /** What each operation relies on. */
  ghost predicate Enabled(w: World, owner: Option<string>, op: Op) {
    var s := w.state;
    match op
    case StartTurn(p) => Quiet(p.submitted) && PreparedFrom(s.queue, owner, p)
    case Stage(_, replies, _) =>
      forall i: nat :: replies(i).Submit? ==> Quiet(replies(i).input)
    case Admit(message, _, _) => owner == Some(message.owner)
    case Edit(_, _, _, _, _) => true
    case Prepare(changes, _, _) =>
      s.step.None? && s.execution.Some? && AllSound(DraftOf(s), changes, Ids(s.pendingTools))
    case Step(_, _) =>
      s.step.None? && s.pendingTools == [] && s.pendingApproval.None? && s.execution.Some?
    case Stream(call, _) => s.step.Some? && call.callId !in Ids(s.pendingTools)
    case Output(items, calls, _) => s.step.Some? && Opens(items, calls)
    case Ask(_, _) => s.step.None? && s.pendingTools != []
    case Decide(_) => s.pendingApproval.Some?
    case Tools(results, _, _, _) => s.step.None? && Answers(results, s.pendingTools)
                                    && (results == [] ==> s.pendingApproval.None?)
    case Abort(outcome, _, _, _) => s.execution.Some? && !outcome.Completed?
    case Complete(_, _) => s.execution.Some? && s.pendingTools == [] && s.pendingApproval.None?
    case Restart(opening, _, _) => QuietHooks(opening.hooks)
  }

  function Or(r: Result<World, Failure>, otherwise: World): World {
    if r.Ok? then r.value else otherwise
  }

  function TurnOf(w: World): string {
    if w.state.execution.Some? then w.state.execution.value.turn else ""
  }

  /** The world after a failed attempt to end a turn: only the mark of its hooks may stay. */
  function Marked(w: World, reached: bool): World {
    if reached then w.(turnEnd := Some(TurnOf(w))) else w
  }

  function MessageAdmitted(w: World, m: QueuedMessage, events: seq<Event>, stored: bool): Result<World, Failure> {
    if Pushed(w.state.queue, m) == w.state.queue then Err(Refused)
    else QueueChanged(w, Pushed(w.state.queue, m), events, stored)
  }

  function MessageEdited(w: World, owner: Option<string>, id: string, replacement: string, text: string,
                  events: seq<Event>, stored: bool): Result<World, Failure>
  {
    if owner.None? then Err(NoHandler)
    else
      match Replaced(w.state.queue, owner.value, id, replacement, text)
      case None => Err(Refused)
      case Some(queue) => QueueChanged(w, queue, events, stored)
  }

  function Stepped(w: World, id: string): World {
    w.(state := w.state.(step := Some(id)))
  }

  function OutputEntered(w: World, items: seq<Item>, calls: seq<ToolCall>): World {
    var after := Extended(w, items);
    after.(state := after.state.(pendingTools := calls, step := None))
  }

  function Approving(w: World, approval: Approval): World {
    w.(state := w.state.(pendingApproval := Some(approval)))
  }

  /** What a crash leaves. */
  function Loaded(w: World): World {
    World(w.store.checkpoint, [], None, w.store)
  }

  /** The session that opening the stored checkpoint saves, if it has anything to save. */
  function Reopened(w: World, owner: Option<string>, opening: Opening, resaved: bool, stored: bool)
    : Result<World, Failure>
  {
    match Opened(w.store.checkpoint, owner, opening)
    case Err(e) => Err(e)
    case Ok(r) =>
      if r.record.None? && r.state == w.store.checkpoint && !resaved then Ok(Loaded(w))
      else Persist(Loaded(w).(state := r.state, delta := r.delta), r.events, r.record, stored)
  }

  ghost function Next(w: World, owner: Option<string>, op: Op): World {
    if !Enabled(w, owner, op) then w
    else
      match op
      case StartTurn(p) => Or(TurnBegun(w, owner, p), w)
      case Stage(turn, replies, stored) => Or(InputStaged(w, owner, turn, replies, stored), w)
      case Admit(message, events, stored) => Or(MessageAdmitted(w, message, events, stored), w)
      case Edit(id, replacement, text, events, stored) =>
        Or(MessageEdited(w, owner, id, replacement, text, events, stored), w)
      case Prepare(changes, events, stored) => Prepared(w, changes, events, stored)
      case Step(id, stored) =>
        Or(Persist(Stepped(w, id), [], None, stored), Stepped(w, id))
      case Stream(call, stored) =>
        Or(Persist(w.(state := w.state.(pendingTools := w.state.pendingTools + [call])),
                   [], None, stored), w)
      case Output(items, calls, stored) =>
        Or(Persist(OutputEntered(w, items, calls), [], None, stored), OutputEntered(w, items, calls))
      case Ask(approval, stored) =>
        Or(Persist(Approving(w, approval), [], None, stored), Approving(w, approval))
      case Decide(stored) =>
        var decided := Approving(w, w.state.pendingApproval.value.(decisionReceived := true));
        Or(Persist(decided, [], None, stored), decided)
      case Tools(results, hooks, observed, stored) =>
        Or(ToolStepDone(w, results, hooks, observed, stored), w)
      case Abort(outcome, reason, events, env) =>
        Or(TurnAborted(w, owner, TurnOf(w), outcome, reason, events, env),
           Marked(w, ReachesTurnEnd(w, owner, reason, env.observed)))
      case Complete(events, env) =>
        Or(TurnFinished(w, owner, TurnOf(w), Completed, "", events, env), Marked(w, owner.Some?))
      case Restart(opening, resaved, stored) =>
        Or(Reopened(w, owner, opening, resaved, stored), Loaded(w))
  }

  ghost function Run(w: World, owner: Option<string>, ops: seq<Op>): World
    decreases |ops|
  {
    if ops == [] then w else Next(Run(w, owner, ops[..|ops| - 1]), owner, ops[|ops| - 1])
  }

  // ---------- what an operation pushes ----------

  /** The messages that the hooks let through, in order. */
  function Through(messages: seq<QueuedMessage>, replies: nat -> Reply): seq<QueuedMessage>
    decreases |messages|
  {
    if messages == [] then []
    else
      var n := |messages| - 1;
      Through(messages[..n], replies) + if replies(n).Submit? then [messages[n]] else []
  }

  function MessageItems(messages: seq<QueuedMessage>): seq<Item> {
    seq(|messages|, i requires 0 <= i < |messages| => MessageItem(messages[i].text))
  }

  /** The messages that a turn start or a staging takes off the queue. */
  function Taken(w: World, owner: string, op: Op): seq<QueuedMessage>
    requires op.StartTurn? || op.Stage?
  {
    match op
    case StartTurn(p) =>
      (match IndexWhere(Startable(owner, p.id), w.state.queue)
       case None => []
       case Some(i) => [w.state.queue[i]])
    case Stage(turn, _, _) => Filter(Leaving(owner, turn), w.state.queue)
  }

  /** The transcript items that an operation pushes, each once and in order; none if it fails. */
  ghost function PushedItems(w: World, owner: Option<string>, op: Op): seq<Item> {
    if !Enabled(w, owner, op) then []
    else
      match op
      case StartTurn(p) =>
        if TurnBegun(w, owner, p).Err? then [] else MessageItems(Taken(w, owner.value, op))
      case Stage(turn, replies, stored) =>
        if InputStaged(w, owner, turn, replies, stored).Err? then []
        else MessageItems(Through(Taken(w, owner.value, op), replies))
      case Prepare(changes, _, _) => if Accepting(w, changes).None? then [] else PushedBy(changes)
      case Output(items, _, _) => Kept(w.state.delivered, items)
      case Tools(results, hooks, observed, stored) =>
        if ToolStepDone(w, results, hooks, observed, stored).Err? then []
        else Kept(w.state.delivered, Offered(results))
      case Abort(outcome, reason, events, env) =>
        if TurnAborted(w, owner, TurnOf(w), outcome, reason, events, env).Err? then []
        else Settling(w.state, INTERRUPTED + reason)
      case Restart(opening, resaved, stored) =>
        if Reopened(w, owner, opening, resaved, stored).Err? then []
        else RecoveryItems(w.store.checkpoint)
      case _ => []
  }

  /** Exactly `items` are pushed: either still unsaved, or saved with all that was unsaved. */
  ghost predicate Pushes(w: World, next: World, items: seq<Item>) {
    || (&& next.store == w.store && next.state.sequence == w.state.sequence
        && next.delta == w.delta + items)
    || (&& next.state.sequence == w.state.sequence + 1 && next.delta == []
        && w.store.batches <= next.store.batches && next.store.checkpoint == next.state
        && Flat(next.store.batches) == Flat(w.store.batches) + (w.delta + items))
  }

  lemma PushesNothing(w: World)
    ensures Pushes(w, w, [])
  {
    assert w.delta + [] == w.delta;
  }

  // ---------- the invariant ----------

  /** What holds of the live checkpoint and of the stored one. */
  ghost predicate Fit(s: Checkpoint) {
    && Balanced(s)
    && Guidance.Known(s.delivered, s.context)
    && (s.step.Some? || s.pendingTools != [] ==> s.execution.Some?)
    && (s.pendingApproval.Some? ==> s.step.None? && s.pendingTools != [])
  }

  ghost predicate Inv(w: World) {
    && Fit(w.state)
    && Fit(w.store.checkpoint)
    && Ascending(w.store.batches, w.state.sequence)
    && w.state.sequence == w.store.checkpoint.sequence
    && w.state.queue == w.store.checkpoint.queue
    && w.state.stats == w.store.checkpoint.stats
    && Tally(w.store.executions) == Some(w.state.stats)
  }

  /** The tentative world that a save is about to publish. */
  ghost predicate Ready(w: World, ready: World, items: seq<Item>, record: Option<ExecutionRecord>) {
    && ready.store == w.store
    && ready.state.sequence == w.state.sequence
    && Fit(ready.state)
    && ready.delta == w.delta + items
    && Some(ready.state.stats)
       == if record.Some? then Tallied(w.state.stats, record.value) else Some(w.state.stats)
  }

  lemma SaveKeeps(w: World, ready: World, items: seq<Item>, events: seq<Event>,
                  record: Option<ExecutionRecord>)
    requires Inv(w) && Ready(w, ready, items, record)
    ensures Inv(Saved(ready, events, record))
    ensures Pushes(w, Saved(ready, events, record), items)
  {
    hide Fit;
    FitExecution(ready.state);
    FitFrame(ready.state, Saved(ready, events, record).state);
    SaveKeepsJournal(ready, events, record);
    SavedBatches(ready, events, record);
    assert Flat(Saved(ready, events, record).store.batches) + []
           == Flat(Saved(ready, events, record).store.batches);
    if record.Some? {
      var records := w.store.executions + [record.value];
      assert records[..|records| - 1] == w.store.executions;
    } else {
      assert w.store.executions + [] == w.store.executions;
    }
  }

  lemma PersistKeeps(w: World, ready: World, items: seq<Item>, events: seq<Event>,
                     record: Option<ExecutionRecord>, stored: bool)
    requires Inv(w) && Ready(w, ready, items, record)
    ensures var r := Persist(ready, events, record, stored);
            r.Ok? ==> Inv(r.value) && Pushes(w, r.value, items)
  {
    hide Inv, Ready, Pushes;
    SaveKeeps(w, ready, items, events, record);
  }

  // ---------- each operation ----------

  /** Appending guidance, then a message, keeps a checkpoint fit. */
  lemma GuidanceKeeps(s: Checkpoint, items: seq<Item>, text: string)
    requires Fit(s) && Quiet(items)
    ensures Fit(s.(context := s.context + Kept(s.delivered, items) + [MessageItem(text)],
                   delivered := Accepted(s.delivered, items)))
  {
    hide Matched, Quiet, Accepted, Kept, Guidance.Known;
    MessageGrows(s.delivered, s.context, items, text);
    Guidance.GrowsKeeps(s.delivered, s.context, Accepted(s.delivered, items),
                        s.context + Kept(s.delivered, items) + [MessageItem(text)]);
    KeptQuiet(s.delivered, items);
    var open := if s.step.None? then Ids(s.pendingTools) else {};
    QuietKeeps(s.context, Kept(s.delivered, items), open);
    MessageIsQuiet(text);
    QuietKeeps(s.context + Kept(s.delivered, items), [MessageItem(text)], open);
  }

  /** Guidance, then a message, extend the context by themselves alone. */
  lemma MessageGrows(r: Receipts, context: seq<Item>, items: seq<Item>, text: string)
    ensures Guidance.Grows(r, context, Accepted(r, items), context + Kept(r, items) + [MessageItem(text)])
  {
    hide Guidance.Grows, Accepted, Kept;
    Guidance.AcceptGrows(r, context, items);
    Guidance.PlainGrows(Accepted(r, items), context + Kept(r, items), [MessageItem(text)]);
    Guidance.GrowsTwice(r, context, Accepted(r, items), context + Kept(r, items),
                        Accepted(r, items), context + Kept(r, items) + [MessageItem(text)]);
  }

  lemma MessageIsQuiet(text: string)
    ensures Quiet([MessageItem(text)])
  {
  }

  /** Fitness does not depend on the queue, the counters or the title. */
  lemma FitFrame(a: Checkpoint, b: Checkpoint)
    requires Fit(a) && a.context == b.context && a.step == b.step && a.pendingTools == b.pendingTools
    requires a.delivered == b.delivered && a.pendingApproval == b.pendingApproval
    requires b.step.Some? || b.pendingTools != [] ==> b.execution.Some?
    ensures Fit(b)
  {
  }

  lemma StartKeeps(w: World, owner: Option<string>, p: Start)
    requires Inv(w) && Enabled(w, owner, StartTurn(p))
    ensures var r := TurnBegun(w, owner, p);
            r.Ok? ==> Inv(r.value) && Pushes(w, r.value, MessageItems(Taken(w, owner.value, StartTurn(p))))
  {
    hide Fit, Quiet, Accepted, Kept, Pushes, Ascending;
    if TurnBegun(w, owner, p).Ok? {
      var i := IndexWhere(Startable(owner.value, p.id), w.state.queue).value;
      var begun := Begun(w.state, p.id, p.turn, p.author, p.clock).value;
      var ready := Started(w, i, begun, p);
      GuidanceKeeps(w.state, p.submitted, p.text);
      FitFrame(w.state.(context := ready.state.context, delivered := ready.state.delivered),
               ready.state);
      assert MessageItems(Taken(w, owner.value, StartTurn(p))) == [MessageItem(p.text)];
      PersistKeeps(w, ready, [MessageItem(p.text)], StartEvents(w, p), None, p.stored);
    }
  }

  lemma {:induction false} StagedFit(w: World, messages: seq<QueuedMessage>, replies: nat -> Reply)
    requires Fit(w.state) && StagedAll(w, messages, replies).Some?
    requires forall i: nat :: replies(i).Submit? ==> Quiet(replies(i).input)
    ensures var st := StagedAll(w, messages, replies).value;
            && Fit(w.state.(context := st.context, delivered := st.delivered))
            && st.transcript == MessageItems(Through(messages, replies))
    decreases |messages|
  {
    hide Fit, Quiet, Accepted, Kept;
    if messages != [] {
      var n := |messages| - 1;
      StagedFit(w, messages[..n], replies);
      var st := StagedAll(w, messages[..n], replies).value;
      var through := Through(messages[..n], replies);
      if replies(n).Submit? {
        GuidanceKeeps(w.state.(context := st.context, delivered := st.delivered),
                      replies(n).input, messages[n].text);
        assert MessageItems(through + [messages[n]])
               == MessageItems(through) + [MessageItem(messages[n].text)];
      } else {
        assert through + [] == through;
      }
    } else {
      assert w.state.(context := w.state.context, delivered := w.state.delivered) == w.state;
    }
  }

  lemma StageKeeps(w: World, owner: Option<string>, turn: string, replies: nat -> Reply, stored: bool)
    requires Inv(w) && Enabled(w, owner, Stage(turn, replies, stored))
    ensures var r := InputStaged(w, owner, turn, replies, stored);
            r.Ok? ==> Inv(r.value) && Pushes(w, r.value, MessageItems(Through(
                                                           Taken(w, owner.value, Stage(turn, replies, stored)), replies)))
  {
    hide Fit, Quiet, Ascending, StagedAll, Filter, Tally, Pushes;
    if InputStaged(w, owner, turn, replies, stored).Ok? {
      var messages := Filter(Leaving(owner.value, turn), w.state.queue);
      if messages != [] {
        var st := StagedAll(w, messages, replies).value;
        StagedFit(w, messages, replies);
        var execution := Woken(w.state.execution, st);
        var started := if execution != w.state.execution && st.origin.Some?
                       then [TurnStarted(turn)] else [];
        var ready := w.(
                     state := w.state.(
                       queue := Filter(Staying(owner.value, turn), w.state.queue),
                       context := st.context, delivered := st.delivered, execution := execution),
                     delta := w.delta + st.transcript);
        FitExecution(w.state);
        FitFrame(w.state.(context := st.context, delivered := st.delivered), ready.state);
        PersistKeeps(w, ready, st.transcript, started + st.events, None, stored);
      } else {
        PushesNothing(w);
        assert MessageItems(Through(messages, replies)) == [];
      }
    }
  }

  lemma FitExecution(s: Checkpoint)
    requires Fit(s)
    ensures s.step.Some? || s.pendingTools != [] ==> s.execution.Some?
    ensures s.pendingApproval.Some? ==> s.step.None? && s.pendingTools != []
  {
  }

  lemma QueueKeeps(w: World, queue: seq<QueuedMessage>, events: seq<Event>, stored: bool)
    requires Inv(w)
    ensures var r := QueueChanged(w, queue, events, stored);
            r.Ok? ==> Inv(r.value) && Pushes(w, r.value, [])
  {
    hide Fit, Pushes, Ascending, Tally;
    FitExecution(w.state);
    FitFrame(w.state, w.state.(queue := queue));
    assert w.delta + [] == w.delta;
    PersistKeeps(w, w.(state := w.state.(queue := queue)), [], events, None, stored);
  }

  lemma StreamKeeps(w: World, call: ToolCall, stored: bool)
    requires Inv(w) && Enabled(w, None, Stream(call, stored))
    ensures var next := Next(w, None, Stream(call, stored)); Inv(next) && Pushes(w, next, [])
  {
    hide Pushes, Ascending, Matched, Tally, Guidance.Known;
    var calls := w.state.pendingTools + [call];
    PushDistinct(w.state.pendingTools, call);
    assert w.delta + [] == w.delta;
    PushesNothing(w);
    PersistKeeps(w, w.(state := w.state.(pendingTools := calls)), [], [], None, stored);
  }

  lemma PushDistinct(calls: seq<ToolCall>, call: ToolCall)
    requires DistinctIds(calls) && call.callId !in Ids(calls)
    ensures DistinctIds(calls + [call])
  {
    forall i | 0 <= i < |calls| ensures calls[i].callId != call.callId {
      assert calls[i].callId in Ids(calls);
    }
  }

  lemma OutputKeeps(w: World, items: seq<Item>, calls: seq<ToolCall>, stored: bool)
    requires Inv(w) && Enabled(w, None, Output(items, calls, stored))
    ensures var next := Next(w, None, Output(items, calls, stored));
            Inv(next) && Pushes(w, next, Kept(w.state.delivered, items))
  {
    hide Ascending, Matched, Tally, Accepted, Kept, OnlyGuidanceOnce, CallCount, OutputCount, Pushes,
         Guidance.Known;
    var s, entered := w.state, OutputEntered(w, items, calls);
    forall id
      ensures CallCount(Kept(s.delivered, items), id) == if id in Ids(calls) then 1 else 0
      ensures OutputCount(Kept(s.delivered, items), id) == 0
    {
      KeptCounts(s.delivered, items, id);
    }
    AcceptKnown(s.delivered, s.context, items);
    CallsOpen(s.context, Kept(s.delivered, items), Ids(calls));
    PersistKeeps(w, entered, Kept(s.delivered, items), [], None, stored);
    TentativeKeeps(w, entered, Kept(s.delivered, items));
  }

  lemma AcceptKnown(r: Receipts, context: seq<Item>, items: seq<Item>)
    requires Guidance.Known(r, context)
    ensures Guidance.Known(Accepted(r, items), context + Kept(r, items))
  {
    Guidance.AcceptGrows(r, context, items);
    Guidance.GrowsKeeps(r, context, Accepted(r, items), context + Kept(r, items));
  }

  /** A change that a failed save leaves in the live state keeps the invariant too. */
  lemma TentativeKeeps(w: World, after: World, items: seq<Item>)
    requires Inv(w) && Fit(after.state) && after.store == w.store && after.delta == w.delta + items
    requires after.state.sequence == w.state.sequence && after.state.queue == w.state.queue
    requires after.state.stats == w.state.stats
    ensures Inv(after) && Pushes(w, after, items)
  {
  }

  lemma ToolsKeep(w: World, results: seq<ToolResult>, hooks: seq<string>, observed: nat -> bool,
                  stored: bool)
    requires Inv(w) && Enabled(w, None, Tools(results, hooks, observed, stored))
    ensures var r := ToolStepDone(w, results, hooks, observed, stored);
            r.Ok? ==> Inv(r.value) && Pushes(w, r.value, Kept(w.state.delivered, Offered(results)))
  {
    hide Ascending, Matched, Tally, Accepted, Kept, Answers, Charged, BatchUsage, Filter, Pushes,
         Guidance.Known, DistinctIds;
    var taken := w.(state := w.state.(pendingApproval := None));
    if ToolStepDone(w, results, hooks, observed, stored).Ok? {
      if results == [] && hooks == [] {
        NothingOffered(w.state.delivered);
        PushesNothing(w);
        assert taken == w;
      } else {
        var applied := ToolsApplied(taken, results, observed).value;
        ChargeFrame(taken.state, results, observed);
        AnswersKeep(w.state, results);
        AcceptKnown(w.state.delivered, w.state.context, Offered(results));
        BalancedFrame(applied.state, w.state.(
          context := w.state.context + Kept(w.state.delivered, Offered(results)),
          pendingTools := Filter(Unfinished(results), w.state.pendingTools)));
        NothingPending(w.state.pendingTools, results);
        var events := HookEvents(hooks) + ToolEvents(results)
                      + if BatchUsage(results).value.Some? then [UsageTotal(applied.state.totalUsage)]
                        else [];
        PersistKeeps(w, applied, Kept(w.state.delivered, Offered(results)), events, None, stored);
      }
    }
  }

  lemma NothingOffered(r: Receipts)
    ensures Kept(r, Offered([])) == []
  {
  }

  /** Balance only looks at the context, the step and the pending tools. */
  lemma BalancedFrame(a: Checkpoint, b: Checkpoint)
    requires a.context == b.context && a.step == b.step && a.pendingTools == b.pendingTools
    ensures Balanced(a) <==> Balanced(b)
  {
  }

  lemma NothingPending(calls: seq<ToolCall>, results: seq<ToolResult>)
    ensures calls == [] ==> Filter(Unfinished(results), calls) == []
  {
    FilterNothing(Unfinished(results));
  }

  lemma AnswersKeep(s: Checkpoint, results: seq<ToolResult>)
    requires Balanced(s) && s.step.None? && Answers(results, s.pendingTools)
    ensures Balanced(s.(context := s.context + Kept(s.delivered, Offered(results)),
                        pendingTools := Filter(Unfinished(results), s.pendingTools)))
  {
    hide Matched, Accepted, Kept, Filter, Offered, OnlyGuidanceOnce, CallCount, OutputCount;
    forall id
      ensures OutputCount(Kept(s.delivered, Offered(results)), id)
              == if id in ResultIds(results) then 1 else 0
      ensures CallCount(Kept(s.delivered, Offered(results)), id) == 0
    {
      OfferedCounts(results, id);
      KeptCounts(s.delivered, Offered(results), id);
    }
    PendingLeft(s.pendingTools, results);
    OutputsClose(s.context, Kept(s.delivered, Offered(results)), Ids(s.pendingTools), ResultIds(results));
  }

  lemma {:induction false} UsageFrame(s: Checkpoint, results: seq<ToolResult>, observed: nat -> bool)
    ensures UsageCharged(s, results, observed).Ok? ==>
              var c := UsageCharged(s, results, observed).value;
              && c == s.(totalUsage := c.totalUsage, execution := c.execution)
              && (s.execution.Some? ==> c.execution.Some?)
    decreases |results|
  {
    if results != [] {
      UsageFrame(s, results[..|results| - 1], observed);
    }
  }

  lemma ChargeFrame(s: Checkpoint, results: seq<ToolResult>, observed: nat -> bool)
    ensures Charged(s, results, observed).Ok? ==>
              var c := Charged(s, results, observed).value;
              && c == s.(totalUsage := c.totalUsage, execution := c.execution)
              && c.execution.Some?
  {
    var counted := ToolsRecorded(s, |results|, Errors(results));
    if counted.Ok? {
      UsageFrame(counted.value, results, observed);
    }
  }

  lemma SettlingGrows(s: Checkpoint, message: string)
    ensures Guidance.Grows(s.delivered, s.context, s.delivered, s.context + Settling(s, message))
  {
    Guidance.PlainGrows(s.delivered, s.context, Settling(s, message));
  }

  /** A settled checkpoint has nothing open, pending or in flight. */
  lemma SettledFit(s: Checkpoint, message: string, settled: Checkpoint)
    requires Fit(s)
    requires settled.context == s.context + Settling(s, message)
    requires settled.pendingTools == [] && settled.step.None? && settled.pendingApproval.None?
    requires settled.delivered == s.delivered
    ensures Fit(settled)
  {
    hide Matched, Guidance.Known;
    SettlingBalances(s, message);
    SettlingGrows(s, message);
    Guidance.GrowsKeeps(s.delivered, s.context, s.delivered, s.context + Settling(s, message));
    assert Ids([]) == {};
  }

  /** No turn runs, and nothing of one is left behind. */
  predicate AtRest(s: Checkpoint) {
    s.execution.None? && s.step.None? && s.pendingTools == [] && s.pendingApproval.None?
  }

  lemma RestIsMatched(s: Checkpoint)
    requires Fit(s) && AtRest(s)
    ensures Matched(s.context, {})
  {
    assert Ids([]) == {};
  }

  lemma FinishKeeps(w: World, base: World, items: seq<Item>, owner: Option<string>, turn: string,
                    outcome: Outcome, reason: string, events: seq<Event>, env: Ending)
    requires Inv(w) && base.store == w.store && base.delta == w.delta + items
    requires base.state.sequence == w.state.sequence && base.state.stats == w.state.stats
    requires Fit(base.state) && base.state.pendingTools == [] && base.state.pendingApproval.None?
    ensures var r := TurnFinished(base, owner, turn, outcome, reason, events, env);
            r.Ok? ==>
              && Inv(r.value) && Pushes(w, r.value, items)
              && (base.state.step.None? ==> AtRest(r.value.state))
  {
    hide Fit, Ascending, Tally, Tallied, PromotedAll, Pushes;
    var r := TurnFinished(base, owner, turn, outcome, reason, events, env);
    if r.Ok? {
      var hooks := if base.turnEnd == Some(turn) then [] else env.hooks.value;
      var queue := if outcome.Completed? then base.state.queue
                   else PromotedAll(base.state.queue, owner.value, turn);
      var (state, record) := Finished(base.state.(queue := queue), outcome, env.clock).value;
      FitFrame(base.state, state);
      PersistKeeps(w, base.(state := state, turnEnd := Some(turn)), items,
                   events + EndEvents(base, turn, hooks) + [TurnEnded(turn, outcome, reason)],
                   Some(record), env.stored);
    }
  }

  lemma AbortKeeps(w: World, owner: Option<string>, turn: string, outcome: Outcome, reason: string,
                   events: seq<Event>, env: Ending)
    requires Inv(w)
    ensures var r := TurnAborted(w, owner, turn, outcome, reason, events, env);
            r.Ok? ==>
              && Inv(r.value) && Pushes(w, r.value, Settling(w.state, INTERRUPTED + reason))
              && AtRest(r.value.state) && Matched(r.value.state.context, {})
  {
    hide Fit, Ascending, Tally, TurnFinished, PendingFinished, CallItems, ErrorItems, Pushes;
    PendingFinishedIs(w, reason, env.observed);
    match PendingFinished(w, reason, env.observed)
    case Err(_) =>
    case Ok((finished, ended)) =>
      SettledFit(w.state, INTERRUPTED + reason, Settled(finished).state);
      FinishKeeps(w, Settled(finished), Settling(w.state, INTERRUPTED + reason), owner, turn, outcome,
                  reason, events + ended, env);
      var r := TurnAborted(w, owner, turn, outcome, reason, events, env);
      if r.Ok? { RestIsMatched(r.value.state); }
  }

  lemma RestartKeeps(w: World, owner: Option<string>, opening: Opening, resaved: bool, stored: bool)
    requires Inv(w) && QuietHooks(opening.hooks)
    ensures Inv(Loaded(w))
    ensures var r := Reopened(w, owner, opening, resaved, stored);
            r.Ok? ==> Inv(r.value) && Pushes(Loaded(w), r.value, RecoveryItems(w.store.checkpoint))
  {
    hide Fit, Ascending, Tally, Tallied, PromotedAll, CallItems, ErrorItems, Pushes, Accepted, Guidance.Staged,
         QuietHooks;
    var s := w.store.checkpoint;
    var r := Opened(s, owner, opening);
    if r.Ok? {
      OpenedFit(s, owner, opening);
      RecoveredDelta(s, owner, opening.clock);
      var ready := Loaded(w).(state := r.value.state, delta := r.value.delta);
      assert [] + RecoveryItems(s) == RecoveryItems(s);
      PushesNothing(Loaded(w));
      PersistKeeps(Loaded(w), ready, RecoveryItems(s), r.value.events, r.value.record, stored);
    }
  }

  /** A crash while an approval waits for its answer keeps the approval, its calls and their turn. */
  lemma CrashKeepsApproval(w: World, owner: Option<string>, op: Op)
    requires Inv(w) && op.Restart? && Enabled(w, owner, op)
    requires w.store.checkpoint.pendingApproval.Some?
             && !w.store.checkpoint.pendingApproval.value.decisionReceived
    ensures var s, next := w.store.checkpoint, Next(w, owner, op);
            && next.state.pendingApproval == s.pendingApproval && next.state.pendingTools == s.pendingTools
            && next.state.execution == s.execution && next.state.queue == s.queue
            && next.state.step.None? && next.delta == []
            && next.store.executions == w.store.executions && next.store.batches == w.store.batches
            && PushedItems(w, owner, op) == []
  {
    hide Balanced, Guidance.Known, Opened, Recovered, Ascending, Tally;
    var s := w.store.checkpoint;
    assert w.store.batches + [] == w.store.batches;
    assert w.store.executions + [] == w.store.executions;
    if Opened(s, owner, op.opening).Ok? {
      OpeningLeavesWaiting(s, owner, op.opening);
    }
  }

  lemma RecoveredDelta(s: Checkpoint, owner: Option<string>, clock: Option<int>)
    ensures Recovered(s, owner, clock).Ok? ==>
              var r := Recovered(s, owner, clock).value;
              && r.delta == RecoveryItems(s) && r.state.delivered == s.delivered
              && r.state.context == s.context + RecoveryItems(s)
              && (r.record.None? <==> !Interrupts(s))
              && (r.record.None? ==> r.state == s && RecoveryItems(s) == [])
              && r.state.sequence == s.sequence
              && Some(r.state.stats)
                 == if r.record.Some? then Tallied(s.stats, r.record.value) else Some(s.stats)
  {
    assert s.context + [] == s.context;
  }

  lemma RecoveredFit(s: Checkpoint, owner: Option<string>, clock: Option<int>)
    requires Fit(s) && Recovered(s, owner, clock).Ok?
    ensures Fit(Recovered(s, owner, clock).value.state)
  {
    hide Balanced, CallItems, ErrorItems, Guidance.Known, PromotedAll, Tallied;
    if Interrupts(s) {
      var settled := Recovered(s, owner, clock).value.state;
      if !Uncertain(s) {
        assert s.pendingTools == [];
        NothingSettles(s);
      }
      SettledFit(s, RESTARTED, settled);
    }
  }

  lemma NothingSettles(s: Checkpoint)
    requires s.pendingTools == []
    ensures Settling(s, RESTARTED) == []
  {
  }

  lemma OpenedFit(s: Checkpoint, owner: Option<string>, opening: Opening)
    requires Fit(s) && QuietHooks(opening.hooks) && Opened(s, owner, opening).Ok?
    ensures Fit(Opened(s, owner, opening).value.state)
  {
    hide Matched, OnceEach, Guidance.NoneEmpty, Guidance.Staged, Accepted, Recovered, QuietHooks;
    RecoveredFit(s, owner, opening.clock);
    var state := Recovered(s, owner, opening.clock).value.state;
    Guidance.StagedKnown(state.delivered, state.context, opening.hooks);
    StagedMatched(state.delivered, state.context, opening.hooks,
                  if state.step.None? then Ids(state.pendingTools) else {});
  }

  /** Preparing a request keeps the balance and the guidance, whatever its hooks rewrite. */
  lemma PrepareKeeps(w: World, changes: seq<Change>, events: seq<Event>, stored: bool)
    requires Inv(w) && Enabled(w, None, Prepare(changes, events, stored))
    ensures var next := Prepared(w, changes, events, stored);
            Inv(next) && Pushes(w, next, if Accepting(w, changes).None? then [] else PushedBy(changes))
  {
    hide Pushes, Ascending, Tally, Guidance.Known, Matched, AllSound, Drafted, PushedBy;
    var accepted := Accepting(w, changes);
    PushesNothing(w);
    if accepted.Some? {
      DraftKeeps(DraftOf(w.state), changes, Ids(w.state.pendingTools));
      DraftPushes(DraftOf(w.state), changes);
      assert [] + PushedBy(changes) == PushedBy(changes);
      PersistKeeps(w, Committed(w, accepted.value), PushedBy(changes), events, None, stored);
      TentativeKeeps(w, Committed(w, accepted.value), PushedBy(changes));
    }
  }

  lemma StepKeeps(w: World, id: string, stored: bool)
    requires Inv(w) && Enabled(w, None, Step(id, stored))
    ensures var next := Next(w, None, Step(id, stored)); Inv(next) && Pushes(w, next, [])
  {
    hide Matched, Pushes, Ascending, Tally, Guidance.Known;
    assert Ids([]) == {} && w.delta + [] == w.delta;
    PersistKeeps(w, Stepped(w, id), [], [], None, stored);
    TentativeKeeps(w, Stepped(w, id), []);
  }

  lemma ApprovalKeeps(w: World, approval: Approval, stored: bool)
    requires Inv(w) && w.state.step.None? && w.state.pendingTools != []
    ensures var next := Or(Persist(Approving(w, approval), [], None, stored), Approving(w, approval));
            Inv(next) && Pushes(w, next, [])
  {
    hide Balanced, Pushes, Ascending, Tally, Guidance.Known;
    BalancedFrame(w.state, Approving(w, approval).state);
    assert w.delta + [] == w.delta;
    PersistKeeps(w, Approving(w, approval), [], [], None, stored);
    TentativeKeeps(w, Approving(w, approval), []);
  }

  lemma EndKeeps(w: World, owner: Option<string>, op: Op)
    requires Inv(w) && Enabled(w, owner, op) && (op.Abort? || op.Complete?)
    ensures var next := Next(w, owner, op); Inv(next) && Pushes(w, next, PushedItems(w, owner, op))
  {
    hide Inv, Fit, Pushes, TurnAborted, TurnFinished, Settling;
    InvIsFit(w);
    match op
    case Abort(outcome, reason, events, env) =>
      AbortKeeps(w, owner, TurnOf(w), outcome, reason, events, env);
      MarkKeeps(w, ReachesTurnEnd(w, owner, reason, env.observed));
    case Complete(events, env) =>
      assert w.delta + [] == w.delta;
      FinishKeeps(w, w, [], owner, TurnOf(w), Completed, "", events, env);
      MarkKeeps(w, owner.Some?);
  }

  lemma InvIsFit(w: World)
    requires Inv(w)
    ensures Fit(w.state)
    ensures w.state.pendingApproval.Some? ==> w.state.step.None? && w.state.pendingTools != []
  {
  }

  lemma MarkKeeps(w: World, reached: bool)
    requires Inv(w)
    ensures Inv(Marked(w, reached)) && Pushes(w, Marked(w, reached), [])
  {
    PushesNothing(w);
  }

  /** The operations of a model step and its approval. */
  predicate InModelStep(op: Op) {
    op.Prepare? || op.Step? || op.Stream? || op.Output? || op.Ask? || op.Decide?
  }

  lemma ModelStepKeeps(w: World, owner: Option<string>, op: Op)
    requires Inv(w) && Enabled(w, owner, op) && InModelStep(op)
    ensures var next := Next(w, owner, op); Inv(next) && Pushes(w, next, PushedItems(w, owner, op))
  {
    hide Inv, Fit, Pushes, Prepared, Persist;
    InvIsFit(w);
    match op
    case Prepare(changes, events, stored) => PrepareKeeps(w, changes, events, stored);
    case Step(id, stored) => StepKeeps(w, id, stored);
    case Stream(call, stored) => StreamKeeps(w, call, stored);
    case Output(items, calls, stored) => OutputKeeps(w, items, calls, stored);
    case Ask(approval, stored) => ApprovalKeeps(w, approval, stored);
    case Decide(stored) =>
      ApprovalKeeps(w, w.state.pendingApproval.value.(decisionReceived := true), stored);
  }

  /** Every operation and every crash keeps the invariant and pushes exactly what it should. */
  lemma NextKeeps(w: World, owner: Option<string>, op: Op)
    requires Inv(w)
    ensures Inv(Next(w, owner, op))
    ensures Pushes(if op.Restart? && Enabled(w, owner, op) then Loaded(w) else w, Next(w, owner, op),
                   PushedItems(w, owner, op))
  {
    hide Inv, Fit, Pushes, TurnBegun, InputStaged, QueueChanged, ToolStepDone, TurnAborted, TurnFinished,
         Reopened, Persist, Prepared, MessageItems, Settling, RecoveryItems, Loaded;
    InvIsFit(w);
    PushesNothing(w);
    PushesNothing(Loaded(w));
    if Enabled(w, owner, op) {
      match op
      case StartTurn(p) => StartKeeps(w, owner, p);
      case Stage(turn, replies, stored) => StageKeeps(w, owner, turn, replies, stored);
      case Admit(message, events, stored) => QueueKeeps(w, Pushed(w.state.queue, message), events, stored);
      case Edit(id, replacement, text, events, stored) =>
        if owner.Some? && Replaced(w.state.queue, owner.value, id, replacement, text).Some? {
          QueueKeeps(w, Replaced(w.state.queue, owner.value, id, replacement, text).value, events, stored);
        }
      case Tools(results, hooks, observed, stored) => ToolsKeep(w, results, hooks, observed, stored);
      case Abort(_, _, _, _) => EndKeeps(w, owner, op);
      case Complete(_, _) => EndKeeps(w, owner, op);
      case Restart(opening, resaved, stored) => RestartKeeps(w, owner, opening, resaved, stored);
      case _ => ModelStepKeeps(w, owner, op);
    }
  }

  lemma {:induction false} RunKeeps(w: World, owner: Option<string>, ops: seq<Op>)
    requires Inv(w)
    ensures Inv(Run(w, owner, ops))
    ensures w.store.batches <= Run(w, owner, ops).store.batches
    decreases |ops|
  {
    hide Inv, Next;
    if ops != [] {
      var before := Run(w, owner, ops[..|ops| - 1]);
      RunKeeps(w, owner, ops[..|ops| - 1]);
      NextKeeps(before, owner, ops[|ops| - 1]);
    }
  }
}
