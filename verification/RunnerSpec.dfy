/**
 The runner's operations as transactions on values: each either gives the whole new world or
 fails. The runner itself changes its state tentatively and undoes the change by hand.
 */
module RunnerSpec {
  import opened Checkpoint
  import opened DeliveryOnce
  import opened MessageQueue
  import opened Sequences
  import opened Wrappers

  // ---------- appending to the context ----------

  /** Pushes the accepted items to both the context and the unsaved transcript. */
  function Extended(w: World, items: seq<Item>): World {
    var kept := Kept(w.state.delivered, items);
    w.(
    state := w.state.(context := w.state.context + kept,
                      delivered := Accepted(w.state.delivered, items)),
    delta := w.delta + kept)
  }

  function CallItem(c: ToolCall): Item {
    Item(FunctionCall(c.callId, c.name, c.arguments), None)
  }

  function CallItems(calls: seq<ToolCall>): seq<Item> {
    seq(|calls|, i requires 0 <= i < |calls| => CallItem(calls[i]))
  }

  function OutputItem(r: ToolResult): Item {
    Item(FunctionOutput(r.callId, r.output, r.isError), None)
  }

  /** Each result's output followed by the input it adds. */
  function Offered(results: seq<ToolResult>): seq<Item>
    decreases |results|
  {
    if results == [] then []
    else
      var last := results[|results| - 1];
      Offered(results[..|results| - 1]) + ([OutputItem(last)] + last.additional)
  }

  // ---------- tool results ----------

  function Errors(results: seq<ToolResult>): (n: nat)
    ensures n <= |results|
    decreases |results|
  {
    if results == [] then 0
    else Errors(results[..|results| - 1]) + if results[|results| - 1].isError then 1 else 0
  }

  /** The summed usage of a batch; None when it overflows. */
  function BatchUsage(results: seq<ToolResult>): Option<Option<Usage>>
    decreases |results|
  {
    if results == [] then Some(None)
    else
      var last := results[|results| - 1];
      match BatchUsage(results[..|results| - 1])
      case None => None
      case Some(total) =>
        if last.usage.None? then Some(total)
        else
          match SumUsage(if total.Some? then total.value else NO_USAGE, last.usage.value)
          case None => None
          case Some(sum) => Some(Some(sum))
  }

  /** Charges each paid result; `observed(i)` is whether the usage observer accepted result i. */
  function UsageCharged(s: Checkpoint, results: seq<ToolResult>, observed: nat -> bool)
    : Result<Checkpoint, Failure>
    decreases |results|
  {
    if results == [] then Ok(s)
    else
      var n := |results| - 1;
      match UsageCharged(s, results[..n], observed)
      case Err(e) => Err(e)
      case Ok(before) =>
        if results[n].usage.None? then Ok(before)
        else UsageRecorded(before, results[n].usage.value, observed(n))
  }

  function Charged(s: Checkpoint, results: seq<ToolResult>, observed: nat -> bool)
    : Result<Checkpoint, Failure>
  {
    match ToolsRecorded(s, |results|, Errors(results))
    case Err(e) => Err(e)
    case Ok(counted) => UsageCharged(counted, results, observed)
  }

  function Unfinished(results: seq<ToolResult>): ToolCall -> bool {
    (c: ToolCall) => forall i :: 0 <= i < |results| ==> results[i].callId != c.callId
  }

  function ToolsApplied(w: World, results: seq<ToolResult>, observed: nat -> bool)
    : Result<World, Failure>
  {
    match Charged(w.state, results, observed)
    case Err(e) => Err(e)
    case Ok(s) =>
      var rest := Filter(Unfinished(results), s.pendingTools);
      Ok(Extended(w.(state := s.(pendingTools := rest)), Offered(results)))
  }

  function HookEvents(hooks: seq<string>): seq<Event> {
    seq(|hooks|, i requires 0 <= i < |hooks| => HookEvent(hooks[i]))
  }

  function ToolEvents(results: seq<ToolResult>): seq<Event> {
    seq(|results|, i requires 0 <= i < |results| =>
      ToolEnded(results[i].callId, results[i].output, results[i].isError))
  }

  /** A saved batch of tool results. */
  function ToolsSaved(w: World, results: seq<ToolResult>, hooks: seq<string>,
                      observed: nat -> bool, stored: bool): Result<World, Failure>
  {
    if results == [] && hooks == [] then Ok(w)
    else
      match BatchUsage(results)
      case None => Err(Overflow)
      case Some(paid) =>
        match ToolsApplied(w, results, observed)
        case Err(e) => Err(e)
        case Ok(applied) =>
          var events := HookEvents(hooks) + ToolEvents(results)
                        + if paid.Some? then [UsageTotal(applied.state.totalUsage)] else [];
          Persist(applied, events, None, stored)
  }

  /** A completed tool step also ends the approval that it waited for. */
  function ToolStepDone(w: World, results: seq<ToolResult>, hooks: seq<string>,
                        observed: nat -> bool, stored: bool): Result<World, Failure>
  {
    ToolsSaved(w.(state := w.state.(pendingApproval := None)), results, hooks, observed, stored)
  }

  // ---------- starting and ending turns ----------

  /** A turn start: the message, the input its hooks submitted, and the outcomes it meets. */
  datatype Start = Start(
    id: string, turn: string, author: Author, text: string, title: Option<string>,
    submitted: seq<Item>, hooks: seq<string>, clock: Option<int>, stored: bool)

  function MessageItem(text: string): Item {
    Item(UserText(text), None)
  }

  function Begun(s: Checkpoint, submission: string, turn: string, author: Author,
                 clock: Option<int>): Result<Checkpoint, Failure>
  {
    if s.execution.Some? then Err(ActiveExecution)
    else if clock.None? then Err(Clock)
    else
      Ok(s.(execution := Some(
              Execution(submission, author, turn, clock.value, 0, 0, 0, NO_USAGE, false))))
  }

  /** The submitted input and then the message enter; the first message may name the session. */
  function InputSubmitted(w: World, p: Start): World {
    var s := w.state;
    w.(
    state := s.(
      context := s.context + Kept(s.delivered, p.submitted) + [MessageItem(p.text)],
      delivered := Accepted(s.delivered, p.submitted),
      firstUserMessage := if s.firstUserMessage.None? then p.title else s.firstUserMessage),
    delta := w.delta + [MessageItem(p.text)])
  }

  /** The tentative world of a turn start, before it is saved. */
  function Started(w: World, i: nat, begun: Checkpoint, p: Start): World
    requires i < |w.state.queue|
  {
    InputSubmitted(w.(state := begun.(queue := Without(w.state.queue, i))), p)
  }

  function StartEvents(w: World, p: Start): seq<Event> {
    [TurnStarted(p.turn)] + HookEvents(p.hooks)
    + [Message(p.id, MessageTarget(w.state.sequence + 1, 1 + |w.delta|))]
  }

  function TurnBegun(w: World, owner: Option<string>, p: Start): Result<World, Failure> {
    if w.state.sequence >= U64_MAX then Err(Overflow)
    else if owner.None? then Err(NoHandler)
    else
      match IndexWhere(Startable(owner.value, p.id), w.state.queue)
      case None => Err(NotQueued)
      case Some(i) =>
        match Begun(w.state, p.id, p.turn, p.author, p.clock)
        case Err(e) => Err(e)
        case Ok(begun) => Persist(Started(w, i, begun, p), StartEvents(w, p), None, p.stored)
  }

  /** What ending a turn meets: the turn-end hooks (None when one fails), the clock, the store. */
  datatype Ending = Ending(
    hooks: Option<seq<string>>, clock: Option<int>, observed: nat -> bool, stored: bool)

  function Interrupted(calls: seq<ToolCall>, message: string): seq<ToolResult> {
    seq(|calls|, i requires 0 <= i < |calls| =>
      ToolResult(calls[i].callId, calls[i].name, message, true, None, []))
  }

  const INTERRUPTED := "execution interrupted; result unknown: "

  /** Gives every pending call an error output; the calls enter first if a model step is active. */
  function PendingFinished(w: World, reason: string, observed: nat -> bool)
    : Result<(World, seq<Event>), Failure>
  {
    var calls, taken := w.state.pendingTools, w.(state := w.state.(pendingTools := []));
    var entered := if w.state.step.Some? then Extended(taken, CallItems(calls)) else taken;
    var results := Interrupted(calls, INTERRUPTED + reason);
    if results == [] then Ok((entered, []))
    else
      match ToolsApplied(entered, results, observed)
      case Err(e) => Err(e)
      case Ok(applied) => Ok((applied, ToolEvents(results)))
  }

  function EndEvents(w: World, turn: string, hooks: seq<string>): seq<Event> {
    if w.turnEnd == Some(turn) then [] else HookEvents(hooks)
  }

  function TurnFinished(w: World, owner: Option<string>, turn: string, outcome: Outcome,
                        reason: string, events: seq<Event>, env: Ending): Result<World, Failure>
  {
    if owner.None? then Err(NoHandler)
    else if w.turnEnd != Some(turn) && env.hooks.None? then Err(Hook)
    else
      var hooks := if w.turnEnd == Some(turn) then [] else env.hooks.value;
      var queue := if outcome.Completed? then w.state.queue
                   else PromotedAll(w.state.queue, owner.value, turn);
      match Finished(w.state.(queue := queue), outcome, env.clock)
      case Err(e) => Err(e)
      case Ok((state, record)) =>
        Persist(w.(state := state, turnEnd := Some(turn)),
                events + EndEvents(w, turn, hooks) + [TurnEnded(turn, outcome, reason)],
                Some(record), env.stored)
  }

  /** The world in which an abort finishes its turn. */
  function Settled(w: World): World {
    w.(state := w.state.(step := None, pendingApproval := None))
  }

  function TurnAborted(w: World, owner: Option<string>, turn: string, outcome: Outcome,
                       reason: string, events: seq<Event>, env: Ending): Result<World, Failure>
  {
    match PendingFinished(w, reason, env.observed)
    case Err(e) => Err(e)
    case Ok((finished, ended)) =>
      TurnFinished(Settled(finished), owner, turn, outcome, reason, events + ended, env)
  }

  /** Whether an abort gets as far as the turn-end hooks, which then never run again. */
  predicate ReachesTurnEnd(w: World, owner: Option<string>, reason: string, observed: nat -> bool) {
    owner.Some? && PendingFinished(w, reason, observed).Ok?
  }

  // ---------- staged messages ----------

  /** What the submit hooks decide about one staged message. */
  datatype Reply = Submit(input: seq<Item>, hooks: seq<string>)
                 | TurnAway(reason: string, hooks: seq<string>)
                 | Fail

  /** Staged input: the context and receipts hooks see, and what the save will publish. */
  datatype Staging = Staging(
    context: seq<Item>, delivered: Receipts, transcript: seq<Item>, events: seq<Event>,
    origin: Option<(Author, string)>)

  function StagedOne(w: World, st: Staging, m: QueuedMessage, reply: Reply): Option<Staging> {
    match reply
    case Fail => None
    case TurnAway(reason, hooks) =>
      Some(st.(events := st.events + HookEvents(hooks) + [Rejected(m.id, reason)]))
    case Submit(input, hooks) =>
      var target := MessageTarget(w.state.sequence + 1, 1 + (|w.delta| + |st.transcript|));
      Some(Staging(
             st.context + Kept(st.delivered, input) + [MessageItem(m.text)],
             Accepted(st.delivered, input),
             st.transcript + [MessageItem(m.text)],
             st.events + HookEvents(hooks) + [Message(m.id, target)],
             if st.origin.None? && w.state.execution.Some? && w.state.execution.value.idle
             then Some((m.author, m.id)) else st.origin))
  }

  function StagedAll(w: World, messages: seq<QueuedMessage>, replies: nat -> Reply): Option<Staging>
    decreases |messages|
  {
    if messages == [] then Some(Staging(w.state.context, w.state.delivered, [], [], None))
    else
      var n := |messages| - 1;
      match StagedAll(w, messages[..n], replies)
      case None => None
      case Some(st) => StagedOne(w, st, messages[n], replies(n))
  }

  /** The execution once a message was staged into it: an idle one becomes a normal turn. */
  function Woken(e: Option<Execution>, st: Staging): Option<Execution> {
    if e.None? || !e.value.idle || st.transcript == [] then e
    else
      Some(e.value.(idle := false,
                    author := if st.origin.Some? then st.origin.value.0 else e.value.author))
  }

  function InputStaged(w: World, owner: Option<string>, turn: string, replies: nat -> Reply,
                       stored: bool): Result<World, Failure>
  {
    if owner.None? then Err(NoHandler)
    else
      var messages := Filter(Leaving(owner.value, turn), w.state.queue);
      if messages == [] then Ok(w)
      else if w.state.sequence >= U64_MAX then Err(Overflow)
      else
        match StagedAll(w, messages, replies)
        case None => Err(Hook)
        case Some(st) =>
          var execution := Woken(w.state.execution, st);
          var started := if execution != w.state.execution && st.origin.Some?
                         then [TurnStarted(turn)] else [];
          Persist(w.(
                  state := w.state.(
                    queue := Filter(Staying(owner.value, turn), w.state.queue),
                    context := st.context, delivered := st.delivered, execution := execution),
                  delta := w.delta + st.transcript),
                  started + st.events, None, stored)
  }

  // ---------- queue changes ----------

  function QueueChanged(w: World, queue: seq<QueuedMessage>, events: seq<Event>, stored: bool)
    : Result<World, Failure>
  {
    Persist(w.(state := w.state.(queue := queue)), events, None, stored)
  }
}
