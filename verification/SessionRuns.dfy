/**
 Whole sessions: the runner beside the log of what was pushed and the conservation ledger of its
 queue. Both are history; every run keeps them equal to what the session really holds.
 */
module SessionRuns {
  import opened Balance
  import opened Checkpoint
  import opened DeliveryOnce
  import Guidance = OnceOnly
  import opened GuidanceRuns
  import opened MessageQueue
  import Queue = QueueRuns
  import opened RunnerRuns
  import opened RunnerSpec
  import opened Sequences
  import opened Startup
  import opened Wrappers

  /**
   Everything pushed and saved, then everything pushed since; the guidance identities that entered
   the live context, and those that entered a saved one. A crash forgets what is not saved.
   */
  datatype History = History(
    saved: seq<Item>, unsaved: seq<Item>, entered: seq<Identity>, savedEntered: seq<Identity>)

  datatype Session = Session(world: World, ledger: Queue.Ledger, history: History)

  /** The log after an operation: what it pushes is appended, and moves when a save succeeds. */
  ghost function Logged(h: History, w: World, owner: Option<string>, op: Op): History {
    var crashed := op.Restart? && Enabled(w, owner, op);
    var pushed := (if crashed then [] else h.unsaved) + PushedItems(w, owner, op);
    var entered := (if crashed then h.savedEntered else h.entered) + Entered(w, owner, op);
    if Next(w, owner, op).state.sequence > w.state.sequence then
      History(h.saved + pushed, [], entered, entered)
    else History(h.saved, pushed, entered, h.savedEntered)
  }

  /** What an operation does to the queue, as a step of the conservation argument. */
  ghost function Queueing(w: World, owner: Option<string>, op: Op): Option<Queue.Step> {
    if owner.None? || !Enabled(w, owner, op) then None
    else
      match op
      case StartTurn(p) => Some(Queue.StartTurn(owner.value, p.id, TurnBegun(w, owner, p).Ok?))
      case Stage(turn, replies, stored) =>
        Some(Queue.StageModel(owner.value, turn, InputStaged(w, owner, turn, replies, stored).Ok?))
      case Admit(m, events, stored) =>
        Some(Queue.Admit(owner.value, m.id, m.boundary, m.author, m.text, MessageAdmitted(w, m, events, stored).Ok?))
      case Edit(id, replacement, text, events, stored) =>
        Some(Queue.Edit(owner.value, id, replacement, text,
                        MessageEdited(w, owner, id, replacement, text, events, stored).Ok?))
      case Abort(outcome, reason, events, env) =>
        Some(Queue.Abort(owner.value, TurnOf(w),
                         TurnAborted(w, owner, TurnOf(w), outcome, reason, events, env).Ok?))
      case Restart(opening, resaved, stored) =>
        if Interrupts(w.store.checkpoint) && Reopened(w, owner, opening, resaved, stored).Ok?
        then Some(Queue.Abort(owner.value, TurnOf(Loaded(w)), true)) else None
      case _ => None
  }

  /** An admission gets the next ticket. */
  function Ticketed(l: Queue.Ledger, op: Op): Op {
    if op.Admit? then op.(message := op.message.(ticket := l.next)) else op
  }

  /** One operation; a submission that has a receipt already is answered and changes nothing. */
  ghost function Step(s: Session, owner: Option<string>, op: Op): Session {
    if op.Admit? && op.message.id in s.ledger.receipts then s
    else
      var ticketed := Ticketed(s.ledger, op);
      var queueing := Queueing(s.world, owner, ticketed);
      Session(Next(s.world, owner, ticketed),
              if queueing.None? then s.ledger else Queue.Next(s.ledger, queueing.value),
              Logged(s.history, s.world, owner, ticketed))
  }

  ghost function Steps(s: Session, owner: Option<string>, ops: seq<Op>): Session
    decreases |ops|
  {
    if ops == [] then s else Step(Steps(s, owner, ops[..|ops| - 1]), owner, ops[|ops| - 1])
  }

  /** The log is what the transcript and the delta hold, and the ledger is about the real queue. */
  ghost predicate Consistent(s: Session) {
    && Inv(s.world)
    && Flat(s.world.store.batches) == s.history.saved
    && s.world.delta == s.history.unsaved
    && Guidance.Recorded(s.world.state.delivered, s.history.entered)
    && Guidance.Recorded(s.world.store.checkpoint.delivered, s.history.savedEntered)
    && Queue.Inv(s.ledger)
    && s.ledger.queue == s.world.state.queue
  }

  // ---------- the queue ----------

  lemma {:induction false} NothingLeaves(items: seq<QueuedMessage>, owner: string, turn: string)
    ensures Filter(Leaving(owner, turn), items) == [] ==> Filter(Staying(owner, turn), items) == items
    decreases |items|
  {
    if items != [] {
      NothingLeaves(items[..|items| - 1], owner, turn);
      assert items == items[..|items| - 1] + [items[|items| - 1]];
    }
  }

  lemma FinishedKeepsQueue()
    ensures forall s, outcome, clock :: Finished(s, outcome, clock).Ok? ==>
                                          Finished(s, outcome, clock).value.0.queue == s.queue
  {
  }

  /** Starting, staging and aborting move messages as the conservation argument says. */
  lemma TurnsFollow(w: World, owner: string, op: Op, l: Queue.Ledger)
    requires op.StartTurn? || op.Stage? || op.Abort?
    requires Enabled(w, Some(owner), op) && l.queue == w.state.queue
    ensures Next(w, Some(owner), op).state.queue
            == Queue.Next(l, Queueing(w, Some(owner), op).value).queue
  {
    hide Enabled, Filter, Finished, StagedAll, Kept, Accepted, PendingFinished, PromotedAll, InsertAt,
         Without;
    FinishedKeepsQueue();
    match op
    case StartTurn(p) =>
      var at := IndexWhere(Startable(owner, p.id), w.state.queue);
      if at.Some? { InsertUndoesRemove(w.state.queue, at.value); }
    case Stage(turn, replies, stored) => NothingLeaves(w.state.queue, owner, turn);
    case Abort(outcome, reason, events, env) =>
      AbortsDoNotComplete(w, owner, op);
      PendingFinishedIs(w, reason, env.observed);
  }

  lemma AbortsDoNotComplete(w: World, owner: string, op: Op)
    requires op.Abort? && Enabled(w, Some(owner), op)
    ensures !op.outcome.Completed?
  {
  }

  /** A restart that settles an execution promotes its turn's messages, and no other touches any. */
  lemma RestartFollows(w: World, owner: Option<string>, op: Op, l: Queue.Ledger)
    requires op.Restart? && Enabled(w, owner, op)
    requires l.queue == w.state.queue == w.store.checkpoint.queue
    ensures Next(w, owner, op).state.queue
            == match Queueing(w, owner, op)
               case None => l.queue
               case Some(step) => Queue.Next(l, step).queue
  {
    hide Enabled, Finished, Accepted, Guidance.Staged, PromotedAll, CallItems, ErrorItems;
    FinishedKeepsQueue();
  }

  lemma QueueFollows(w: World, owner: Option<string>, op: Op, l: Queue.Ledger)
    requires Inv(w) && l.queue == w.state.queue
    requires op.Admit? ==> op.message.id !in l.receipts && op.message.ticket == l.next
    ensures Next(w, owner, op).state.queue
            == match Queueing(w, owner, op)
               case None => l.queue
               case Some(step) => Queue.Next(l, step).queue
  {
    hide Fit, TurnBegun, InputStaged, ToolStepDone, TurnAborted, Reopened, Pushed, Replaced, Ascending, Tally;
    if Enabled(w, owner, op) {
      match op
      case Restart(_, _, _) => RestartFollows(w, owner, op, l);
      case StartTurn(p) =>
        if owner.Some? { TurnsFollow(w, owner.value, op, l); } else { NoOwnerNoTurn(w, op); }
      case Stage(_, _, _) =>
        if owner.Some? { TurnsFollow(w, owner.value, op, l); } else { NoOwnerNoTurn(w, op); }
      case Abort(_, _, _, _) =>
        if owner.Some? { TurnsFollow(w, owner.value, op, l); } else { NoOwnerNoTurn(w, op); }
      case Tools(results, hooks, observed, stored) => ToolsKeepQueue(w, results, hooks, observed, stored);
      case Complete(_, _) => FinishedKeepsQueue();
      case _ =>
    }
  }

  lemma NoOwnerNoTurn(w: World, op: Op)
    requires op.StartTurn? || op.Stage? || op.Abort?
    ensures Next(w, None, op).state.queue == w.state.queue
  {
  }

  lemma ToolsKeepQueue(w: World, results: seq<ToolResult>, hooks: seq<string>, observed: nat -> bool,
                       stored: bool)
    ensures ToolStepDone(w, results, hooks, observed, stored).Ok? ==>
              ToolStepDone(w, results, hooks, observed, stored).value.state.queue == w.state.queue
  {
    hide Charged, Kept, Accepted, Offered, Filter, BatchUsage;
    ChargeFrame(w.state.(pendingApproval := None), results, observed);
  }

  /**
   A message that a turn start or a staging takes off the queue is pushed to the transcript in the
   same save that marks it delivered, unless a hook turned it away.
   */
  lemma DeliveredIsPushed(s: Session, owner: string, op: Op)
    requires Consistent(s) && Enabled(s.world, Some(owner), op) && (op.StartTurn? || op.Stage?)
    requires Queueing(s.world, Some(owner), op).value.saved
    ensures var taken := Taken(s.world, owner, op);
            && Step(s, Some(owner), op).ledger.delivered == s.ledger.delivered + Queue.Tickets(taken)
            && PushedItems(s.world, Some(owner), op)
               == MessageItems(if op.Stage? then Through(taken, op.replies) else taken)
  {
    hide Inv, Queue.Inv, Enabled, Filter, StagedAll, Through, Persist;
    if op.StartTurn? {
      var i := IndexWhere(Startable(owner, op.start.id), s.world.state.queue).value;
      assert Queue.Tickets([s.world.state.queue[i]]) == [s.world.state.queue[i].ticket];
    }
  }

  // ---------- every run ----------

  lemma StepKeeps(s: Session, owner: Option<string>, op: Op)
    requires Consistent(s)
    ensures Consistent(Step(s, owner, op))
  {
    hide Inv, Queue.Inv, Next, Queue.Next, Queueing, PushedItems, Entered, Enabled, Flat, Logged,
         Guidance.Recorded;
    if !(op.Admit? && op.message.id in s.ledger.receipts) {
      var ticketed := Ticketed(s.ledger, op);
      NextKeeps(s.world, owner, ticketed);
      LogFollows(s, owner, ticketed);
      GuidanceFollows(s, owner, ticketed);
      QueueFollows(s.world, owner, ticketed, s.ledger);
      var queueing := Queueing(s.world, owner, ticketed);
      if queueing.Some? {
        Queue.NextKeeps(s.ledger, queueing.value);
      }
    }
  }

  lemma LogFollows(s: Session, owner: Option<string>, op: Op)
    requires Consistent(s)
    ensures var next, h := Next(s.world, owner, op), Logged(s.history, s.world, owner, op);
            Flat(next.store.batches) == h.saved && next.delta == h.unsaved
  {
    hide Queue.Inv, Next, PushedItems, Entered, Enabled, Flat, Fit, Ascending, Tally, Guidance.Recorded;
    NextKeeps(s.world, owner, op);
    assert [] + PushedItems(s.world, owner, op) == PushedItems(s.world, owner, op);
  }

  /** The history of entered guidance stays that of the live and of the stored receipts. */
  lemma GuidanceFollows(s: Session, owner: Option<string>, op: Op)
    requires Consistent(s)
    ensures var next, h := Next(s.world, owner, op), Logged(s.history, s.world, owner, op);
            && Guidance.Recorded(next.state.delivered, h.entered)
            && Guidance.Recorded(next.store.checkpoint.delivered, h.savedEntered)
  {
    hide Queue.Inv, Next, PushedItems, Entered, Enabled, Flat, Fit, Ascending, Tally,
         Guidance.Recorded, Guidance.Enters;
    NextKeeps(s.world, owner, op);
    NextEnters(s.world, owner, op);
    var crashed := op.Restart? && Enabled(s.world, owner, op);
    Guidance.EntersRecords(From(s.world, owner, op).delivered, Next(s.world, owner, op).state.delivered,
                           Entered(s.world, owner, op),
                           if crashed then s.history.savedEntered else s.history.entered);
  }

  /** A session that was just created and saved. */
  function NewSession(): Session {
    var state := Checkpoint(0, [], map[], NO_USAGE, None, [], None, None,
                            Stats(0, 0, 0, 0, 0, 0, 0, NO_USAGE), [], None);
    Session(World(state, [], None, Store(state, [], [], [])), Queue.Ledger([], 0, [], {}),
            History([], [], [], []))
  }

  lemma NewSessionIsConsistent()
    ensures Consistent(NewSession())
  {
    assert Matched([], Ids([])) by {
      assert Ids([]) == {};
    }
  }

  lemma {:induction false} StepsKeep(s: Session, owner: Option<string>, ops: seq<Op>)
    requires Consistent(s)
    ensures Consistent(Steps(s, owner, ops))
    decreases |ops|
  {
    hide Consistent, Step;
    if ops != [] {
      StepsKeep(s, owner, ops[..|ops| - 1]);
      StepKeeps(Steps(s, owner, ops[..|ops| - 1]), owner, ops[|ops| - 1]);
    }
  }

  /**
   Over every run of turns, messages, rewrites, tools, model steps, aborts, failed saves and crashes:
   the saved batches and then the unsaved delta are exactly the log of accepted pushes, each once and
   in order; the open calls are exactly the pending tools; each guidance identity entered at most
   once, the receipts are exactly those that entered, and the context holds none twice and no other;
   every admitted message is queued, in order and under its own identity, or was delivered once; and
   the statistics are the sum of the records.
   */
  lemma Reachable(owner: Option<string>, ops: seq<Op>)
    ensures var s := Steps(NewSession(), owner, ops);
            var w := s.world;
            && Journal(w) == s.history.saved + s.history.unsaved
            && Flat(w.store.batches) == s.history.saved
            && (w.state.step.None? ==> Matched(w.state.context, Ids(w.state.pendingTools)))
            && (w.state.step.Some? ==> Matched(w.state.context, {}))
            && OnceEach(w.state.context)
            && (forall id :: Has(w.state.context, id) ==> id in s.history.entered)
            && Guidance.Unrepeated(s.history.entered)
            && (forall id :: Contains(w.state.delivered, id) <==> id in s.history.entered)
            && s.ledger.queue == w.state.queue && Queue.Inv(s.ledger)
            && Queue.UniqueIds(w.state.queue) && |w.state.queue| <= MAX_QUEUED_MESSAGES
            && Tally(w.store.executions) == Some(w.state.stats)
  {
    hide Steps, Flat, Tally, Matched;
    NewSessionIsConsistent();
    StepsKeep(NewSession(), owner, ops);
  }

  // ---------- runs without preparation ----------

  /** The live and the stored receipts are exactly the identities of their contexts. */
  ghost predicate Exact(w: World) {
    && Guidance.Tracks(w.state.delivered, w.state.context)
    && Guidance.Tracks(w.store.checkpoint.delivered, w.store.checkpoint.context)
  }

  lemma StepStaysExact(s: Session, owner: Option<string>, op: Op)
    requires Consistent(s) && Exact(s.world) && !op.Prepare?
    ensures Exact(Step(s, owner, op).world)
  {
    hide Queue.Inv, Next, PushedItems, Entered, Enabled, Flat, Fit, Ascending, Tally,
         Guidance.Recorded, Guidance.Tracks, Guidance.Grows;
    var ticketed := Ticketed(s.ledger, op);
    var from, next := From(s.world, owner, ticketed), Next(s.world, owner, ticketed);
    NextKeeps(s.world, owner, ticketed);
    NextExtends(s.world, owner, ticketed);
    Guidance.GrowsKeeps(from.delivered, from.context, next.state.delivered, next.state.context);
  }

  /** As long as no preparation rewrites the context, it holds every identity with a receipt. */
  lemma {:induction false} GrowingContexts(owner: Option<string>, ops: seq<Op>)
    requires forall i :: 0 <= i < |ops| ==> !ops[i].Prepare?
    ensures Exact(Steps(NewSession(), owner, ops).world)
    decreases |ops|
  {
    hide Step, Consistent;
    NewSessionIsConsistent();
    if ops != [] {
      var front := ops[..|ops| - 1];
      GrowingContexts(owner, front);
      StepsKeep(NewSession(), owner, front);
      StepStaysExact(Steps(NewSession(), owner, front), owner, ops[|ops| - 1]);
    }
  }
}
