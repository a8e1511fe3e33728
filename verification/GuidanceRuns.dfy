/** What each operation of the runner enters into the context, identity by identity. */
module GuidanceRuns {
  import opened Balance
  import opened Checkpoint
  import opened DeliveryOnce
  import Guidance = OnceOnly
  import opened MessageQueue
  import opened Preparation
  import opened RunnerRuns
  import opened RunnerSpec
  import opened Sequences
  import opened Startup
  import opened Wrappers

  /** The context only grows, and the receipts with it. */
  ghost predicate Extends(s: Checkpoint, next: Checkpoint) {
    Guidance.Grows(s.delivered, s.context, next.delivered, next.context)
  }

  /** The state that an operation starts from: a restart reads the stored one. */
  ghost function From(w: World, owner: Option<string>, op: Op): Checkpoint {
    if op.Restart? && Enabled(w, owner, op) then w.store.checkpoint else w.state
  }

  function Added(before: seq<Item>, after: seq<Item>): seq<Item> {
    if |before| <= |after| then after[|before|..] else []
  }

  /** The identities that an operation enters, in order. */
  ghost function Entered(w: World, owner: Option<string>, op: Op): seq<Identity> {
    if op.Prepare? then
      if !Enabled(w, owner, op) || Accepting(w, op.changes).None? then []
      else Accepting(w, op.changes).value.entered
    else Guidance.Identities(Added(From(w, owner, op).context, Next(w, owner, op).state.context))
  }

  lemma SameContext(s: Checkpoint, next: Checkpoint)
    requires next.context == s.context && next.delivered == s.delivered
    ensures Extends(s, next)
  {
    Guidance.GrowsNothing(s.delivered, s.context);
  }

  lemma StartExtends(w: World, owner: Option<string>, p: Start)
    requires TurnBegun(w, owner, p).Ok?
    ensures Extends(w.state, TurnBegun(w, owner, p).value.state)
  {
    hide Guidance.Grows, Accepted, Kept;
    MessageGrows(w.state.delivered, w.state.context, p.submitted, p.text);
  }

  lemma {:induction false} StagingExtends(w: World, messages: seq<QueuedMessage>, replies: nat -> Reply)
    requires StagedAll(w, messages, replies).Some?
    ensures var st := StagedAll(w, messages, replies).value;
            Guidance.Grows(w.state.delivered, w.state.context, st.delivered, st.context)
    decreases |messages|
  {
    hide Guidance.Grows, Accepted, Kept;
    if messages == [] {
      Guidance.GrowsNothing(w.state.delivered, w.state.context);
    } else {
      var n := |messages| - 1;
      StagingExtends(w, messages[..n], replies);
      var before, after := StagedAll(w, messages[..n], replies).value, StagedAll(w, messages, replies).value;
      if replies(n).Submit? {
        MessageGrows(before.delivered, before.context, replies(n).input, messages[n].text);
        Guidance.GrowsTwice(w.state.delivered, w.state.context, before.delivered, before.context,
                            after.delivered, after.context);
      }
    }
  }

  lemma StageExtends(w: World, owner: Option<string>, turn: string, replies: nat -> Reply, stored: bool)
    requires InputStaged(w, owner, turn, replies, stored).Ok?
    ensures Extends(w.state, InputStaged(w, owner, turn, replies, stored).value.state)
  {
    hide Guidance.Grows, StagedAll, Filter;
    SameContext(w.state, w.state);
    var messages := Filter(Leaving(owner.value, turn), w.state.queue);
    if messages != [] {
      StagingExtends(w, messages, replies);
    }
  }

  lemma ToolsExtend(w: World, results: seq<ToolResult>, hooks: seq<string>, observed: nat -> bool,
                    stored: bool)
    requires ToolStepDone(w, results, hooks, observed, stored).Ok?
    ensures Extends(w.state, ToolStepDone(w, results, hooks, observed, stored).value.state)
  {
    hide Guidance.Grows, Accepted, Kept, Charged, BatchUsage, Filter;
    var taken := w.(state := w.state.(pendingApproval := None));
    SameContext(w.state, taken.state);
    ChargeFrame(taken.state, results, observed);
    Guidance.AcceptGrows(w.state.delivered, w.state.context, Offered(results));
  }

  lemma AbortExtends(w: World, owner: Option<string>, turn: string, outcome: Outcome, reason: string,
                     events: seq<Event>, env: Ending)
    requires TurnAborted(w, owner, turn, outcome, reason, events, env).Ok?
    ensures Extends(w.state, TurnAborted(w, owner, turn, outcome, reason, events, env).value.state)
  {
    hide Guidance.Grows, PendingFinished, PromotedAll, CallItems, ErrorItems, Tallied;
    PendingFinishedIs(w, reason, env.observed);
    SettlingGrows(w.state, INTERRUPTED + reason);
  }

  lemma OpeningExtends(s: Checkpoint, owner: Option<string>, opening: Opening)
    requires Fit(s) && Opened(s, owner, opening).Ok?
    ensures Extends(s, Opened(s, owner, opening).value.state)
  {
    hide Guidance.Grows, Guidance.Staged, Accepted, Recovered, Balanced, CallItems, ErrorItems;
    var state := Recovered(s, owner, opening.clock).value.state;
    var end := Opened(s, owner, opening).value.state;
    RecoveredDelta(s, owner, opening.clock);
    RecoveredFit(s, owner, opening.clock);
    RecoveryIsPlain(s);
    Guidance.PlainGrows(s.delivered, s.context, RecoveryItems(s));
    Guidance.StagedGrows(state.delivered, state.context, opening.hooks);
    Guidance.GrowsTwice(s.delivered, s.context, state.delivered, state.context,
                        end.delivered, end.context);
  }

  lemma RecoveryIsPlain(s: Checkpoint)
    ensures forall i :: 0 <= i < |RecoveryItems(s)| ==> RecoveryItems(s)[i].receipt.None?
  {
  }

  lemma RestartExtends(w: World, owner: Option<string>, op: Op)
    requires Inv(w) && op.Restart? && Enabled(w, owner, op)
    ensures Extends(w.store.checkpoint, Next(w, owner, op).state)
  {
    hide Fit, Guidance.Grows, Opened, Inv;
    StoredIsFit(w);
    SameContext(w.store.checkpoint, w.store.checkpoint);
    if Opened(w.store.checkpoint, owner, op.opening).Ok? {
      OpeningExtends(w.store.checkpoint, owner, op.opening);
    }
  }

  lemma StoredIsFit(w: World)
    requires Inv(w)
    ensures Fit(w.store.checkpoint)
  {
  }

  lemma OutputExtends(w: World, owner: Option<string>, op: Op)
    requires op.Output? && Enabled(w, owner, op)
    ensures Extends(w.state, Next(w, owner, op).state)
  {
    hide Guidance.Grows, Accepted, Kept;
    Guidance.AcceptGrows(w.state.delivered, w.state.context, op.items);
  }

  /** Every operation but a preparation extends the context it starts from. */
  lemma NextExtends(w: World, owner: Option<string>, op: Op)
    requires Inv(w) && !op.Prepare?
    ensures Extends(From(w, owner, op), Next(w, owner, op).state)
  {
    hide Inv, Extends, TurnBegun, InputStaged, ToolStepDone, TurnAborted, Reopened, Settling;
    SameContext(w.state, w.state);
    if Enabled(w, owner, op) {
      match op
      case StartTurn(p) => if TurnBegun(w, owner, p).Ok? { StartExtends(w, owner, p); }
      case Stage(turn, replies, stored) =>
        if InputStaged(w, owner, turn, replies, stored).Ok? { StageExtends(w, owner, turn, replies, stored); }
      case Output(items, calls, stored) =>
        OutputExtends(w, owner, op);
      case Tools(results, hooks, observed, stored) =>
        if ToolStepDone(w, results, hooks, observed, stored).Ok? {
          ToolsExtend(w, results, hooks, observed, stored);
        }
      case Abort(outcome, reason, events, env) =>
        AbortedExtends(w, owner, op);
      case Restart(opening, resaved, stored) => RestartExtends(w, owner, op);
      case _ => KeepsContext(w, owner, op);
    }
  }

  lemma AbortedExtends(w: World, owner: Option<string>, op: Op)
    requires op.Abort? && Enabled(w, owner, op)
    ensures Extends(w.state, Next(w, owner, op).state)
  {
    hide Extends, TurnAborted;
    SameContext(w.state, w.state);
    if TurnAborted(w, owner, TurnOf(w), op.outcome, op.reason, op.events, op.env).Ok? {
      AbortExtends(w, owner, TurnOf(w), op.outcome, op.reason, op.events, op.env);
    }
  }

  /** The queue's operations, the completion and the rest of a model step leave the context alone. */
  lemma KeepsContext(w: World, owner: Option<string>, op: Op)
    requires Enabled(w, owner, op)
    requires op.Admit? || op.Edit? || op.Complete? || op.Step? || op.Stream? || op.Ask? || op.Decide?
    ensures Extends(w.state, Next(w, owner, op).state)
  {
    hide Extends, Tallied, Pushed, Replaced;
    SameContext(w.state, Next(w, owner, op).state);
  }

  /** Every operation enters each identity at most once, never one that has a receipt. */
  lemma NextEnters(w: World, owner: Option<string>, op: Op)
    requires Inv(w)
    ensures Guidance.Enters(From(w, owner, op).delivered, Next(w, owner, op).state.delivered,
                            Entered(w, owner, op))
  {
    hide Inv, Next, Enabled, Guidance.Enters;
    if op.Prepare? {
      PrepareEnters(w, owner, op);
    } else {
      NextExtends(w, owner, op);
    }
  }

  lemma PrepareEnters(w: World, owner: Option<string>, op: Op)
    requires Inv(w) && op.Prepare?
    ensures Guidance.Enters(w.state.delivered, Next(w, owner, op).state.delivered, Entered(w, owner, op))
  {
    hide Guidance.Enters, Guidance.Known, Matched, AllSound, Drafted, Ascending, Tally;
    Guidance.EntersNothing(w.state.delivered);
    if Enabled(w, owner, op) && Accepting(w, op.changes).Some? {
      DraftKeeps(DraftOf(w.state), op.changes, Ids(w.state.pendingTools));
    }
  }
}
