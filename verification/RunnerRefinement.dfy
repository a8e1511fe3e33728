/**
 The runner against its transactions: undoing by hand is exact in every reachable state, and the
 message targets it publishes before a save are the positions that the save creates.
 */
module RunnerRefinement {
  import opened Checkpoint
  import opened DeliveryOnce
  import opened MessageQueue
  import opened Runner
  import opened RunnerRuns
  import opened RunnerSpec
  import opened Sequences
  import opened Startup
  import opened Wrappers

  /** In a reachable state no owner is recorded without keys, so every rollback is exact. */
  lemma AlwaysRestorable(w: World, kept: seq<Item>)
    requires Inv(w)
    ensures Restorable(w.state.delivered, kept)
  {
  }

  /**
   Runs one operation of the runner. From any state that the invariant allows, success is the
   whole transaction and failure is no change at all, but for the mark that a turn's end hooks ran.
   */
  method Do(r: Runner, op: Op) returns (ok: bool)
    requires Inv(r.Now()) && Enabled(r.Now(), r.owner, op)
    requires op.StartTurn? || op.Stage? || op.Admit? || op.Edit? || op.Tools? || op.Abort? || op.Complete?
    modifies r
    ensures r.Now() == Next(old(r.Now()), r.owner, op)
    ensures Inv(r.Now())
    ensures !ok ==> r.Now() == old(r.Now()).(turnEnd := r.turnEnd)
  {
    hide Inv, Fit, Enabled, Persist, TurnBegun, InputStaged, ToolsSaved, ToolStepDone, TurnAborted,
         TurnFinished, Restorable, ReachesTurnEnd, Kept, Offered;
    ghost var w := r.Now();
    NextKeeps(w, r.owner, op);
    match op {
      case StartTurn(p) =>
        AlwaysRestorable(w, Kept(w.state.delivered, p.submitted));
        var done := r.StartMessageTurn(p);
        ok := done.Ok?;
      case Stage(turn, replies, stored) =>
        var done := r.StageMessageInput(turn, replies, stored);
        ok := done.Ok?;
      case Admit(message, events, stored) =>
        ok := false;
        if Pushed(r.state.queue, message) != r.state.queue {
          var done := r.PersistSubmissionChange(Pushed(r.state.queue, message), events, stored);
          ok := done.Ok?;
        }
      case Edit(id, replacement, text, events, stored) =>
        ok := false;
        if r.owner.Some? {
          var replaced := Replaced(r.state.queue, r.owner.value, id, replacement, text);
          if replaced.Some? {
            var done := r.PersistSubmissionChange(replaced.value, events, stored);
            ok := done.Ok?;
          }
        }
      case Tools(results, hooks, observed, stored) =>
        AlwaysRestorable(w, Kept(w.state.delivered, Offered(results)));
        var done := r.CompleteToolStep(results, hooks, observed, stored);
        ok := done.Ok?;
      case Abort(outcome, reason, events, env) =>
        AbortsATurn(w, r.owner, op);
        var done := r.AbortWithEvents(r.state.execution.value.turn, outcome, reason, events, env);
        ok := done.Ok?;
      case Complete(events, env) =>
        CompletesATurn(w, r.owner, op);
        var done := r.CompleteTurn(r.state.execution.value.turn, events, env);
        ok := done.Ok?;
    }
  }

  lemma AbortsATurn(w: World, owner: Option<string>, op: Op)
    requires Enabled(w, owner, op) && op.Abort?
    ensures w.state.execution.Some? && !op.outcome.Completed?
  {
  }

  lemma CompletesATurn(w: World, owner: Option<string>, op: Op)
    requires Enabled(w, owner, op) && op.Complete?
    ensures w.state.execution.Some?
  {
  }

  // ---------- message targets ----------

  /** `item` is at `target`, and nothing else is. */
  ghost predicate Lands(batches: seq<Batch>, target: MessageTarget, item: Item) {
    exists at :: 0 <= at < |Positions(batches)| && Positions(batches)[at] == Positioned(target, item)
                 && forall j :: 0 <= j < |Positions(batches)| && Positions(batches)[j].target == target
                                ==> j == at
  }

  lemma SavedLands(w: World, events: seq<Event>, record: Option<ExecutionRecord>, k: nat)
    requires Ascending(w.store.batches, w.state.sequence) && k < |w.delta|
    ensures Lands(Saved(w, events, record).store.batches,
                  MessageTarget(w.state.sequence + 1, 1 + k), w.delta[k])
  {
    TargetNamesItsItem(w, events, record, k);
  }

  /** A started turn pushes its message, and announces where the message landed. */
  lemma StartedMessageLands(w: World, owner: Option<string>, p: Start)
    requires Inv(w) && TurnBegun(w, owner, p).Ok?
    ensures var after := TurnBegun(w, owner, p).value;
            var event := after.store.events[|after.store.events| - 1];
            && event.Message? && event.id == p.id
            && Lands(after.store.batches, event.target, MessageItem(p.text))
            && Journal(after) == Journal(w) + [MessageItem(p.text)]
  {
    hide Lands, Kept, Accepted, Fit, Tally;
    var i := IndexWhere(Startable(owner.value, p.id), w.state.queue).value;
    var begun := Begun(w.state, p.id, p.turn, p.author, p.clock).value;
    var ready := Started(w, i, begun, p);
    SavedLands(ready, StartEvents(w, p), None, |w.delta|);
    SaveKeepsJournal(ready, StartEvents(w, p), None);
    Assoc(Flat(w.store.batches), w.delta, [MessageItem(p.text)]);
  }

  function IsMessage(): Event -> bool {
    (e: Event) => e.Message?
  }

  lemma {:induction false} HookEventsHideNothing(hooks: seq<string>)
    ensures Filter(IsMessage(), HookEvents(hooks)) == []
    decreases |hooks|
  {
    if hooks != [] {
      HookEventsHideNothing(hooks[..|hooks| - 1]);
      assert HookEvents(hooks)[..|hooks| - 1] == HookEvents(hooks[..|hooks| - 1]);
    }
  }

  lemma MessagesAppend(events: seq<Event>, hooks: seq<string>, last: Event)
    ensures Filter(IsMessage(), events + HookEvents(hooks) + [last])
            == Filter(IsMessage(), events) + if last.Message? then [last] else []
  {
    FilterConcat(IsMessage(), events, HookEvents(hooks));
    FilterConcat(IsMessage(), events + HookEvents(hooks), [last]);
    HookEventsHideNothing(hooks);
    assert [last][..0] == [];
  }

  /** Staging pushes one item per message let through, and announces each with its own target. */
  lemma {:induction false} StagedTargets(w: World, messages: seq<QueuedMessage>, replies: nat -> Reply)
    requires StagedAll(w, messages, replies).Some?
    ensures var st := StagedAll(w, messages, replies).value;
            var through := Through(messages, replies);
            var announced := Filter(IsMessage(), st.events);
            && |st.transcript| == |through| == |announced|
            && forall k :: 0 <= k < |through| ==>
                             && st.transcript[k] == MessageItem(through[k].text)
                             && announced[k] == Message(through[k].id,
                                                        MessageTarget(w.state.sequence + 1,
                                                                      1 + (|w.delta| + k)))
    decreases |messages|
  {
    hide Kept, Accepted, Filter;
    FilterNothing(IsMessage());
    if messages != [] {
      var n := |messages| - 1;
      StagedTargets(w, messages[..n], replies);
      var st := StagedAll(w, messages[..n], replies).value;
      match replies(n)
      case Submit(input, hooks) =>
        MessagesAppend(st.events, hooks, Message(messages[n].id,
                                                 MessageTarget(w.state.sequence + 1, 1 + (|w.delta| + |st.transcript|))));
      case TurnAway(reason, hooks) =>
        MessagesAppend(st.events, hooks, Rejected(messages[n].id, reason));
    }
  }

  lemma SavedEvents(w: World, events: seq<Event>)
    ensures Saved(w, events, None).store.events[|w.store.events|..] == events
  {
  }

  lemma InvAscends(w: World)
    requires Inv(w)
    ensures Ascending(w.store.batches, w.state.sequence)
  {
  }

  /** What staging saves: the staged transcript, and the events with the announcements among them. */
  lemma StagedSaves(w: World, owner: string, turn: string, replies: nat -> Reply)
    returns (ready: World, events: seq<Event>, st: Staging)
    requires InputStaged(w, Some(owner), turn, replies, true).Ok?
    requires Filter(Leaving(owner, turn), w.state.queue) != []
    ensures StagedAll(w, Filter(Leaving(owner, turn), w.state.queue), replies) == Some(st)
    ensures InputStaged(w, Some(owner), turn, replies, true).value == Saved(ready, events, None)
    ensures ready.store == w.store && ready.state.sequence == w.state.sequence
    ensures ready.delta == w.delta + st.transcript
    ensures Filter(IsMessage(), events) == Filter(IsMessage(), st.events)
  {
    hide Filter, StagedAll;
    var messages := Filter(Leaving(owner, turn), w.state.queue);
    st := StagedAll(w, messages, replies).value;
    var execution := Woken(w.state.execution, st);
    var started := if execution != w.state.execution && st.origin.Some?
                   then [TurnStarted(turn)] else [];
    ready := w.(
             state := w.state.(
               queue := Filter(Staying(owner, turn), w.state.queue),
               context := st.context, delivered := st.delivered, execution := execution),
             delta := w.delta + st.transcript);
    events := started + st.events;
    StartedIsNoMessage(started, st.events);
  }

  /** Every staged message lands where it was announced, after everything pushed before it. */
  lemma StagedMessagesLand(w: World, owner: string, turn: string, replies: nat -> Reply)
    requires Inv(w) && InputStaged(w, Some(owner), turn, replies, true).Ok?
    requires Filter(Leaving(owner, turn), w.state.queue) != []
    ensures var messages := Filter(Leaving(owner, turn), w.state.queue);
            var after := InputStaged(w, Some(owner), turn, replies, true).value;
            var through := Through(messages, replies);
            var announced := Filter(IsMessage(), after.store.events[|w.store.events|..]);
            && |announced| == |through|
            && |Journal(after)| == |Journal(w)| + |through| && Journal(w) <= Journal(after)
            && forall k :: 0 <= k < |through| ==>
                             && announced[k].Message? && announced[k].id == through[k].id
                             && Journal(after)[|Journal(w)| + k] == MessageItem(through[k].text)
                             && Lands(after.store.batches, announced[k].target,
                                      MessageItem(through[k].text))
  {
    hide Lands, Filter, StagedAll, Inv, InputStaged, Through, Ascending, Flat, Saved;
    var messages := Filter(Leaving(owner, turn), w.state.queue);
    var ready, events, st := StagedSaves(w, owner, turn, replies);
    StagedTargets(w, messages, replies);
    SavedEvents(ready, events);
    InvAscends(w);
    SaveKeepsJournal(ready, events, None);
    Assoc(Flat(w.store.batches), w.delta, st.transcript);
    forall k | 0 <= k < |st.transcript|
      ensures Lands(Saved(ready, events, None).store.batches,
                    MessageTarget(w.state.sequence + 1, 1 + (|w.delta| + k)), st.transcript[k])
    {
      SavedLands(ready, events, None, |w.delta| + k);
    }
  }

  lemma StartedIsNoMessage(started: seq<Event>, events: seq<Event>)
    requires started != [] ==> |started| == 1 && started[0].TurnStarted?
    ensures Filter(IsMessage(), started + events) == Filter(IsMessage(), events)
  {
    FilterConcat(IsMessage(), started, events);
    if started != [] {
      assert started[..0] == [];
      assert Filter(IsMessage(), started) == [];
    }
  }
}
