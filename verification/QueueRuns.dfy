/** Conservation of queued messages over runs of admissions, edits, turns and aborts. */
module QueueRuns {
  import opened MessageQueue
  import opened Sequences
  import opened Wrappers

  /**
   `next` is the number of admissions so far; `delivered` lists the tickets that reached the
   model, in order of delivery; `receipts` are the submission IDs durably admitted.
   */
  datatype Ledger = Ledger(
    queue: seq<QueuedMessage>, next: nat, delivered: seq<nat>, receipts: set<string>)

  /** `saved` is whether the checkpoint holding the change could be saved. */
  datatype Step =
    | Admit(owner: string, id: string, boundary: Boundary, author: Author, text: string, saved: bool)
    | Edit(owner: string, id: string, replacement: string, text: string, saved: bool)
    | StageModel(owner: string, turn: string, saved: bool)
    | StartTurn(owner: string, id: string, saved: bool)
    | Abort(owner: string, turn: string, saved: bool)
    | Unaccepted(staged: seq<QueuedMessage>)

  function Tickets(items: seq<QueuedMessage>): seq<nat> {
    seq(|items|, i requires 0 <= i < |items| => items[i].ticket)
  }

  function Next(l: Ledger, step: Step): Ledger {
    match step
    case Admit(owner, id, boundary, author, text, saved) =>
      var m := QueuedMessage(owner, id, boundary, author, text, l.next);
      if id in l.receipts || Pushed(l.queue, m) == l.queue || !saved then l
      else l.(queue := Pushed(l.queue, m), next := l.next + 1, receipts := l.receipts + {id})
    case Edit(owner, id, replacement, text, saved) =>
      (match Replaced(l.queue, owner, id, replacement, text)
       case None => l
       case Some(after) =>
         if saved then l.(queue := after, receipts := l.receipts + {replacement}) else l)
    case StageModel(owner, turn, saved) =>
      if !saved then l
      else
        l.(queue := Filter(Staying(owner, turn), l.queue),
        delivered := l.delivered + Tickets(Filter(Leaving(owner, turn), l.queue)))
    case StartTurn(owner, id, saved) =>
      (match IndexWhere(Startable(owner, id), l.queue)
       case None => l
       case Some(i) =>
         var m, rest := l.queue[i], Without(l.queue, i);
         if saved then l.(queue := rest, delivered := l.delivered + [m.ticket])
         else l.(queue := InsertAt(rest, i, m)))
    case Abort(owner, turn, saved) =>
      if saved then l.(queue := PromotedAll(l.queue, owner, turn)) else l
    case Unaccepted(_) => l
  }

  function Run(l: Ledger, steps: seq<Step>): Ledger
    decreases |steps|
  {
    if steps == [] then l else Next(Run(l, steps[..|steps| - 1]), steps[|steps| - 1])
  }

  predicate Increasing(items: seq<QueuedMessage>) {
    forall i, j :: 0 <= i < j < |items| ==> items[i].ticket < items[j].ticket
  }

  predicate UniqueIds(items: seq<QueuedMessage>) {
    forall i, j :: 0 <= i < j < |items| ==> !Owns(items[i].owner, items[i].id, items[j])
  }

  predicate Holds(items: seq<QueuedMessage>, ticket: nat) {
    exists i :: 0 <= i < |items| && items[i].ticket == ticket
  }

  predicate Distinct(tickets: seq<nat>) {
    forall i, j :: 0 <= i < j < |tickets| ==> tickets[i] != tickets[j]
  }

  /** Every admitted message is queued in admission order or was delivered, and never both. */
  ghost predicate Inv(l: Ledger) {
    && Increasing(l.queue)
    && UniqueIds(l.queue)
    && |l.queue| <= MAX_QUEUED_MESSAGES
    && Distinct(l.delivered)
    && (forall t: nat :: t < l.next <==> t in l.delivered || Holds(l.queue, t))
    && (forall t: nat :: t in l.delivered ==> !Holds(l.queue, t))
  }

  // ---------- filtering keeps order and splits tickets ----------

  lemma {:induction false} FilterKeeps(p: QueuedMessage -> bool, items: seq<QueuedMessage>)
    requires Increasing(items) && UniqueIds(items)
    ensures Increasing(Filter(p, items)) && UniqueIds(Filter(p, items))
    ensures |Filter(p, items)| <= |items|
    decreases |items|
  {
    if items != [] {
      var front, last := items[..|items| - 1], items[|items| - 1];
      FilterKeeps(p, front);
      forall m | m in Filter(p, front)
        ensures m.ticket < last.ticket && !Owns(m.owner, m.id, last)
      {
        FilterMembers(p, front, m);
        var i :| 0 <= i < |front| && front[i] == m;
        assert items[i] == m;
      }
    }
  }

  lemma FilterHolds(p: QueuedMessage -> bool, items: seq<QueuedMessage>, ticket: nat)
    ensures Holds(Filter(p, items), ticket)
            <==> exists i :: 0 <= i < |items| && items[i].ticket == ticket && p(items[i])
  {
    if Holds(Filter(p, items), ticket) {
      var i :| 0 <= i < |Filter(p, items)| && Filter(p, items)[i].ticket == ticket;
      FilterMembers(p, items, Filter(p, items)[i]);
    }
    if i :| 0 <= i < |items| && items[i].ticket == ticket && p(items[i]) {
      FilterMembers(p, items, items[i]);
    }
  }

  lemma TicketsHold(items: seq<QueuedMessage>, ticket: nat)
    ensures ticket in Tickets(items) <==> Holds(items, ticket)
  {
    if Holds(items, ticket) {
      var i :| 0 <= i < |items| && items[i].ticket == ticket;
      assert Tickets(items)[i] == ticket;
    }
  }

  lemma DistinctConcat(a: seq<nat>, b: seq<nat>)
    requires Distinct(a) && Distinct(b)
    requires forall t :: t in a ==> t !in b
    ensures Distinct(a + b)
  {
    forall i, j | 0 <= i < j < |a + b| ensures (a + b)[i] != (a + b)[j] {
      if i < |a| <= j { assert a[i] in a && b[j - |a|] in b; }
    }
  }

  /** Taking the messages in `gone` out of the queue and delivering them keeps the balance. */
  lemma DeliverKeeps(l: Ledger, rest: seq<QueuedMessage>, gone: seq<QueuedMessage>)
    requires Inv(l)
    requires Increasing(rest) && UniqueIds(rest) && |rest| <= |l.queue| && Increasing(gone)
    requires forall t: nat :: Holds(l.queue, t) <==> Holds(rest, t) || Holds(gone, t)
    requires forall t: nat :: Holds(rest, t) ==> !Holds(gone, t)
    ensures Inv(l.(queue := rest, delivered := l.delivered + Tickets(gone)))
  {
    forall t: nat ensures t in Tickets(gone) <==> Holds(gone, t) {
      TicketsHold(gone, t);
    }
    DistinctConcat(l.delivered, Tickets(gone));
  }

  lemma StageKeeps(l: Ledger, owner: string, turn: string)
    requires Inv(l)
    ensures Inv(Next(l, StageModel(owner, turn, true)))
  {
    var rest, gone := Filter(Staying(owner, turn), l.queue), Filter(Leaving(owner, turn), l.queue);
    FilterKeeps(Staying(owner, turn), l.queue);
    FilterKeeps(Leaving(owner, turn), l.queue);
    forall t: nat
      ensures Holds(l.queue, t) <==> Holds(rest, t) || Holds(gone, t)
      ensures Holds(rest, t) ==> !Holds(gone, t)
    {
      FilterHolds(Staying(owner, turn), l.queue, t);
      FilterHolds(Leaving(owner, turn), l.queue, t);
    }
    DeliverKeeps(l, rest, gone);
  }

  lemma WithoutHolds(items: seq<QueuedMessage>, i: nat, ticket: nat)
    requires i < |items|
    ensures Holds(items, ticket) <==> Holds(Without(items, i), ticket) || Holds([items[i]], ticket)
  {
    if Holds(items, ticket) {
      var k :| 0 <= k < |items| && items[k].ticket == ticket;
      if k < i { assert Without(items, i)[k].ticket == ticket; }
      if k > i { assert Without(items, i)[k - 1].ticket == ticket; }
      if k == i { assert [items[i]][0].ticket == ticket; }
    }
  }

  lemma TurnKeeps(l: Ledger, i: nat)
    requires Inv(l) && i < |l.queue|
    ensures Inv(l.(queue := Without(l.queue, i), delivered := l.delivered + [l.queue[i].ticket]))
  {
    var rest, gone := Without(l.queue, i), [l.queue[i]];
    assert forall k :: 0 <= k < |rest| ==> rest[k] == l.queue[if k < i then k else k + 1];
    forall t: nat ensures Holds(l.queue, t) <==> Holds(rest, t) || Holds(gone, t) {
      WithoutHolds(l.queue, i, t);
    }
    DeliverKeeps(l, rest, gone);
    assert Tickets(gone) == [l.queue[i].ticket];
  }

  lemma SameTicketsKeep(l: Ledger, after: seq<QueuedMessage>)
    requires Inv(l) && |after| == |l.queue| && UniqueIds(after)
    requires forall i :: 0 <= i < |after| ==> after[i].ticket == l.queue[i].ticket
    ensures Inv(l.(queue := after))
  {
    forall t: nat ensures Holds(after, t) <==> Holds(l.queue, t) {
      if Holds(l.queue, t) {
        var i :| 0 <= i < |l.queue| && l.queue[i].ticket == t;
        assert after[i].ticket == t;
      }
    }
  }

  lemma AdmitKeeps(l: Ledger, m: QueuedMessage, receipts: set<string>)
    requires Inv(l) && m.ticket == l.next && Pushed(l.queue, m) != l.queue
    ensures Inv(l.(queue := Pushed(l.queue, m), next := l.next + 1, receipts := receipts))
  {
    var after := l.queue + [m];
    forall t: nat ensures Holds(after, t) <==> Holds(l.queue, t) || t == l.next {
      if Holds(l.queue, t) {
        var i :| 0 <= i < |l.queue| && l.queue[i].ticket == t;
        assert after[i].ticket == t;
      }
      assert after[|l.queue|].ticket == l.next;
    }
    forall i | 0 <= i < |l.queue| ensures l.queue[i].ticket < l.next {
      assert Holds(l.queue, l.queue[i].ticket);
    }
  }

  lemma EditKeeps(l: Ledger, owner: string, id: string, replacement: string, text: string)
    requires Inv(l)
    ensures Inv(Next(l, Edit(owner, id, replacement, text, true)))
  {
    hide Inv, UniqueIds;
    var after := Replaced(l.queue, owner, id, replacement, text);
    if after.Some? {
      ReplacedKeeps(l, owner, id, replacement, text);
      SameTicketsKeep(l, after.value);
      ReceiptsKeep(l.(queue := after.value), l.receipts + {replacement});
    }
  }

  lemma ReplacedKeeps(l: Ledger, owner: string, id: string, replacement: string, text: string)
    requires Inv(l) && Replaced(l.queue, owner, id, replacement, text).Some?
    ensures var after := Replaced(l.queue, owner, id, replacement, text).value;
            && |after| == |l.queue| && UniqueIds(after)
            && forall i :: 0 <= i < |after| ==> after[i].ticket == l.queue[i].ticket
  {
  }

  lemma ReceiptsKeep(l: Ledger, receipts: set<string>)
    requires Inv(l)
    ensures Inv(l.(receipts := receipts))
  {
  }

  lemma StartKeeps(l: Ledger, owner: string, id: string, saved: bool)
    requires Inv(l)
    ensures var next := Next(l, StartTurn(owner, id, saved));
            Inv(next) && l.delivered <= next.delivered && (!saved ==> next == l)
  {
    hide Inv, Without, InsertAt;
    var at := IndexWhere(Startable(owner, id), l.queue);
    if at.Some? {
      TurnKeeps(l, at.value);
      InsertUndoesRemove(l.queue, at.value);
    }
  }

  /**
   A step keeps the balance, delivers nothing again and forgets no receipt. One that was not saved
   changes nothing, and neither does the admission of a submission that has a receipt.
   */
  lemma NextKeeps(l: Ledger, step: Step)
    requires Inv(l)
    ensures Inv(Next(l, step)) && l.delivered <= Next(l, step).delivered
    ensures step.Unaccepted? || !step.saved ==> Next(l, step) == l
    ensures l.receipts <= Next(l, step).receipts
    ensures step.Admit? && step.id in l.receipts ==> Next(l, step) == l
  {
    hide Increasing, UniqueIds, Distinct, Holds, Without, InsertAt;
    match step
    case Admit(owner, id, boundary, author, text, saved) =>
      var m := QueuedMessage(owner, id, boundary, author, text, l.next);
      if Pushed(l.queue, m) != l.queue { AdmitKeeps(l, m, l.receipts + {id}); }
    case Edit(owner, id, replacement, text, saved) => EditKeeps(l, owner, id, replacement, text);
    case StageModel(owner, turn, saved) => StageKeeps(l, owner, turn);
    case StartTurn(owner, id, saved) => StartKeeps(l, owner, id, saved);
    case Abort(owner, turn, saved) => AbortKeeps(l, owner, turn);
    case Unaccepted(_) =>
  }

  lemma AbortKeeps(l: Ledger, owner: string, turn: string)
    requires Inv(l)
    ensures Inv(Next(l, Abort(owner, turn, true)))
  {
    SameTicketsKeep(l, PromotedAll(l.queue, owner, turn));
  }

  /**
   Over every run, each admitted message is queued in admission order or was delivered exactly
   once; identities stay unique and the queue stays bounded.
   */
  lemma {:induction false} QueueConservation(steps: seq<Step>)
    ensures Inv(Run(Ledger([], 0, [], {}), steps))
    decreases |steps|
  {
    if steps != [] {
      QueueConservation(steps[..|steps| - 1]);
      NextKeeps(Run(Ledger([], 0, [], {}), steps[..|steps| - 1]), steps[|steps| - 1]);
    }
  }
}
