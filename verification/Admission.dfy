/** Admitting and editing queued messages: an answer says what is durable. */
module Admission {
  import opened Checkpoint
  import opened MessageQueue
  import opened Runner
  import Runs = RunnerRuns
  import opened RunnerSpec
  import opened Sequences
  import opened Wrappers

  datatype Delivery = SteerTurn | NextTurn

  /** The messages middleware's settings. */
  datatype Settings = Settings(maxPending: nat, delivery: Delivery)

  datatype Submission = Submission(
    id: string, author: Author, text: string, target: Option<string>, delivery: Option<Delivery>)

  /** What routing meets: a recorded receipt, content and reply validation, the recorder, the store. */
  datatype Route = Route(
    known: bool, valid: bool, recorded: bool, stored: bool, events: seq<Event>, ticket: nat)

  datatype Answer = Accepted | AlreadyAccepted | Rejected | Failed

  /** The boundary a message waits for; a message for another turn than the active one has none. */
  function Prepared(settings: Settings, active: Option<string>, s: Submission): Option<Boundary> {
    match active
    case None => if s.target.Some? then None else Some(Boundary.Turn)
    case Some(turn) =>
      if s.target.Some? && s.target != active then None
      else
        match if s.delivery.Some? then s.delivery.value else settings.delivery
        case SteerTurn => Some(Steer(turn))
        case NextTurn => Some(Boundary.Queue)
  }

  /** The message that a submission queues. */
  function Queued(owner: string, boundary: Boundary, s: Submission, ticket: nat): QueuedMessage {
    QueuedMessage(owner, s.id, boundary, s.author, s.text, ticket)
  }

  predicate Room(settings: Settings, owner: string, items: seq<QueuedMessage>, id: string) {
    |Filter(OwnedBy(owner), items)| < settings.maxPending
    && |items| < MAX_QUEUED_MESSAGES && !HasId(items, owner, id)
  }

  /** The boundary a message waits at: the next turn, the active one, or the one after it. */
  predicate WaitsAt(settings: Settings, active: Option<string>, s: Submission, boundary: Boundary) {
    match active
    case None => boundary == Boundary.Turn
    case Some(turn) =>
      var steers := s.delivery == Some(SteerTurn) || (s.delivery.None? && settings.delivery == SteerTurn);
      boundary == if steers then Steer(turn) else Boundary.Queue
  }

  /** A message that may be queued: meant for the active turn if for any, new, and within both bounds. */
  ghost predicate Stands(settings: Settings, active: Option<string>, s: Submission,
                         items: seq<QueuedMessage>, owner: string)
  {
    && (s.target.Some? ==> s.target == active)
    && |items| < 1024
    && |Places(items, Some(owner))| < settings.maxPending
    && forall i :: 0 <= i < |items| ==> !(items[i].owner == owner && items[i].id == s.id)
  }

  lemma RoomIs(settings: Settings, active: Option<string>, s: Submission, items: seq<QueuedMessage>,
               owner: string)
    ensures Stands(settings, active, s, items, owner)
            <==> Prepared(settings, active, s).Some? && Room(settings, owner, items, s.id)
    ensures Prepared(settings, active, s).Some? ==>
              WaitsAt(settings, active, s, Prepared(settings, active, s).value)
  {
    OwnedAre(items, Some(owner));
  }

  /**
   Routes a message to the queue. Hooks edit a staged copy, so the runner changes only when the
   answer is `Accepted`, and then the message is in the stored checkpoint at its boundary.
   */
  method AdmitMessage(r: Runner, settings: Settings, active: Option<string>, s: Submission, route: Route)
    returns (answer: Answer, inputChanged: bool)
    modifies r
    ensures answer == AlreadyAccepted <==> route.known
    ensures answer == Accepted <==>
            && !route.known && route.valid && r.owner.Some?
            && Prepared(settings, active, s).Some?
            && Room(settings, r.owner.value, old(r.state).queue, s.id)
            && old(r.state).sequence < U64_MAX && route.stored
    ensures answer == Accepted ==>
              && Stands(settings, active, s, old(r.state).queue, r.owner.value)
              && |r.state.queue| == |old(r.state).queue| + 1
              && var m := r.state.queue[|old(r.state).queue|];
                 && m.owner == r.owner.value && m.id == s.id && m.author == s.author && m.text == s.text
                 && WaitsAt(settings, active, s, m.boundary)
    ensures answer != Accepted ==> r.Now() == old(r.Now()) && !inputChanged
    ensures (!route.known && route.valid && r.owner.Some? && old(r.state).sequence < U64_MAX && route.stored
             && Stands(settings, active, s, old(r.state).queue, r.owner.value)) ==> answer == Accepted
    ensures answer == Accepted ==>
              var boundary := Prepared(settings, active, s).value;
              var queue := old(r.state).queue + [Queued(r.owner.value, boundary, s, route.ticket)];
              && r.Now() == Saved(old(r.Now()).(state := old(r.state).(queue := queue)), route.events, None)
              && r.store.checkpoint.queue == queue
              && (inputChanged <==> boundary.Steer?)
    ensures answer == Accepted ==>
              var m := Queued(r.owner.value, Prepared(settings, active, s).value, s, route.ticket);
              r.Now() == Runs.Next(old(r.Now()), r.owner, Runs.Admit(m, route.events, true))
  {
    RoomIs(settings, active, s, r.state.queue, if r.owner.Some? then r.owner.value else "");
    hide HasId, Filter, Runs.Next, Stands;
    inputChanged := false;
    if route.known {
      return AlreadyAccepted, false;
    }
    if r.owner.None? {
      return Answer.Failed, false;
    }
    var name := r.owner.value;
    var queue := new MessageQueue(r.state.queue, r.owner);
    if !route.valid {
      return RejectRoute(route), false;
    }
    var boundary := Prepared(settings, active, s);
    if boundary.None? {
      return RejectRoute(route), false;
    }
    var count := queue.Count();
    if count >= settings.maxPending {
      return RejectRoute(route), false;
    }
    var message := Queued(name, boundary.value, s, route.ticket);
    var pushed := queue.Push(message);
    if !pushed {
      return RejectRoute(route), false;
    }
    var saved := r.PersistSubmissionChange(queue.items, route.events, route.stored);
    if saved.Err? {
      return Answer.Failed, false;
    }
    AdmissionIsAStep(old(r.Now()), r.owner, message, route.events);
    return Accepted, boundary.value.Steer?;
  }

  /** A rejection is published; when it cannot be, the route fails instead. */
  function RejectRoute(route: Route): Answer {
    if route.recorded then Answer.Rejected else Answer.Failed
  }

  predicate IsBlank(text: string) {
    forall i :: 0 <= i < |text| ==> IsWhitespace(text[i])
  }

  predicate IsWhitespace(c: char) {
    var n := c as int;
    || 0x09 <= n <= 0x0D || n == 0x20 || n == 0x85 || n == 0xA0 || n == 0x1680
    || 0x2000 <= n <= 0x200A || n == 0x2028 || n == 0x2029 || n == 0x202F || n == 0x205F || n == 0x3000
  }

  /** The characters that trimming removes, one by one. */
  lemma WhitespaceIs(c: char)
    ensures IsWhitespace(c) <==>
            c in {'\U{9}', '\n', '\U{B}', '\U{C}', '\r', ' ', '\U{85}', '\U{A0}', '\U{1680}', '\U{2000}',
                  '\U{2001}', '\U{2002}', '\U{2003}', '\U{2004}', '\U{2005}', '\U{2006}', '\U{2007}',
                  '\U{2008}', '\U{2009}', '\U{200A}', '\U{2028}', '\U{2029}', '\U{202F}', '\U{205F}',
                  '\U{3000}'}
  {
  }

  /** Whether a queued message may be edited: it is still queued and the user wrote it. */
  predicate Editable(items: seq<QueuedMessage>, owner: string, id: string) {
    var at := IndexWhere(Owned(owner, id), items);
    at.Some? && items[at.value].author.User?
  }

  /**
   Edits a queued message in place: it keeps its position, its boundary and its ticket, and takes
   the edit's own identity. Peer messages cannot be edited.
   */
  method EditMessage(r: Runner, id: string, replacement: string, text: string, route: Route)
    returns (answer: Answer, inputChanged: bool)
    modifies r
    ensures answer != Accepted ==> r.Now() == old(r.Now()) && !inputChanged
    ensures answer == Accepted ==>
              && r.owner.Some? && Editable(old(r.state).queue, r.owner.value, id)
              && var items := old(r.state).queue;
                 var i := IndexWhere(Owned(r.owner.value, id), items).value;
                 && items[i].owner == r.owner.value && items[i].id == id && items[i].author == User
                 && (forall k :: 0 <= k < i ==> !(items[k].owner == r.owner.value && items[k].id == id))
                 && r.state.queue == items[i := items[i].(id := replacement, text := text)]
                 && r.store.checkpoint.queue == r.state.queue
                 && (inputChanged <==> items[i].boundary.Steer?)
    ensures answer == Accepted <==>
            && !IsBlank(text) && r.owner.Some? && Editable(old(r.state).queue, r.owner.value, id)
            && Replaced(old(r.state).queue, r.owner.value, id, replacement, text).Some?
            && route.valid && old(r.state).sequence < U64_MAX && route.stored
    ensures answer == Accepted ==>
              r.Now() == Runs.Next(old(r.Now()), r.owner,
                                   Runs.Edit(id, replacement, text, route.events, true))
  {
    hide Replaceable, Runs.Next, IsBlank, Filter, HasId;
    inputChanged := false;
    if IsBlank(text) {
      return RejectRoute(route), false;
    }
    if r.owner.None? {
      return Answer.Failed, false;
    }
    var name := r.owner.value;
    var queue := new MessageQueue(r.state.queue, r.owner);
    var found := queue.Position(Owned(name, id));
    if found.None? || !queue.items[found.value].author.User? {
      return RejectRoute(route), false;
    }
    var steers := queue.items[found.value].boundary.Steer?;
    var replaced := queue.Replace(id, replacement, text, route.valid);
    if replaced.Err? {
      return Answer.Failed, false;
    }
    if !replaced.value {
      return RejectRoute(route), false;
    }
    var saved := r.PersistSubmissionChange(queue.items, route.events, route.stored);
    if saved.Err? {
      return Answer.Failed, false;
    }
    EditIsAStep(old(r.Now()), r.owner, id, replacement, text, route.events);
    return Accepted, steers;
  }

  /** An admission is the runs' own step. */
  lemma AdmissionIsAStep(w: World, owner: Option<string>, m: QueuedMessage, events: seq<Event>)
    requires owner == Some(m.owner) && w.state.sequence < U64_MAX
    requires |w.state.queue| < MAX_QUEUED_MESSAGES && !HasId(w.state.queue, m.owner, m.id)
    ensures Runs.Next(w, owner, Runs.Admit(m, events, true))
            == Saved(w.(state := w.state.(queue := w.state.queue + [m])), events, None)
  {
  }

  lemma EditIsAStep(w: World, owner: Option<string>, id: string, replacement: string, text: string,
                    events: seq<Event>)
    requires owner.Some? && w.state.sequence < U64_MAX
    requires Replaced(w.state.queue, owner.value, id, replacement, text).Some?
    ensures Runs.Next(w, owner, Runs.Edit(id, replacement, text, events, true))
            == Saved(w.(state := w.state.(
                          queue := Replaced(w.state.queue, owner.value, id, replacement, text).value)),
                     events, None)
  {
  }

  /** An owner's messages never pass its own bound. */
  lemma AdmissionKeepsBound(settings: Settings, items: seq<QueuedMessage>, m: QueuedMessage)
    requires Room(settings, m.owner, items, m.id)
    ensures |Filter(OwnedBy(m.owner), items + [m])| <= settings.maxPending
    ensures forall owner :: owner != m.owner ==>
                              Filter(OwnedBy(owner), items + [m]) == Filter(OwnedBy(owner), items)
  {
    var all := items + [m];
    assert all[..|all| - 1] == items;
    forall owner | owner != m.owner
      ensures Filter(OwnedBy(owner), all) == Filter(OwnedBy(owner), items)
    {
      assert Filter(OwnedBy(owner), items) + [] == Filter(OwnedBy(owner), items);
    }
  }
}
