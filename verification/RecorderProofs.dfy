/** What every run of the recorder guarantees. */
module RecorderProofs {
  import opened RecorderSpec
  import opened Sequences
  import opened Wrappers

  /** `e` is one event of the group, or the deltas of one stream joined in order. */
  ghost predicate Joins(group: seq<Timestamped>, e: Timestamped)
    decreases |group|
  {
    if |group| == 0 then false
    else if |group| == 1 then e == group[0]
    else
      var last := group[|group| - 1];
      exists front: Timestamped ::
        && Joins(group[..|group| - 1], front)
        && CanMerge(front.event, last.event)
        && e == Merged(front, last)
  }

  /** The journal is the accepted events in order, each entry joining one adjacent group. */
  ghost predicate Coalesces(journal: seq<Timestamped>, accepted: seq<Timestamped>)
    decreases |journal|
  {
    if journal == [] then accepted == []
    else
      exists n: nat ::
        && n <= |accepted|
        && Joins(accepted[n..], journal[|journal| - 1])
        && Coalesces(journal[..|journal| - 1], accepted[..n])
  }

  lemma JoinsOne(e: Timestamped)
    ensures Joins([e], e)
  {
  }

  lemma CoalescesGroup(journal: seq<Timestamped>, accepted: seq<Timestamped>,
                       group: seq<Timestamped>, e: Timestamped)
    requires Coalesces(journal, accepted)
    requires Joins(group, e)
    ensures Coalesces(journal + [e], accepted + group)
  {
    var j, a, n := journal + [e], accepted + group, |accepted|;
    assert a[n..] == group && a[..n] == accepted && j[..|j| - 1] == journal;
  }

  lemma {:induction false} CoalescesEach(journal: seq<Timestamped>, accepted: seq<Timestamped>,
                                         more: seq<Timestamped>)
    requires Coalesces(journal, accepted)
    ensures Coalesces(journal + more, accepted + more)
    decreases |more|
  {
    if more == [] {
      assert journal + more == journal && accepted + more == accepted;
    } else {
      var front, last := more[..|more| - 1], more[|more| - 1];
      CoalescesEach(journal, accepted, front);
      assert Joins([last], last);
      CoalescesGroup(journal + front, accepted + front, [last], last);
      assert journal + more == journal + front + [last];
      assert accepted + more == accepted + front + [last];
    }
  }

  lemma {:induction false} PermitsConcat(a: seq<Command>, b: seq<Command>)
    ensures Permits(a + b) == Permits(a) + Permits(b)
    decreases |b|
  {
    if b == [] {
      assert a + b == a;
    } else {
      PermitsConcat(a, b[..|b| - 1]);
      var c := a + b;
      assert c[..|c| - 1] == a + b[..|b| - 1] && c[|c| - 1] == b[|b| - 1];
    }
  }

  lemma {:induction false} EventsConcat(a: seq<Command>, b: seq<Command>)
    ensures EventsOf(a + b) == EventsOf(a) + EventsOf(b)
    decreases |b|
  {
    if b == [] {
      assert a + b == a;
    } else {
      var front, last, c := b[..|b| - 1], b[|b| - 1], a + b;
      EventsConcat(a, front);
      assert c[..|c| - 1] == a + front && c[|c| - 1] == last;
      calc {
        EventsOf(c);
        EventsOf(a + front) + EventsIn(last);
        EventsOf(a) + EventsOf(front) + EventsIn(last);
        { Assoc(EventsOf(a), EventsOf(front), EventsIn(last)); }
        EventsOf(a) + EventsOf(b);
      }
    }
  }

  lemma EventsOfConcat(a: seq<Command>, b: seq<Command>)
    ensures EventsOf(a + b) == EventsOf(a) + EventsOf(b)
    ensures Permits(a + b) == Permits(a) + Permits(b)
  {
    PermitsConcat(a, b);
    EventsConcat(a, b);
  }

  lemma EventsOfOne(c: Command)
    ensures EventsOf([c]) == EventsIn(c) && Permits([c]) == Permit(c)
  {
    assert [c][..0] == [];
    assert EventsOf([c]) == EventsOf([]) + EventsIn(c);
  }

  lemma PermitsWithout(cs: seq<Command>, i: nat)
    requires i < |cs|
    ensures Permits(cs) == Permits(Without(cs, i)) + Permit(cs[i])
  {
    hide Permits;
    var front, c, back := cs[..i], cs[i], cs[i + 1..];
    assert cs == front + ([c] + back);
    PermitsConcat(front, [c] + back);
    PermitsConcat([c], back);
    PermitsConcat(front, back);
    EventsOfOne(c);
  }

  // ---------- the invariant ----------

  /** The stream of the last command taken, if it appended a delta. */
  function LastStream(taken: seq<Command>): Option<StreamKey> {
    if taken == [] then None
    else
      var last := taken[|taken| - 1];
      if last.Append? && last.event.event.Delta? then Some(last.event.event.key) else None
  }

  /** While the loop is healthy, everything it took is durable or in the pending batch. */
  ghost predicate Healthy(s: State)
    requires s.written <= |s.taken|
  {
    && s.published == s.journal
    && s.lastStream == LastStream(s.taken)
    && match s.pending
       case None => s.written == |s.taken|
       case Some(batch) =>
         && s.written < |s.taken|
         && batch.event.event.Delta? && s.lastStream == Some(batch.event.event.key)
         && |batch.event.event.text| <= STREAM_BATCH_BYTES
         && batch.permit == Permits(s.taken[s.written..])
         && Joins(EventsOf(s.taken[s.written..]), batch.event)
  }

  /** What the journal, the frontend and the loop state say about the commands taken. */
  ghost predicate Logged(s: State) {
    && s.written <= |s.taken|
    && Coalesces(s.journal, EventsOf(s.taken[..s.written]))
    && s.published <= s.journal
    && (if s.failed || s.stopped then s.pending.None? else Healthy(s))
  }

  /** The commands that entered the channel and are not handled yet. */
  function Unhandled(s: State): seq<Command> {
    if s.busy.Some? then [s.busy.value] + s.queue else s.queue
  }

  /** Where every byte permit is. */
  ghost function Accounted(s: State): nat {
    s.available + Permits(s.waiting) + Permits(Unhandled(s))
    + (if s.pending.Some? then s.pending.value.permit else 0)
  }

  ghost predicate Inv(s: State) {
    && Logged(s)
    && Accounted(s) == EVENT_BYTE_BUDGET && |s.queue| <= COMMAND_CAPACITY
    && (if s.stopped then s.taken <= s.sent && Unhandled(s) == []
        else s.sent == s.taken + Unhandled(s))
  }

  lemma FlushKeeps(s: State, env: Env)
    requires Logged(s) && !s.failed && !s.stopped
    ensures var (t, ok) := FlushStream(s, env);
            && t.pending == None && t.taken == s.taken && t.queue == s.queue && t.busy == s.busy
            && t.sent == s.sent && t.waiting == s.waiting && !t.failed && !t.stopped
            && Accounted(t) == Accounted(s)
            && s.journal <= t.journal
            && (if ok then Logged(t) else Logged(t.(failed := true)))
  {
    hide Coalesces, EventsOf, Joins;
    if s.pending.Some? && env.flushWrites {
      var tail := s.taken[s.written..];
      assert s.taken == s.taken[..s.written] + tail;
      EventsOfConcat(s.taken[..s.written], tail);
      CoalescesGroup(s.journal, EventsOf(s.taken[..s.written]), EventsOf(tail), s.pending.value.event);
      assert s.taken[..|s.taken|] == s.taken;
    }
  }

  /** Writing the whole of command `c` next keeps the journal faithful. */
  lemma WriteKeeps(journal: seq<Timestamped>, taken: seq<Command>, c: Command)
    requires Coalesces(journal, EventsOf(taken))
    ensures var more := taken + [c];
            Coalesces(journal + EventsIn(c), EventsOf(more[..|more|]))
  {
    var more := taken + [c];
    assert more[..|more|] == more;
    EventsOfConcat(taken, [c]);
    EventsOfOne(c);
    CoalescesEach(journal, EventsOf(taken), EventsIn(c));
  }

  /** A batch that takes `c` in: its permit and text cover exactly one more command. */
  lemma MergeKeeps(s: State, c: Command)
    requires Logged(s) && !s.failed && !s.stopped && s.pending.Some? && c.Append?
    requires CanMerge(s.pending.value.event.event, c.event.event)
    ensures var tail := (s.taken + [c])[s.written..];
            && Permits(tail) == s.pending.value.permit + c.permit
            && Joins(EventsOf(tail), Merged(s.pending.value.event, c.event))
  {
    var old_, front := s.taken[s.written..], s.pending.value.event;
    assert (s.taken + [c])[s.written..] == old_ + [c];
    EventsOfConcat(old_, [c]);
    EventsOfOne(c);
    var group := EventsOf(old_) + [c.event];
    assert group[..|group| - 1] == EventsOf(old_);
  }

  /** What handling `c` may do to a state whose command in progress `c` was. */
  ghost predicate Handled(s: State, c: Command, t: State) {
    && Logged(t) && s.busy == t.busy == None
    && Accounted(t) == Accounted(s) + Permit(c)
    && t.taken == s.taken + [c] && t.sent == s.sent && t.waiting == s.waiting
    && s.journal <= t.journal
    && t.queue == (if t.stopped then [] else s.queue)
  }

  lemma RejectKeeps(s: State, c: Command)
    requires Logged(s) && s.busy.None? && s.failed && !s.stopped
    ensures Handled(s, c, Reject(Done(s, c), c))
    ensures Reject(Done(s, c), c).journal == s.journal && Reject(Done(s, c), c).published == s.published
  {
    hide Coalesces, EventsOf, Joins;
    assert (s.taken + [c])[..s.written] == s.taken[..s.written];
  }

  /** A command refused after a failed flush: the failure sticks, or the loop is over. */
  lemma RefusedKeeps(s: State, c: Command)
    requires Logged(s.(failed := true)) && s.busy.None? && !s.failed && !s.stopped
    ensures Handled(s, c, Refused(s, c))
    ensures Refused(s, c).journal == s.journal
  {
    hide Coalesces, EventsOf, Joins;
    assert (s.taken + [c])[..s.written] == s.taken[..s.written];
  }

  lemma RecordAppendKeeps(s: State, c: Command, env: Env)
    requires Logged(s) && s.busy.None? && !s.failed && !s.stopped && s.pending.None? && c.Append?
    ensures Handled(s, c, RecordAppend(s, c, env))
  {
    hide Coalesces, EventsOf, Joins;
    assert (s.taken + [c])[..s.written] == s.taken[..s.written];
    assert s.taken[..|s.taken|] == s.taken;
    WriteKeeps(s.journal, s.taken, c);
  }

  lemma RecordSaveKeeps(s: State, c: Command, env: Env)
    requires Logged(s) && s.busy.None? && !s.failed && !s.stopped && s.pending.None? && c.Save?
    ensures Handled(s, c, RecordSave(s, c, env))
  {
    hide Coalesces, EventsOf, Joins;
    assert (s.taken + [c])[..s.written] == s.taken[..s.written];
    assert s.taken[..|s.taken|] == s.taken;
    WriteKeeps(s.journal, s.taken, c);
  }

  lemma MergeBranchKeeps(s: State, c: Command, env: Env)
    requires Logged(s) && s.busy.None? && !s.failed && !s.stopped && c.Append?
    requires s.pending.Some? && CanMerge(s.pending.value.event.event, c.event.event)
    ensures Handled(s, c, ReceiveAppend(s, c, env))
  {
    hide Coalesces, EventsOf, Joins, Permits;
    assert (s.taken + [c])[..s.written] == s.taken[..s.written];
    MergeKeeps(s, c);
  }

  lemma StartBatchKeeps(s: State, c: Command)
    requires Logged(s) && s.busy.None? && !s.failed && !s.stopped && s.pending.None? && c.Append?
    requires StartsBatch(s.lastStream, c.event.event)
    ensures Handled(s, c, Answer(s, c.caller, true).(
                          taken := s.taken + [c],
                          pending := Some(Batch(c.event, c.permit))))
  {
    hide Coalesces, EventsOf, Joins, Permits;
    assert (s.taken + [c])[|s.taken|..] == [c];
    assert (s.taken + [c])[..|s.taken|] == s.taken[..|s.taken|];
    EventsOfOne(c);
    JoinsOne(c.event);
  }

  lemma ReceiveAppendKeeps(s: State, c: Command, env: Env)
    requires Logged(s) && s.busy.None? && !s.failed && !s.stopped && c.Append?
    ensures Handled(s, c, ReceiveAppend(s, c, env))
  {
    hide Coalesces, EventsOf, Joins, Permits;
    if s.pending.Some? && CanMerge(s.pending.value.event.event, c.event.event) {
      MergeBranchKeeps(s, c, env);
    } else {
      var (f, ok) := FlushStream(s, env);
      FlushKeeps(s, env);
      if !ok {
        RefusedKeeps(f, c);
      } else if StartsBatch(f.lastStream, c.event.event) {
        StartBatchKeeps(f, c);
      } else {
        RecordAppendKeeps(f, c, env);
      }
    }
  }

  lemma ReceiveBarrierKeeps(s: State, c: Command, env: Env)
    requires Logged(s) && s.busy.None? && !s.failed && !s.stopped && !c.Append?
    ensures Handled(s, c, ReceiveBarrier(s, c, env))
  {
    hide Coalesces, EventsOf, Joins;
    var (f, ok) := FlushStream(s, env);
    FlushKeeps(s, env);
    if !ok {
      RefusedKeeps(f, c);
    } else if c.Save? {
      RecordSaveKeeps(f, c, env);
    } else {
      assert f.taken[..|f.taken|] == f.taken;
      WriteKeeps(f.journal, f.taken, c);
      assert f.journal + EventsIn(c) == f.journal;
    }
  }

  /** Taking a command moves it, with its permit, from the channel to the loop. */
  lemma BeginKeeps(s: State)
    requires Inv(s) && !s.stopped && s.busy.None? && s.queue != []
    ensures Inv(Begin(s))
  {
    hide Coalesces, EventsOf, Joins, Permits;
    assert s.queue == [s.queue[0]] + s.queue[1..];
  }

  /** The accounts of a state whose command in progress was handled. */
  lemma HandledKeeps(s: State, t: State)
    requires Inv(s) && !s.stopped && s.busy.Some?
    requires Handled(s.(busy := None), s.busy.value, t)
    ensures Inv(t) && t.sent == s.sent && t.taken == s.taken + [s.busy.value]
  {
    hide Coalesces, EventsOf, Joins, Permits, Logged;
    var c := s.busy.value;
    PermitsConcat([c], s.queue);
    EventsOfOne(c);
    Assoc(s.taken, [c], s.queue);
  }

  lemma ClearKeeps(s: State, env: Env)
    requires Inv(s) && !s.stopped && !s.failed && s.busy.Some?
    ensures var t := Clear(s, env);
            && Inv(t) && s.journal <= t.journal && s.taken <= t.taken && t.sent == s.sent
  {
    hide Coalesces, EventsOf, Joins, Permits;
    FlushKeeps(s, env);
    var (flushed, ok) := FlushStream(s, env);
    if !ok {
      var rest := s.(busy := None);
      FlushKeeps(rest, env);
      RefusedKeeps(flushed.(busy := None), s.busy.value);
      HandledKeeps(s, Clear(s, env));
    }
  }

  lemma ReceiveKeeps(s: State, env: Env)
    requires Inv(s) && !s.stopped && s.busy.Some?
    ensures var t := Receive(s, env);
            && Inv(t) && s.journal <= t.journal
            && t.sent == s.sent && t.taken == s.taken + [s.busy.value]
            && (s.failed ==> t.journal == s.journal && t.published == s.published && t.failed)
  {
    hide Coalesces, EventsOf, Joins, Permits;
    var c, rest := s.busy.value, s.(busy := None);
    if s.failed {
      RejectKeeps(rest, c);
    } else if c.Append? {
      ReceiveAppendKeeps(rest, c, env);
    } else {
      ReceiveBarrierKeeps(rest, c, env);
    }
    HandledKeeps(s, Receive(s, env));
  }

  /** What every step keeps. */
  ghost predicate Steps(s: State, t: State) {
    && Inv(t) && s.journal <= t.journal && s.taken <= t.taken && s.sent <= t.sent
    && (s.failed || s.stopped ==>
          t.journal == s.journal && t.published == s.published && (t.failed || t.stopped))
  }

  lemma Enqueued(s: State, c: Command)
    ensures var t := s.(queue := s.queue + [c]);
            Unhandled(t) == Unhandled(s) + [c]
            && Permits(Unhandled(t)) == Permits(Unhandled(s)) + Permit(c)
  {
    hide Permits;
    assert Unhandled(s.(queue := s.queue + [c])) == Unhandled(s) + [c];
    PermitsConcat(Unhandled(s), [c]);
    EventsOfOne(c);
  }

  /** A caller's own steps leave everything but the free permits and the commands alone. */
  ghost predicate OnlyCommands(s: State, t: State) {
    t == s.(available := t.available, waiting := t.waiting, queue := t.queue, sent := t.sent)
  }

  lemma CallerKeeps(s: State, t: State)
    requires Inv(s) && OnlyCommands(s, t) && Accounted(t) == EVENT_BYTE_BUDGET
    requires |t.queue| <= COMMAND_CAPACITY
    requires s.sent <= t.sent
    requires if t.stopped then Unhandled(t) == [] else t.sent == t.taken + Unhandled(t)
    ensures Steps(s, t)
  {
    hide Coalesces, EventsOf, Joins, Permits;
  }

  /** They move a permit between the budget, a waiting command and the channel. */
  lemma CallerStep(s: State, step: Step)
    requires Inv(s) && (step.Reserve? || step.Send? || step.Cancel? || step.TryRecord?)
    ensures Steps(s, Next(s, step))
  {
    hide Logged, Permits, Steps;
    match step {
    case Reserve(c) =>
      EventsOfConcat(s.waiting, [c]);
      EventsOfOne(c);
    case TryRecord(event, bytes) => Enqueued(s, Append(event, bytes, None));
    case Send(i) =>
      if i < |s.waiting| {
        PermitsWithout(s.waiting, i);
        Enqueued(s, s.waiting[i]);
      }
    case Cancel(i) =>
      if i < |s.waiting| { PermitsWithout(s.waiting, i); }
    }
    CallerKeeps(s, Next(s, step));
  }

  /** The steps of a loop that waits for a command: the deadline, and the end of the channel. */
  lemma PausedKeeps(s: State, step: Step)
    requires Inv(s) && (step.Timer? || step.Shutdown?)
    ensures Steps(s, Next(s, step))
  {
    hide Coalesces, EventsOf, Joins;
    if !s.stopped && !s.failed {
      FlushKeeps(s, step.env);
    }
  }

  lemma NextKeeps(s: State, step: Step)
    requires Inv(s)
    ensures Steps(s, Next(s, step))
  {
    hide Coalesces, EventsOf, Joins, Permits, Receive, Clear, FlushStream;
    match step
    case Take =>
      if !s.stopped && s.busy.None? && s.queue != [] { BeginKeeps(s); }
    case FlushAhead(env) =>
      if !s.stopped && !s.failed && s.busy.Some? { ClearKeeps(s, env); }
    case Finish(env) =>
      if !s.stopped && s.busy.Some? { ReceiveKeeps(s, env); }
    case Timer(_) => PausedKeeps(s, step);
    case Shutdown(_) => PausedKeeps(s, step);
    case _ => CallerStep(s, step);
  }

  lemma {:induction false} RunKeeps(s: State, steps: seq<Step>)
    requires Inv(s)
    ensures Steps(s, Run(s, steps))
    decreases |steps|
  {
    if steps != [] {
      RunKeeps(s, steps[..|steps| - 1]);
      NextKeeps(Run(s, steps[..|steps| - 1]), steps[|steps| - 1]);
    }
  }

  lemma Reachable(steps: seq<Step>)
    ensures Inv(Run(Init(), steps))
  {
    assert Inv(Init());
    RunKeeps(Init(), steps);
  }

  // ---------- main results ----------

  /** What a reader of events sees: every byte with its stream, and every other event. */
  datatype Atom = Byte(key: StreamKey, value: byte) | Mark(payload: int)

  function Atoms(e: Event): seq<Atom> {
    match e
    case Delta(key, text) => seq(|text|, i requires 0 <= i < |text| => Byte(key, text[i]))
    case Other(payload) => [Mark(payload)]
  }

  function Flat(events: seq<Timestamped>): seq<Atom> {
    if events == [] then []
    else Flat(events[..|events| - 1]) + Atoms(events[|events| - 1].event)
  }

  lemma MergedAtoms(a: Timestamped, b: Timestamped)
    requires CanMerge(a.event, b.event)
    ensures Atoms(Merged(a, b).event) == Atoms(a.event) + Atoms(b.event)
  {
  }

  lemma {:induction false} JoinsIsFlat(group: seq<Timestamped>, e: Timestamped)
    requires Joins(group, e)
    ensures Atoms(e.event) == Flat(group)
    decreases |group|
  {
    if |group| == 1 {
      assert group[..0] == [];
      assert Flat(group) == Flat([]) + Atoms(e.event);
    } else {
      var last := group[|group| - 1];
      var front: Timestamped :| Joins(group[..|group| - 1], front)
                                && CanMerge(front.event, last.event) && e == Merged(front, last);
      JoinsIsFlat(group[..|group| - 1], front);
      MergedAtoms(front, last);
    }
  }

  lemma {:induction false} FlatConcat(a: seq<Timestamped>, b: seq<Timestamped>)
    ensures Flat(a + b) == Flat(a) + Flat(b)
    decreases |b|
  {
    if b == [] {
      assert a + b == a;
    } else {
      var front, last, c := b[..|b| - 1], b[|b| - 1], a + b;
      FlatConcat(a, front);
      assert c[..|c| - 1] == a + front && c[|c| - 1] == last;
      Assoc(Flat(a), Flat(front), Atoms(last.event));
    }
  }

  lemma FlatSplit(accepted: seq<Timestamped>, n: nat)
    requires n <= |accepted|
    ensures Flat(accepted) == Flat(accepted[..n]) + Flat(accepted[n..])
  {
    hide Flat;
    FlatConcat(accepted[..n], accepted[n..]);
    assert accepted == accepted[..n] + accepted[n..];
  }

  lemma NoGroup(accepted: seq<Timestamped>)
    requires Coalesces([], accepted)
    ensures accepted == []
  {
  }

  lemma LastGroup(journal: seq<Timestamped>, accepted: seq<Timestamped>) returns (n: nat)
    requires Coalesces(journal, accepted) && journal != []
    ensures n <= |accepted|
    ensures Joins(accepted[n..], journal[|journal| - 1])
    ensures Coalesces(journal[..|journal| - 1], accepted[..n])
  {
    n :| n <= |accepted| && Joins(accepted[n..], journal[|journal| - 1])
         && Coalesces(journal[..|journal| - 1], accepted[..n]);
  }

  /** Coalescing loses, adds and reorders nothing a reader can see. */
  lemma {:induction false} CoalescesIsFlat(journal: seq<Timestamped>, accepted: seq<Timestamped>)
    requires Coalesces(journal, accepted)
    ensures Flat(journal) == Flat(accepted)
    decreases |journal|
  {
    hide Coalesces, Joins;
    if journal == [] {
      NoGroup(accepted);
    } else {
      var n := LastGroup(journal, accepted);
      JoinsIsFlat(accepted[n..], journal[|journal| - 1]);
      CoalescesIsFlat(journal[..|journal| - 1], accepted[..n]);
      FlatSplit(accepted, n);
    }
  }

  /** In every reachable state, failed ones included, the journal is a faithful prefix. */
  lemma JournalIsFaithful(steps: seq<Step>)
    ensures var s := Run(Init(), steps);
            && s.written <= |s.taken| && s.taken <= s.sent
            && (!s.stopped ==> s.sent == s.taken + Unhandled(s))
            && Coalesces(s.journal, EventsOf(s.taken[..s.written]))
            && Flat(s.journal) == Flat(EventsOf(s.taken[..s.written]))
            && s.published <= s.journal
            && (!s.failed && !s.stopped ==> s.published == s.journal)
  {
    Reachable(steps);
    var s := Run(Init(), steps);
    CoalescesIsFlat(s.journal, EventsOf(s.taken[..s.written]));
  }

  /** A barrier gets exactly one answer: Ok if and only if everything up to it is durable. */
  lemma BarrierAnswer(s: State, env: Env)
    requires Inv(s) && !s.stopped && s.busy.Some? && !s.busy.value.Append?
    ensures var t := Next(s, Finish(env));
            t.replies == s.replies + [Reply(s.busy.value.waiter, t.written == |t.taken|)]
  {
    hide Coalesces, EventsOf, Joins, Permits;
    var rest := s.(busy := None);
    if !s.failed {
      FlushKeeps(rest, env);
    }
  }

  /** While a command waits for the batch ahead, the only answer it can get is the failure. */
  lemma WaitingAnswer(s: State, env: Env)
    requires Inv(s) && !s.stopped && s.busy.Some?
    ensures var t := Next(s, FlushAhead(env));
            if t.busy.Some? then t.busy == s.busy && t.replies == s.replies && t.taken == s.taken
            else
              && t.taken == s.taken + [s.busy.value] && t.written < |t.taken|
              && (t.failed || t.stopped)
              && t.replies == s.replies + match s.busy.value {
                                            case Append(_, _, None) => []
                                            case Append(_, _, Some(caller)) => [Reply(caller, false)]
                                            case Save(_, _, waiter) => [Reply(waiter, false)]
                                            case Flush(waiter) => [Reply(waiter, false)]
                                          }
  {
    hide Coalesces, EventsOf, Joins, Permits;
    if !s.failed {
      FlushKeeps(s, env);
    }
  }

  /** An Ok Save or Flush means every command sent before it is in the journal for good. */
  lemma BarrierIsDurable(steps: seq<Step>, env: Env, more: seq<Step>)
    requires var s := Run(Init(), steps); !s.stopped && s.busy.Some? && !s.busy.value.Append?
    requires var s := Run(Init(), steps);
             Next(s, Finish(env)).replies == s.replies + [Reply(s.busy.value.waiter, true)]
    ensures var s := Run(Init(), steps);
            var t := Next(s, Finish(env));
            && t.taken == s.taken + [s.busy.value] && t.taken <= t.sent
            && Coalesces(t.journal, EventsOf(t.taken))
            && t.journal <= Run(t, more).journal
  {
    hide Coalesces, Joins, Permits, EventsOf, Run, Init, Next, Receive;
    Reachable(steps);
    var s := Run(Init(), steps);
    var t := Next(s, Finish(env));
    BarrierAnswer(s, env);
    FinishIs(s, env);
    ReceiveKeeps(s, env);
    assert t.replies[|s.replies|] == Reply(s.busy.value.waiter, true);
    assert t.taken[..|t.taken|] == t.taken;
    NextKeeps(s, Finish(env));
    RunKeeps(t, more);
  }

  lemma FinishIs(s: State, env: Env)
    requires !s.stopped && s.busy.Some?
    ensures Next(s, Finish(env)) == Receive(s, env)
  {
  }

  /**
   An append is answered once. An Ok answer comes before the journal holds the event if and only if
   the event is a delta within the batch limit, and the command taken just before it appended a
   delta of the same stream; in every other case it is in the journal with everything before it.
   */
  lemma AppendAckDurability(steps: seq<Step>, env: Env)
    requires var s := Run(Init(), steps);
             !s.stopped && s.busy.Some? && s.busy.value.Append? && s.busy.value.caller.Some?
    ensures var s := Run(Init(), steps);
            var t := Next(s, Finish(env));
            var event, n := s.busy.value.event.event, |s.taken|;
            && |t.replies| == |s.replies| + 1
            && t.replies[..|s.replies|] == s.replies
            && t.replies[|s.replies|].caller == s.busy.value.caller.value
            && (t.replies[|s.replies|].ok ==>
                  (t.written < |t.taken| <==>
                   && event.Delta? && |event.text| <= 16 * 1024
                   && n > 0 && s.taken[n - 1].Append? && s.taken[n - 1].event.event.Delta?
                   && s.taken[n - 1].event.event.key == event.key))
            && (t.written == |t.taken| ==> Coalesces(t.journal, EventsOf(t.taken)))
  {
    hide Coalesces, EventsOf, Joins, Permits, Init, Run;
    Reachable(steps);
    var s := Run(Init(), steps);
    var rest := s.(busy := None);
    ReceiveKeeps(s, env);
    var ok := AppendAnswer(s, env);
    var t := Next(s, Finish(env));
    assert t.taken[..|t.taken|] == t.taken;
  }

  /** What one append gets to hear, and when a batch takes its event. */
  lemma AppendAnswer(s: State, env: Env) returns (ok: bool)
    requires Inv(s) && !s.stopped && s.busy.Some? && s.busy.value.Append?
    requires s.busy.value.caller.Some?
    ensures var t := Next(s, Finish(env));
            && t.replies == s.replies + [Reply(s.busy.value.caller.value, ok)]
            && t.written <= |t.taken|
            && (ok ==> (t.written < |t.taken| <==> Batches(s.taken, s.busy.value.event.event)))
  {
    hide Coalesces, EventsOf, Joins, Permits, ReceiveAppend;
    var rest := s.(busy := None);
    if s.failed {
      ok := false;
    } else {
      ok := AppendReceived(rest, s.busy.value, env);
    }
  }

  /** The event is a delta within the limit, and continues the stream of the last command. */
  predicate Batches(taken: seq<Command>, event: Event) {
    event.Delta? && |event.text| <= 16 * 1024 && LastStream(taken) == Some(event.key)
  }

  lemma AppendReceived(s: State, c: Command, env: Env) returns (ok: bool)
    requires Logged(s) && s.busy.None? && !s.failed && !s.stopped && c.Append? && c.caller.Some?
    ensures var t := ReceiveAppend(s, c, env);
            && t.replies == s.replies + [Reply(c.caller.value, ok)]
            && t.written <= |t.taken|
            && (ok ==> (t.written < |t.taken| <==> Batches(s.taken, c.event.event)))
  {
    hide Coalesces, EventsOf, Joins, Permits;
    if s.pending.Some? && CanMerge(s.pending.value.event.event, c.event.event) {
      ok := true;
    } else {
      FlushKeeps(s, env);
      var (f, flushed) := FlushStream(s, env);
      ok := flushed && (StartsBatch(f.lastStream, c.event.event) || env.writes);
    }
  }

  /** Whether the pending batch takes the event in: one stream, and a joined text within the limit. */
  predicate TakesIn(pending: Option<Batch>, event: Event) {
    && pending.Some? && pending.value.event.event.Delta? && event.Delta?
    && pending.value.event.event.key == event.key
    && |pending.value.event.event.text| + |event.text| <= 16 * 1024
  }

  /**
   When finishing a command ends the loop: a flush that finds or meets a failure, a save that is not
   written or not wholly published, and an append that fails before its caller was answered.
   */
  lemma LoopEnds(s: State, env: Env)
    requires Inv(s) && !s.stopped && s.busy.Some?
    ensures var c := s.busy.value;
            var flushFails := s.pending.Some? && !(c.Append? && TakesIn(s.pending, c.event.event))
                              && !(env.flushWrites && env.flushSends);
            Next(s, Finish(env)).stopped <==>
            if s.failed || flushFails then c.Flush?
            else
              match c
              case Append(event, _, caller) =>
                && caller.Some? && !Batches(s.taken, event.event)
                && !(env.writes && env.sends > 0)
              case Save(events, _, _) => !(env.writes && env.sends >= |events|)
              case Flush(_) => false
  {
    hide Coalesces, EventsOf, Joins, Permits;
    var c, rest := s.busy.value, s.(busy := None);
    if !s.failed {
      FlushKeeps(rest, env);
      if c.Append? {
        BatchTakes(s, c.event.event);
      }
    }
  }

  /** A batch only takes in what continues its stream. */
  lemma BatchTakes(s: State, event: Event)
    requires Logged(s) && !s.failed && !s.stopped
    ensures TakesIn(s.pending, event) ==> Batches(s.taken, event)
    ensures Batches(s.taken, event) <==> StartsBatch(s.lastStream, event)
    ensures TakesIn(s.pending, event) <==> s.pending.Some? && CanMerge(s.pending.value.event.event, event)
  {
    hide Coalesces, EventsOf, Joins, Permits;
  }

  /** The end of the channel writes the batch that is left, if the store still takes it. */
  lemma ShutdownFlushes(s: State, env: Env)
    requires Inv(s) && !s.stopped && !s.failed && s.busy.None? && s.queue == s.waiting == []
    ensures var t := Next(s, Shutdown(env));
            && t.stopped && t.pending.None? && t.replies == s.replies
            && (s.pending.None? || env.flushWrites ==>
                  t.written == |t.taken| && Coalesces(t.journal, EventsOf(s.sent)))
  {
    hide Coalesces, EventsOf, Joins;
    FlushKeeps(s, env);
    assert s.taken[..|s.taken|] == s.taken == s.sent;
  }

  /** One command goes from its caller into the channel and through the loop. */
  lemma RanCommand(steps: seq<Step>, s: State, c: Command, env: Env) returns (more: seq<Step>)
    requires s == Run(Init(), steps) && s.waiting == s.queue == [] && s.busy.None? && !s.stopped
    requires Permit(c) <= s.available && Permit(c) <= EVENT_BYTE_BUDGET
    ensures Run(Init(), more) == Receive(s.(
                                         available := s.available - Permit(c),
                                         sent := s.sent + [c], busy := Some(c)), env)
  {
    hide Run, Permits, Receive;
    var reserved := Ran(steps, s, Reserve(c));
    var sent := Ran(reserved, Run(Init(), reserved), Send(0));
    var taken := Ran(sent, Run(Init(), sent), Take);
    more := Ran(taken, Run(Init(), taken), Finish(env));
  }

  /** An acknowledgement alone is no promise: this delta is acknowledged and then lost. */
  lemma AcknowledgedDeltaCanBeLost()
    ensures exists steps: seq<Step> ::
              var s := Run(Init(), steps);
              s.replies == [Reply(0, true), Reply(1, true)] && s.failed && |s.journal| == 1
  {
    hide Run, Permits;
    var key := StreamKey(None, "session", "turn", "step", Final);
    var event := Timestamped(0, Delta(key, [97]));
    var good, bad := Env(true, true, true, 1), Env(false, false, false, 0);
    RanNothing();
    var first := RanCommand([], Init(), Append(event, 1, Some(0)), good);
    var second := RanCommand(first, Run(Init(), first), Append(event, 1, Some(1)), good);
    var lost := Ran(second, Run(Init(), second), Timer(bad));
  }

  lemma RanNothing()
    ensures Run(Init(), []) == Init()
  {
  }

  lemma Ran(steps: seq<Step>, s: State, last: Step) returns (more: seq<Step>)
    requires s == Run(Init(), steps)
    ensures more == steps + [last] && Run(Init(), more) == Next(s, last)
  {
    more := steps + [last];
    assert more[..|steps|] == steps;
  }

  /** After a failure a step answers no one with Ok. */
  lemma FailedAnswers(s: State, step: Step)
    requires Inv(s) && (s.failed || s.stopped)
    ensures var t := Next(s, step);
            s.replies <= t.replies && forall i :: |s.replies| <= i < |t.replies| ==> !t.replies[i].ok
  {
    hide Coalesces, EventsOf, Joins, Permits, Healthy;
  }

  /** A failure is final: no write, no publication and no Ok answer ever follows it. */
  lemma {:induction false} FailureIsSticky(s: State, steps: seq<Step>)
    requires Inv(s) && (s.failed || s.stopped)
    ensures var t := Run(s, steps);
            && t.pending.None? && (t.failed || t.stopped)
            && t.journal == s.journal && t.published == s.published
            && s.replies <= t.replies
            && forall i :: |s.replies| <= i < |t.replies| ==> !t.replies[i].ok
    decreases |steps|
  {
    hide Coalesces, EventsOf, Joins, Permits, Next;
    RunKeeps(s, steps);
    if steps != [] {
      var front := steps[..|steps| - 1];
      FailureIsSticky(s, front);
      RunKeeps(s, front);
      FailedAnswers(Run(s, front), steps[|steps| - 1]);
    }
  }

  /**
   No permit is lost and none comes back early: while nothing failed, the permits not free are
   those of commands waiting, in the channel, in progress, or handled and not yet written.
   */
  lemma PermitsConserved(steps: seq<Step>)
    ensures var s := Run(Init(), steps);
            && Accounted(s) == 8 * 1024 * 1024 && |s.queue| <= 512 && s.written <= |s.taken|
            && (!s.failed && !s.stopped ==>
                  s.available + Permits(s.waiting) + Permits(Unhandled(s))
                  + Permits(s.taken[s.written..]) == EVENT_BYTE_BUDGET)
            && (s.pending.Some? ==>
                  && s.written < |s.taken|
                  && s.pending.value.permit == Permits(s.taken[s.written..])
                  && s.pending.value.event.event.Delta?
                  && |s.pending.value.event.event.text| <= STREAM_BATCH_BYTES)
  {
    Reachable(steps);
  }
}
