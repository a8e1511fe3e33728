/**
 Sequenced submissions: many senders, one receiver.

 A sender holds the sequence mutex while it puts a submission into the channel and then
 publishes its sequence; the receiver can take the submission between the two. The
 receiver reads the published sequence as a cutoff and drains up to it.
 */
module Ingress {
  import opened Wrappers

  const MAX_SEQUENCE: nat := 0xFFFF_FFFF_FFFF_FFFF

  datatype Op = Interrupt(turn: string) | Message(text: string) | OtherOp

  datatype Submission = Submission(id: string, op: Op)

  datatype Sequenced = Sequenced(sequence: nat, submission: Submission)

  /** `log` is history: every submission ever put into the channel. */
  datatype Channel = Channel(
    capacity: nat,
    queue: seq<Sequenced>,
    lastSent: nat,
    unpublished: Option<nat>,
    received: nat,
    log: seq<Submission>)

  datatype Sent = Queued | Busy | Locked

  function Open(capacity: nat): Channel {
    Channel(capacity, [], 0, None, 0, [])
  }

  /** The first half of an enqueue: `Locked` when another sender holds the mutex. */
  function TrySend(c: Channel, s: Submission): (Channel, Sent) {
    if c.unpublished.Some? then (c, Locked)
    else if c.lastSent == MAX_SEQUENCE || |c.queue| >= c.capacity then (c, Busy)
    else
      (c.(queue := c.queue + [Sequenced(c.lastSent + 1, s)],
       unpublished := Some(c.lastSent + 1), log := c.log + [s]), Queued)
  }

  /** The second half: stores the sequence and releases the mutex. */
  function Publish(c: Channel): Channel {
    match c.unpublished
    case None => c
    case Some(sequence) => c.(lastSent := sequence, unpublished := None)
  }

  function Receive(c: Channel): Channel
    requires c.queue != []
  {
    c.(queue := c.queue[1..], received := c.queue[0].sequence)
  }

  datatype Step = Send(submission: Submission) | Release | Take

  function Next(c: Channel, step: Step): Channel {
    match step
    case Send(s) => TrySend(c, s).0
    case Release => Publish(c)
    case Take => if c.queue == [] then c else Receive(c)
  }

  function Run(c: Channel, steps: seq<Step>): Channel
    decreases |steps|
  {
    if steps == [] then c else Next(Run(c, steps[..|steps| - 1]), steps[|steps| - 1])
  }

  /** A send is refused while another one is unpublished, and by a full channel or sequence alone. */
  lemma SendIsQueued(c: Channel, s: Submission)
    requires Inv(c)
    ensures TrySend(c, s).1 == Locked <==> c.unpublished.Some?
    ensures TrySend(c, s).1 == Queued <==>
            c.unpublished.None? && c.lastSent < 0xFFFF_FFFF_FFFF_FFFF && |c.queue| < c.capacity
    ensures TrySend(c, s).1 != Queued ==> TrySend(c, s).0 == c
    ensures TrySend(c, s).1 == Queued ==>
              var next := TrySend(c, s).0;
              && next.log == c.log + [s] && next.queue == c.queue + [Sequenced(|next.log|, s)]
              && next.unpublished == Some(|next.log|) && next.received == c.received
              && Publish(next).lastSent == |next.log| && Publish(next).unpublished.None?
  {
  }

  /** Sequences are consecutive: the channel holds exactly the log entries not yet received. */
  ghost predicate Inv(c: Channel) {
    && c.received <= |c.log| == c.lastSent + (if c.unpublished.Some? then 1 else 0) <= MAX_SEQUENCE
    && (c.unpublished.Some? ==> c.unpublished.value == c.lastSent + 1)
    && |c.queue| == |c.log| - c.received <= c.capacity
    && forall i :: 0 <= i < |c.queue| ==>
                     c.queue[i] == Sequenced(c.received + i + 1, c.log[c.received + i])
  }

  lemma NextKeeps(c: Channel, step: Step)
    requires Inv(c)
    ensures Inv(Next(c, step)) && c.log <= Next(c, step).log
    ensures !step.Take? ==> Next(c, step).received == c.received
    ensures step.Take? && c.queue != [] ==> Next(c, step).received == c.received + 1
  {
  }

  lemma {:induction false} RunKeeps(c: Channel, steps: seq<Step>)
    requires Inv(c)
    ensures Inv(Run(c, steps)) && c.log <= Run(c, steps).log
    ensures c.received <= Run(c, steps).received
    decreases |steps|
  {
    if steps != [] {
      RunKeeps(c, steps[..|steps| - 1]);
      NextKeeps(Run(c, steps[..|steps| - 1]), steps[|steps| - 1]);
    }
  }

  /**
   A cutoff read under the mutex covers every submission sent so far, and until it is reached
   the channel holds the very next one, whatever senders and the receiver do in between.
   */
  lemma CutoffIsReachable(capacity: nat, before: seq<Step>, after: seq<Step>)
    requires Run(Open(capacity), before).unpublished.None?
    ensures var cutoff := Run(Open(capacity), before).lastSent;
            var now := Run(Run(Open(capacity), before), after);
            && cutoff == |Run(Open(capacity), before).log|
            && (now.received < cutoff ==>
                  && now.queue != [] && now.received < |now.log|
                  && now.queue[0] == Sequenced(now.received + 1, now.log[now.received])
                  && Receive(now).received == now.received + 1)
  {
    RunKeeps(Open(capacity), before);
    RunKeeps(Run(Open(capacity), before), after);
  }

  /** The receiver can overtake the second half of an enqueue, by one submission at most. */
  lemma ReceiverOvertakesPublication(capacity: nat, steps: seq<Step>)
    ensures var c := Run(Open(capacity), steps);
            && c.received <= c.lastSent + 1
            && (c.received == c.lastSent + 1 ==> c.unpublished == Some(c.received) && c.queue == [])
  {
    RunKeeps(Open(capacity), steps);
  }

  // ---------- the receiver's loops ----------

  /** What routing one submission does; a matching interrupt is decided by the turn alone. */
  datatype Routed = Continue(inputChanged: bool) | RouteFailed

  datatype Drain = Drained(inputChanged: bool) | Interrupted(id: string) | DrainFailed

  datatype Wait = Ready(changed: bool) | WaitInterrupted(submission: string) | WaitFailed | Waiting

  /** No submission in the range interrupts the turn and all of them are routed. */
  ghost predicate Clean(log: seq<Submission>, routing: nat -> Routed, from: nat, to: nat, turn: string)
  {
    from <= to <= |log|
    && forall i :: from <= i < to ==> log[i].op != Interrupt(turn) && routing(i).Continue?
  }

  ghost predicate Changed(routing: nat -> Routed, from: nat, to: nat) {
    exists i :: from <= i < to && routing(i) == Continue(true)
  }

  /** A range routed without interruption, and whether it changed the input. */
  ghost predicate Passed(log: seq<Submission>, routing: nat -> Routed, from: nat, to: nat,
                         turn: string, changed: bool)
  {
    Clean(log, routing, from, to, turn) && changed == Changed(routing, from, to)
  }

  /** The submission before `to` stops the turn or fails, and everything before it passed. */
  ghost predicate Halted(log: seq<Submission>, routing: nat -> Routed, from: nat, to: nat,
                         turn: string, interrupt: Option<string>)
  {
    && from < to <= |log|
    && Clean(log, routing, from, to - 1, turn)
    && match interrupt
       case Some(id) => log[to - 1] == Submission(id, Interrupt(turn))
       case None => log[to - 1].op != Interrupt(turn) && routing(to - 1) == RouteFailed
  }

  lemma PassedNothing(log: seq<Submission>, routing: nat -> Routed, at: nat, turn: string)
    requires at <= |log|
    ensures Passed(log, routing, at, at, turn, false)
  {
  }

  lemma PassedJoins(log: seq<Submission>, more: seq<Submission>, routing: nat -> Routed,
                    from: nat, mid: nat, to: nat, turn: string, first: bool, second: bool)
    requires log <= more
    requires Passed(log, routing, from, mid, turn, first)
    requires Passed(more, routing, mid, to, turn, second)
    ensures Passed(more, routing, from, to, turn, first || second)
  {
  }

  lemma HaltedJoins(log: seq<Submission>, more: seq<Submission>, routing: nat -> Routed,
                    from: nat, mid: nat, to: nat, turn: string, first: bool, interrupt: Option<string>)
    requires log <= more
    requires Passed(log, routing, from, mid, turn, first)
    requires Halted(more, routing, mid, to, turn, interrupt)
    ensures Halted(more, routing, from, to, turn, interrupt)
  {
  }

  /** Submission `k` interrupts the turn, and nothing from `from` on stops the receiver before it. */
  ghost predicate FirstInterrupt(log: seq<Submission>, routing: nat -> Routed, from: nat, k: nat,
                                 turn: string)
  {
    && from <= k < |log| && log[k].op == Interrupt(turn)
    && forall i :: from <= i < k ==> log[i].op != Interrupt(turn) && routing(i).Continue?
  }

  /**
   What a receiver may say of the submissions from `from` to `to`: none but the one it stopped at
   interrupts the turn, and the first interrupt that nothing came before is the one it reports.
   */
  ghost predicate Verdict(log: seq<Submission>, routing: nat -> Routed, from: nat, to: nat,
                          turn: string, stopped: bool, interrupt: Option<string>)
  {
    && from <= to <= |log| && (stopped ==> from < to)
    && (forall i :: from <= i < (if stopped then to - 1 else to) ==> log[i].op != Interrupt(turn))
    && (interrupt.Some? <==> stopped && log[to - 1].op == Interrupt(turn))
    && (interrupt.Some? ==> log[to - 1].id == interrupt.value)
    && (forall k: nat :: FirstInterrupt(log, routing, from, k, turn) && (stopped || k < to) ==>
                           to == k + 1 && interrupt == Some(log[k].id))
  }

  lemma PassedVerdict(log: seq<Submission>, routing: nat -> Routed, from: nat, to: nat,
                      turn: string, changed: bool)
    requires Passed(log, routing, from, to, turn, changed)
    ensures Verdict(log, routing, from, to, turn, false, None)
  {
  }

  lemma HaltedVerdict(log: seq<Submission>, routing: nat -> Routed, from: nat, to: nat,
                      turn: string, interrupt: Option<string>)
    requires Halted(log, routing, from, to, turn, interrupt)
    ensures Verdict(log, routing, from, to, turn, true, interrupt)
  {
    assert forall i :: from <= i < to - 1 ==> log[i].op != Interrupt(turn);
  }

  /** What a drain says in the end. */
  lemma DrainVerdict(log: seq<Submission>, routing: nat -> Routed, from: nat, to: nat,
                     turn: string, drain: Drain)
    requires match drain
             case Drained(changed) => Passed(log, routing, from, to, turn, changed)
             case Interrupted(id) => Halted(log, routing, from, to, turn, Some(id))
             case DrainFailed => Halted(log, routing, from, to, turn, None)
    ensures Verdict(log, routing, from, to, turn, !drain.Drained?,
                    if drain.Interrupted? then Some(drain.id) else None)
  {
    match drain
    case Drained(changed) => PassedVerdict(log, routing, from, to, turn, changed);
    case Interrupted(id) => HaltedVerdict(log, routing, from, to, turn, Some(id));
    case DrainFailed => HaltedVerdict(log, routing, from, to, turn, None);
  }

  lemma WaitVerdict(log: seq<Submission>, routing: nat -> Routed, from: nat, to: nat,
                    turn: string, wait: Wait, changed: bool)
    requires match wait
             case Ready(more) => Passed(log, routing, from, to, turn, more)
             case WaitInterrupted(id) => Halted(log, routing, from, to, turn, Some(id))
             case WaitFailed => Halted(log, routing, from, to, turn, None)
             case Waiting => Passed(log, routing, from, to, turn, changed)
    ensures Verdict(log, routing, from, to, turn, wait.WaitInterrupted? || wait.WaitFailed?,
                    if wait.WaitInterrupted? then Some(wait.submission) else None)
  {
    match wait
    case Ready(more) => PassedVerdict(log, routing, from, to, turn, more);
    case WaitInterrupted(id) => HaltedVerdict(log, routing, from, to, turn, Some(id));
    case WaitFailed => HaltedVerdict(log, routing, from, to, turn, None);
    case Waiting => PassedVerdict(log, routing, from, to, turn, changed);
  }

  class Inbox {
    var channel: Channel
    /** The outcome of routing the submission at each log position. */
    const routing: nat -> Routed

    constructor (channel: Channel, routing: nat -> Routed)
      ensures this.channel == channel && this.routing == routing
    {
      this.channel := channel;
      this.routing := routing;
    }

    /** Any activity of other tasks: sends and publications in any order. */
    method Others()
      requires Inv(channel)
      modifies this
      ensures Inv(channel) && old(channel.log) <= channel.log
      ensures channel.received == old(channel.received)
    {
      var rounds: nat := *;
      var i := 0;
      while i < rounds
        invariant Inv(channel) && old(channel.log) <= channel.log
        invariant channel.received == old(channel.received)
      {
        var s: Submission := *;
        var send: bool := *;
        NextKeeps(channel, if send then Send(s) else Release);
        channel := Next(channel, if send then Send(s) else Release);
        i := i + 1;
      }
    }

    /** Waits for the mutex, which its holder releases by publishing. */
    method Cutoff() returns (cutoff: nat)
      requires Inv(channel)
      modifies this
      ensures Inv(channel) && old(channel.log) <= channel.log
      ensures channel.received == old(channel.received)
      ensures cutoff == channel.lastSent == |channel.log| >= channel.received
    {
      Others();
      NextKeeps(channel, Release);
      channel := Publish(channel);
      cutoff := channel.lastSent;
    }

    /** What the receiver said of everything received since `from`. */
    ghost predicate Says(from: nat, turn: string, stopped: bool, interrupt: Option<string>)
      reads this
    {
      Verdict(channel.log, routing, from, channel.received, turn, stopped, interrupt)
    }

    /** Receives the submission that is already in the channel and routes it. */
    method RouteNext(turn: string) returns (drain: Drain)
      requires Inv(channel) && channel.queue != []
      modifies this
      ensures Inv(channel) && channel.log == old(channel.log)
      ensures channel.received == old(channel.received) + 1
      ensures match drain
              case Drained(changed) =>
                Passed(channel.log, routing, old(channel.received), channel.received, turn, changed)
              case Interrupted(id) =>
                Halted(channel.log, routing, old(channel.received), channel.received, turn, Some(id))
              case DrainFailed =>
                Halted(channel.log, routing, old(channel.received), channel.received, turn, None)
      ensures var s := channel.log[old(channel.received)];
              && (s.op == Op.Interrupt(turn) <==> drain.Interrupted?)
              && (drain.Interrupted? ==> drain.id == s.id)
    {
      var at := channel.received;
      var s := channel.queue[0].submission;
      channel := Receive(channel);
      if s.op.Interrupt? && s.op.turn == turn {
        return Interrupted(s.id);
      }
      match routing(at)
      case RouteFailed => return DrainFailed;
      case Continue(changed) => return Drained(changed);
    }

    /**
     Routes every submission up to the cutoff and never waits for one; stops at the first
     matching interrupt.
     */
    method DrainSubmissions(turn: string) returns (drain: Drain, ghost cutoff: nat)
      requires Inv(channel)
      modifies this
      ensures Inv(channel) && old(channel.log) <= channel.log
      ensures |old(channel.log)| <= cutoff <= |channel.log|
      ensures old(channel.received) <= channel.received <= cutoff
      ensures drain.Drained? ==> channel.received == cutoff
      ensures match drain
              case Drained(changed) =>
                Passed(channel.log, routing, old(channel.received), channel.received, turn, changed)
              case Interrupted(id) =>
                Halted(channel.log, routing, old(channel.received), channel.received, turn, Some(id))
              case DrainFailed =>
                Halted(channel.log, routing, old(channel.received), channel.received, turn, None)
      ensures Says(old(channel.received), turn, !drain.Drained?,
                   if drain.Interrupted? then Some(drain.id) else None)
    {
      hide Clean, Changed, Halted, Verdict;
      drain, cutoff := DrainTo(turn);
      DrainVerdict(channel.log, routing, old(channel.received), channel.received, turn, drain);
    }

    /** The loop of the drain. */
    method DrainTo(turn: string) returns (drain: Drain, ghost cutoff: nat)
      requires Inv(channel)
      modifies this
      ensures Inv(channel) && old(channel.log) <= channel.log
      ensures |old(channel.log)| <= cutoff <= |channel.log|
      ensures old(channel.received) <= channel.received <= cutoff
      ensures match drain
              case Drained(changed) =>
                && channel.received == cutoff
                && Passed(channel.log, routing, old(channel.received), channel.received, turn, changed)
              case Interrupted(id) =>
                Halted(channel.log, routing, old(channel.received), channel.received, turn, Some(id))
              case DrainFailed =>
                Halted(channel.log, routing, old(channel.received), channel.received, turn, None)
    {
      hide Clean, Changed;
      var limit := Cutoff();
      cutoff := limit;
      var changed := false;
      PassedNothing(channel.log, routing, channel.received, turn);
      while channel.received < limit
        invariant Inv(channel) && old(channel.log) <= channel.log
        invariant |old(channel.log)| <= limit <= |channel.log|
        invariant old(channel.received) <= channel.received <= limit
        invariant Passed(channel.log, routing, old(channel.received), channel.received, turn, changed)
        decreases limit - channel.received
      {
        ghost var log, mid := channel.log, channel.received;
        Others();
        var next := RouteNext(turn);
        match next {
          case Drained(more) =>
            PassedJoins(log, channel.log, routing, old(channel.received), mid, mid + 1,
                        turn, changed, more);
            changed := changed || more;
          case Interrupted(id) =>
            HaltedJoins(log, channel.log, routing, old(channel.received), mid, mid + 1,
                        turn, changed, Some(id));
            return next, cutoff;
          case DrainFailed =>
            HaltedJoins(log, channel.log, routing, old(channel.received), mid, mid + 1,
                        turn, changed, None);
            return next, cutoff;
        }
      }
      return Drained(changed), cutoff;
    }

    /**
     Waits for a future while routing submissions, for any finite number of wake-ups; others send
     at any time. Ready means that exactly the submissions up to the final cutoff were received,
     that no matching interrupt is among them, and that the cutoff covers everything sent before
     the future was seen ready.
     */
    method WaitActive(turn: string, wakeups: nat)
      returns (wait: Wait, ghost readyAt: nat, ghost cutoff: nat)
      requires Inv(channel)
      modifies this
      ensures Inv(channel) && old(channel.log) <= channel.log
      ensures old(channel.received) <= channel.received
      ensures match wait
              case Ready(changed) =>
                && |old(channel.log)| <= readyAt <= cutoff == channel.received
                && Passed(channel.log, routing, old(channel.received), channel.received, turn, changed)
              case WaitInterrupted(id) =>
                Halted(channel.log, routing, old(channel.received), channel.received, turn, Some(id))
              case WaitFailed =>
                Halted(channel.log, routing, old(channel.received), channel.received, turn, None)
              case Waiting => Clean(channel.log, routing, old(channel.received), channel.received, turn)
      ensures Says(old(channel.received), turn, wait.WaitInterrupted? || wait.WaitFailed?,
                   if wait.WaitInterrupted? then Some(wait.submission) else None)
      ensures wakeups > 0 ==> wait.WaitInterrupted? || wait.WaitFailed? || |old(channel.log)| <= channel.received
    {
      hide Clean, Changed, Halted, Verdict;
      ghost var passed;
      wait, readyAt, cutoff, passed := WaitFor(turn, wakeups);
      WaitVerdict(channel.log, routing, old(channel.received), channel.received, turn, wait, passed);
    }

    /** The loop of the wait; `passed` is whether what was received changed the input. */
    method WaitFor(turn: string, wakeups: nat)
      returns (wait: Wait, ghost readyAt: nat, ghost cutoff: nat, ghost passed: bool)
      requires Inv(channel)
      modifies this
      ensures Inv(channel) && old(channel.log) <= channel.log
      ensures old(channel.received) <= channel.received
      ensures match wait
              case Ready(changed) =>
                && |old(channel.log)| <= readyAt <= cutoff == channel.received
                && Passed(channel.log, routing, old(channel.received), channel.received, turn, changed)
              case WaitInterrupted(id) =>
                Halted(channel.log, routing, old(channel.received), channel.received, turn, Some(id))
              case WaitFailed =>
                Halted(channel.log, routing, old(channel.received), channel.received, turn, None)
              case Waiting =>
                Passed(channel.log, routing, old(channel.received), channel.received, turn, passed)
      ensures wakeups > 0 ==> wait.WaitInterrupted? || wait.WaitFailed? || |old(channel.log)| <= channel.received
    {
      hide Clean, Changed;
      readyAt, cutoff, passed := 0, 0, false;
      var changed := false;
      var i := 0;
      PassedNothing(channel.log, routing, channel.received, turn);
      while i < wakeups
        invariant Inv(channel) && old(channel.log) <= channel.log
        invariant old(channel.received) <= channel.received
        invariant Passed(channel.log, routing, old(channel.received), channel.received, turn, changed)
        invariant i > 0 ==> |old(channel.log)| <= channel.received
      {
        wait, changed, cutoff := DrainAfter(turn, old(channel.received), changed);
        if !wait.Ready? {
          return;
        }
        ghost var before := channel.log;
        Others();
        PassedNothing(channel.log, routing, channel.received, turn);
        PassedJoins(before, channel.log, routing, old(channel.received), channel.received,
                    channel.received, turn, changed, false);
        var done: bool := *;
        if done {
          readyAt := |channel.log|;
          wait, changed, cutoff := DrainAfter(turn, old(channel.received), changed);
          return;
        }
        if channel.queue != [] {
          ghost var log, mid := channel.log, channel.received;
          var next := RouteNext(turn);
          match next {
            case Drained(more) =>
              PassedJoins(log, channel.log, routing, old(channel.received), mid, channel.received,
                          turn, changed, more);
              changed := changed || more;
            case Interrupted(id) =>
              HaltedJoins(log, channel.log, routing, old(channel.received), mid, channel.received,
                          turn, changed, Some(id));
              return WaitInterrupted(id), 0, 0, false;
            case DrainFailed =>
              HaltedJoins(log, channel.log, routing, old(channel.received), mid, channel.received,
                          turn, changed, None);
              return WaitFailed, 0, 0, false;
          }
        }
        i := i + 1;
      }
      return Waiting, 0, 0, changed;
    }

    /** One drain inside a wait that has passed everything since `from`. */
    method DrainAfter(turn: string, ghost from: nat, changed: bool)
      returns (wait: Wait, all: bool, ghost cutoff: nat)
      requires Inv(channel) && from <= channel.received
      requires Passed(channel.log, routing, from, channel.received, turn, changed)
      modifies this
      ensures Inv(channel) && old(channel.log) <= channel.log
      ensures old(channel.received) <= channel.received
      ensures match wait
              case Ready(more) =>
                && more == all && |old(channel.log)| <= cutoff == channel.received
                && Passed(channel.log, routing, from, channel.received, turn, more)
              case WaitInterrupted(id) =>
                Halted(channel.log, routing, from, channel.received, turn, Some(id))
              case WaitFailed =>
                Halted(channel.log, routing, from, channel.received, turn, None)
              case Waiting => false
    {
      hide Clean, Changed, Inv;
      ghost var log, mid := channel.log, channel.received;
      var drained;
      drained, cutoff := DrainSubmissions(turn);
      match drained
      case Drained(more) =>
        PassedJoins(log, channel.log, routing, from, mid, channel.received, turn, changed, more);
        return Ready(changed || more), changed || more, cutoff;
      case Interrupted(id) =>
        HaltedJoins(log, channel.log, routing, from, mid, channel.received, turn, changed, Some(id));
        return WaitInterrupted(id), changed, cutoff;
      case DrainFailed =>
        HaltedJoins(log, channel.log, routing, from, mid, channel.received, turn, changed, None);
        return WaitFailed, changed, cutoff;
    }
  }
}
