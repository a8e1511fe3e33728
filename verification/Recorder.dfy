/** The recorder loop and its ingress, updating their state in place. */
module Recorder {
  import opened RecorderSpec
  import opened Sequences
  import opened Wrappers
  import Proofs = RecorderProofs

  class EventRecorder {
    // Ingress: the byte semaphore, callers waiting for a channel slot, and the channel.
    var eventBytes: nat
    var waiting: seq<Command>
    var commands: seq<Command>
    // Loop state.
    var busy: Option<Command>
    var pending: Option<Batch>
    var lastStream: Option<StreamKey>
    var terminalError: bool
    var stopped: bool
    // The store, the frontend and the callers.
    var journal: seq<Timestamped>
    var published: seq<Timestamped>
    var replies: seq<Reply>
    // History.
    ghost var sent: seq<Command>
    ghost var taken: seq<Command>
    ghost var written: nat

    ghost function Now(): State
      reads this
    {
      State(eventBytes, waiting, commands, busy, pending, lastStream, terminalError, stopped,
            journal, published, replies, sent, taken, written)
    }

    constructor ()
      ensures Now() == Init()
    {
      eventBytes := EVENT_BYTE_BUDGET;
      waiting, commands, busy, pending, lastStream := [], [], None, None, None;
      terminalError, stopped := false, false;
      journal, published, replies := [], [], [];
      sent, taken, written := [], [], 0;
    }

    method Answer(caller: Option<nat>, ok: bool)
      modifies this
      ensures Now() == RecorderSpec.Answer(old(Now()), caller, ok)
    {
      if caller.Some? {
        replies := replies + [Reply(caller.value, ok)];
      }
    }

    method Release(c: Command)
      modifies this
      ensures Now() == Done(old(Now()), c)
    {
      taken := taken + [c];
      eventBytes := eventBytes + Permit(c);
    }

    method Stop()
      modifies this
      ensures Now() == RecorderSpec.Stop(old(Now()))
    {
      ghost var before := commands;
      ghost var free := eventBytes;
      while commands != []
        invariant commands <= before
        invariant eventBytes + Permits(commands) == free + Permits(before)
        invariant Now() == old(Now()).(queue := commands, available := eventBytes)
        decreases |commands|
      {
        var last := commands[|commands| - 1];
        eventBytes := eventBytes + Permit(last);
        commands := commands[..|commands| - 1];
      }
      stopped := true;
    }

    /** Appends to the pending batch in place; false when the command must not join it. */
    method Merge(c: Command) returns (merged: bool)
      requires c.Append?
      modifies this`pending
      ensures merged == Proofs.TakesIn(old(pending), c.event.event)
      ensures merged == (old(pending).Some?
                         && CanMerge(old(pending).value.event.event, c.event.event))
      ensures pending == if !merged then old(pending)
                         else
                           var held := old(pending).value;
                           Some(Batch(Timestamped(held.event.recordedAt,
                                                  Delta(c.event.event.key,
                                                        held.event.event.text + c.event.event.text)),
                                      held.permit + c.permit))
    {
      if pending.None? {
        return false;
      }
      var batch := pending.value;
      if !batch.event.event.Delta? || !c.event.event.Delta? {
        return false;
      }
      var held, next := batch.event.event, c.event.event;
      if held.key != next.key || |held.text| + |next.text| > STREAM_BATCH_BYTES {
        return false;
      }
      var joined := batch.event.(event := Delta(held.key, held.text + next.text));
      pending := Some(Batch(joined, batch.permit + c.permit));
      return true;
    }

    method FlushStream(env: Env) returns (ok: bool)
      modifies this
      ensures RecorderSpec.FlushStream(old(Now()), env) == (Now(), ok)
    {
      if pending.None? {
        return true;
      }
      var batch := pending.value;
      pending := None;
      eventBytes := eventBytes + batch.permit;
      if !env.flushWrites {
        return false;
      }
      journal := journal + [batch.event];
      written := |taken|;
      if env.flushSends {
        published := published + [batch.event];
      }
      return env.flushSends;
    }

    method Reject(c: Command)
      modifies this
      ensures Now() == RecorderSpec.Reject(old(Now()), c)
    {
      match c
      case Append(_, _, caller) => Answer(caller, false);
      case Save(_, _, waiter) => Answer(Some(waiter), false);
      case Flush(waiter) =>
        Answer(Some(waiter), false);
        Stop();
    }

    method RecordAppend(c: Command, env: Env)
      requires c.Append?
      modifies this
      ensures Now() == RecorderSpec.RecordAppend(old(Now()), c, env)
    {
      hide Permits, RecorderSpec.Stop;
      Release(c);
      lastStream := KeyOf(c.event.event);
      if !env.writes {
        Answer(c.caller, false);
        Fail(c.caller.Some?);
        return;
      }
      journal := journal + [c.event];
      written := |taken|;
      if env.sends > 0 {
        published := published + [c.event];
      }
      Answer(c.caller, true);
      if env.sends == 0 {
        Fail(c.caller.Some?);
      }
    }

    /** The failure sticks, and ends the loop when a caller was waiting. */
    method Fail(acknowledged: bool)
      modifies this
      ensures Now() == var failed := old(Now()).(failed := true);
                       if acknowledged then RecorderSpec.Stop(failed) else failed
    {
      terminalError := true;
      if acknowledged {
        Stop();
      }
    }

    /** Sends records one by one until the frontend is gone. */
    method PublishAll(records: seq<Timestamped>, sends: nat) returns (ok: bool)
      modifies this`published
      ensures ok == (sends >= |records|)
      ensures published == old(published) + records[..if ok then |records| else sends]
    {
      var i := 0;
      while i < |records|
        invariant i <= |records| && i <= sends
        invariant published == old(published) + records[..i]
      {
        if i == sends {
          return false;
        }
        published := published + [records[i]];
        i := i + 1;
      }
      return true;
    }

    method RecordSave(c: Command, env: Env)
      requires c.Save?
      modifies this
      ensures Now() == RecorderSpec.RecordSave(old(Now()), c, env)
    {
      hide Permits, RecorderSpec.Stop;
      Release(c);
      lastStream := None;
      if !env.writes {
        Answer(Some(c.waiter), false);
        Stop();
        return;
      }
      journal := journal + c.events;
      written := |taken|;
      var reached := PublishAll(c.events, env.sends);
      Answer(Some(c.waiter), true);
      if !reached {
        Stop();
      }
    }

    /** Takes the command at the head of the channel. */
    method Take()
      requires commands != []
      modifies this
      ensures Now() == Begin(old(Now()))
    {
      busy := Some(commands[0]);
      commands := commands[1..];
    }

    /** Refuses a command because the batch ahead of it could not be flushed. */
    method Refuse(c: Command)
      modifies this
      ensures Now() == Refused(old(Now()), c)
    {
      hide Permits;
      Release(c);
      Reject(c);
      if !c.Flush? {
        terminalError := true;
      }
    }

    /** Flushes the batch ahead of the command in progress. */
    method FlushAhead(env: Env)
      requires busy.Some?
      modifies this
      ensures Now() == Clear(old(Now()), env)
    {
      var flushed := FlushStream(env);
      if !flushed {
        var c := busy.value;
        busy := None;
        Refuse(c);
      }
    }

    /** Finishes one iteration of the loop with the command in progress. */
    method Receive(env: Env)
      requires busy.Some?
      modifies this
      ensures Now() == RecorderSpec.Receive(old(Now()), env)
    {
      var c := busy.value;
      busy := None;
      if terminalError {
        Release(c);
        Reject(c);
        return;
      }
      if c.Append? {
        ReceiveAppend(c, env);
      } else {
        ReceiveBarrier(c, env);
      }
    }

    method ReceiveAppend(c: Command, env: Env)
      requires c.Append?
      modifies this
      ensures Now() == RecorderSpec.ReceiveAppend(old(Now()), c, env)
    {
      hide Permits;
      var merged := Merge(c);
      if merged {
        taken := taken + [c];
        Answer(c.caller, true);
        return;
      }
      var flushed := FlushStream(env);
      if !flushed {
        Refuse(c);
      } else if StartsBatch(lastStream, c.event.event) {
        Answer(c.caller, true);
        taken := taken + [c];
        pending := Some(Batch(c.event, c.permit));
      } else {
        RecordAppend(c, env);
      }
    }

    method ReceiveBarrier(c: Command, env: Env)
      requires !c.Append?
      modifies this
      ensures Now() == RecorderSpec.ReceiveBarrier(old(Now()), c, env)
    {
      hide Permits;
      var flushed := FlushStream(env);
      if !flushed {
        Refuse(c);
      } else if c.Save? {
        RecordSave(c, env);
      } else {
        Release(c);
        lastStream := None;
        written := |taken|;
        Answer(Some(c.waiter), true);
      }
    }

    /** The batch deadline passed. */
    method Tick(env: Env)
      requires pending.Some?
      modifies this
      ensures Now() == RecorderSpec.Tick(old(Now()), env)
    {
      var flushed := FlushStream(env);
      terminalError := !flushed;
    }

    /** Acquires byte permits for a command that then waits for a channel slot. */
    method Reserve(c: Command)
      modifies this
      ensures Now() == Next(old(Now()), Step.Reserve(c))
      ensures var granted := Permit(c) <= 8 * 1024 * 1024 && Permit(c) <= old(eventBytes);
              && waiting == old(waiting) + (if granted then [c] else [])
              && eventBytes == old(eventBytes) - if granted then Permit(c) else 0
    {
      if Permit(c) <= EVENT_BYTE_BUDGET && Permit(c) <= eventBytes {
        eventBytes := eventBytes - Permit(c);
        waiting := waiting + [c];
      }
    }

    method Send(i: nat)
      requires i < |waiting|
      modifies this
      ensures Now() == Next(old(Now()), Step.Send(i))
      ensures var c := old(waiting)[i];
              if stopped then
                && waiting == old(waiting)[..i] + old(waiting)[i + 1..] && commands == old(commands)
                && eventBytes == old(eventBytes) + Permit(c)
              else if |old(commands)| >= 512 then Now() == old(Now())
              else
                && waiting == old(waiting)[..i] + old(waiting)[i + 1..]
                && commands == old(commands) + [c] && eventBytes == old(eventBytes)
    {
      var c := waiting[i];
      if stopped {
        waiting := Without(waiting, i);
        eventBytes := eventBytes + Permit(c);
      } else if |commands| < COMMAND_CAPACITY {
        waiting := Without(waiting, i);
        commands := commands + [c];
        sent := sent + [c];
      }
    }

    /** Never waits: refuses when the budget or the channel is full. */
    method TryRecord(event: Timestamped, bytes: nat) returns (ok: bool)
      modifies this
      ensures Now() == Next(old(Now()), Step.TryRecord(event, bytes))
      ensures ok <==> bytes <= 8 * 1024 * 1024 && bytes <= old(eventBytes) && !old(stopped)
                      && |old(commands)| < 512
      ensures ok ==> commands == old(commands) + [Append(event, bytes, None)]
      ensures eventBytes == old(eventBytes) - if ok then bytes else 0
      ensures !ok ==> Now() == old(Now())
    {
      if bytes > EVENT_BYTE_BUDGET || bytes > eventBytes {
        return false;
      }
      eventBytes := eventBytes - bytes;
      if stopped || |commands| >= COMMAND_CAPACITY {
        eventBytes := eventBytes + bytes;
        return false;
      }
      commands := commands + [Append(event, bytes, None)];
      sent := sent + [Append(event, bytes, None)];
      return true;
    }

    method Do(step: Step)
      modifies this
      ensures Now() == Next(old(Now()), step)
    {
      match step
      case Reserve(c) => Reserve(c);
      case Send(i) => if i < |waiting| { Send(i); }
      case Cancel(i) =>
        if i < |waiting| {
          eventBytes := eventBytes + Permit(waiting[i]);
          waiting := Without(waiting, i);
        }
      case TryRecord(event, bytes) => var _ := TryRecord(event, bytes);
      case Take => if !stopped && busy.None? && commands != [] { Take(); }
      case FlushAhead(env) =>
        if stopped || terminalError || busy.None? {
          return;
        }
        var joins := busy.value.Append? && pending.Some?
                     && CanMerge(pending.value.event.event, busy.value.event.event);
        if !joins { FlushAhead(env); }
      case Finish(env) => if !stopped && busy.Some? { Receive(env); }
      case Timer(env) => if !stopped && busy.None? && pending.Some? { Tick(env); }
      case Shutdown(env) =>
        if !stopped && busy.None? && commands == [] && waiting == [] {
          var _ := FlushStream(env);
          Stop();
        }
    }

    /** Any schedule of callers, deadlines and commands; the guarantees hold at its end. */
    method RunRecorder(script: seq<Step>)
      requires Now() == Init()
      modifies this
      ensures Now() == Run(Init(), script)
      ensures Proofs.Inv(Now())
    {
      var i := 0;
      while i < |script|
        invariant i <= |script|
        invariant Now() == Run(Init(), script[..i])
      {
        assert script[..i + 1][..i] == script[..i];
        Do(script[i]);
        i := i + 1;
      }
      assert script[..|script|] == script;
      Proofs.Reachable(script);
    }
  }
}
