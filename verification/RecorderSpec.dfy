/**
 The event recorder as a state machine on values.

 Callers reserve byte permits, put commands into one bounded channel, and wait for a
 reply. One loop takes the commands in order, writes events to the checkpoint store,
 publishes them to the frontend, and batches adjacent deltas of one stream. A step
 carries the outcomes of the store and frontend calls it makes, so a run of steps is
 one possible execution.
 */
module RecorderSpec {
  import opened Sequences
  import opened Wrappers

  const EVENT_BYTE_BUDGET: nat := 8 * 1024 * 1024
  const COMMAND_CAPACITY: nat := 512
  const STREAM_BATCH_BYTES: nat := 16 * 1024

  newtype byte = b: int | 0 <= b < 256

  datatype Phase = Commentary | Final

  /** What two deltas must agree on to belong to one stream. */
  datatype StreamKey = StreamKey(
    submission: Option<string>, session: string, turn: string, modelStep: string, phase: Phase)

  datatype Event = Delta(key: StreamKey, text: seq<byte>) | Other(payload: int)

  datatype Timestamped = Timestamped(recordedAt: int, event: Event)

  datatype Command =
    | Append(event: Timestamped, permit: nat, caller: Option<nat>)
    | Save(events: seq<Timestamped>, permit: nat, waiter: nat)
    | Flush(waiter: nat)

  /** A stream batch: its caller was answered when the batch was admitted. */
  datatype Batch = Batch(event: Timestamped, permit: nat)

  datatype Reply = Reply(caller: nat, ok: bool)

  /** Outcomes met by one loop iteration: a batch flush, then the command's own write. */
  datatype Env = Env(flushWrites: bool, flushSends: bool, writes: bool, sends: nat)

  /**
   `sent`, `taken` and `written` are history: the commands put into the channel, the
   commands the loop took out, and how many of those are in the journal.
   */
  datatype State = State(
    available: nat,
    waiting: seq<Command>,
    queue: seq<Command>,
    busy: Option<Command>,
    pending: Option<Batch>,
    lastStream: Option<StreamKey>,
    failed: bool,
    stopped: bool,
    journal: seq<Timestamped>,
    published: seq<Timestamped>,
    replies: seq<Reply>,
    sent: seq<Command>,
    taken: seq<Command>,
    written: nat)

  function Init(): State {
    State(EVENT_BYTE_BUDGET, [], [], None, None, None, false, false, [], [], [], [], [], 0)
  }

  function Permit(c: Command): nat {
    match c
    case Append(_, permit, _) => permit
    case Save(_, permit, _) => permit
    case Flush(_) => 0
  }

  function Permits(cs: seq<Command>): nat {
    if cs == [] then 0 else Permits(cs[..|cs| - 1]) + Permit(cs[|cs| - 1])
  }

  function EventsIn(c: Command): seq<Timestamped> {
    match c
    case Append(event, _, _) => [event]
    case Save(events, _, _) => events
    case Flush(_) => []
  }

  /** The events of a command sequence, in channel order. */
  function EventsOf(cs: seq<Command>): seq<Timestamped> {
    if cs == [] then [] else EventsOf(cs[..|cs| - 1]) + EventsIn(cs[|cs| - 1])
  }

  function KeyOf(e: Event): Option<StreamKey> {
    match e
    case Delta(key, _) => Some(key)
    case Other(_) => None
  }

  predicate CanMerge(a: Event, b: Event) {
    a.Delta? && b.Delta? && a.key == b.key && |a.text| + |b.text| <= STREAM_BATCH_BYTES
  }

  function Merged(a: Timestamped, b: Timestamped): Timestamped
    requires CanMerge(a.event, b.event)
  {
    a.(event := Delta(a.event.key, a.event.text + b.event.text))
  }

  function Answer(s: State, caller: Option<nat>, ok: bool): State {
    match caller
    case None => s
    case Some(id) => s.(replies := s.replies + [Reply(id, ok)])
  }

  /** The loop returns: the receiver is dropped with every command still queued. */
  function Stop(s: State): State {
    s.(stopped := true, queue := [], available := s.available + Permits(s.queue))
  }

  /** Marks `c` as taken and gives its permit back once it is written or rejected. */
  function Done(s: State, c: Command): State {
    s.(taken := s.taken + [c], available := s.available + Permit(c))
  }

  function FlushStream(s: State, env: Env): (State, bool) {
    match s.pending
    case None => (s, true)
    case Some(batch) =>
      var released := s.(pending := None, available := s.available + batch.permit);
      if !env.flushWrites then (released, false)
      else
        (released.(
         journal := s.journal + [batch.event],
         published := if env.flushSends then s.published + [batch.event] else s.published,
         written := |s.taken|),
         env.flushSends)
  }

  function Reject(s: State, c: Command): State {
    match c
    case Append(_, _, caller) => Answer(s, caller, false)
    case Save(_, _, waiter) => Answer(s, Some(waiter), false)
    case Flush(waiter) => Stop(Answer(s, Some(waiter), false))
  }

  /** The batch ahead of `c` could not be flushed: `c` gets the failure, which then sticks. */
  function Refused(s: State, c: Command): State {
    var rejected := Reject(Done(s, c), c);
    if c.Flush? then rejected else rejected.(failed := true)
  }

  predicate StartsBatch(lastStream: Option<StreamKey>, e: Event) {
    e.Delta? && Some(e.key) == lastStream && |e.text| <= STREAM_BATCH_BYTES
  }

  function RecordAppend(s: State, c: Command, env: Env): State
    requires c.Append?
  {
    var t := Done(s, c).(lastStream := KeyOf(c.event.event));
    if !env.writes then
      var failed := Answer(t, c.caller, false).(failed := true);
      if c.caller.Some? then Stop(failed) else failed
    else
      var stored := t.(journal := s.journal + [c.event], written := |t.taken|);
      if env.sends == 0 then
        var failed := Answer(stored, c.caller, true).(failed := true);
        if c.caller.Some? then Stop(failed) else failed
      else
        Answer(stored.(published := s.published + [c.event]), c.caller, true)
  }

  function RecordSave(s: State, c: Command, env: Env): State
    requires c.Save?
  {
    var t := Done(s, c).(lastStream := None);
    if !env.writes then Stop(Answer(t, Some(c.waiter), false))
    else
      var sends := if env.sends < |c.events| then env.sends else |c.events|;
      var stored := Answer(t.(
          journal := s.journal + c.events,
          published := s.published + c.events[..sends],
          written := |t.taken|), Some(c.waiter), true);
      if sends < |c.events| then Stop(stored) else stored
  }

  function ReceiveAppend(s: State, c: Command, env: Env): State
    requires c.Append?
  {
    if s.pending.Some? && CanMerge(s.pending.value.event.event, c.event.event) then
      var batch := s.pending.value;
      Answer(s, c.caller, true).(
      taken := s.taken + [c],
      pending := Some(Batch(Merged(batch.event, c.event), batch.permit + c.permit)))
    else
      var (flushed, ok) := FlushStream(s, env);
      if !ok then Refused(flushed, c)
      else if StartsBatch(flushed.lastStream, c.event.event) then
        Answer(flushed, c.caller, true).(
        taken := s.taken + [c],
        pending := Some(Batch(c.event, c.permit)))
      else RecordAppend(flushed, c, env)
  }

  function ReceiveBarrier(s: State, c: Command, env: Env): State
    requires !c.Append?
  {
    var (flushed, ok) := FlushStream(s, env);
    if !ok then Refused(flushed, c)
    else if c.Save? then RecordSave(flushed, c, env)
    else
      Answer(Done(flushed, c).(lastStream := None, written := |s.taken| + 1), Some(c.waiter), true)
  }

  /** The loop takes the head of the channel, and holds its permit from now on. */
  function Begin(s: State): State
    requires s.queue != []
  {
    s.(busy := Some(s.queue[0]), queue := s.queue[1..])
  }

  predicate JoinsBatch(s: State, c: Command) {
    c.Append? && s.pending.Some? && CanMerge(s.pending.value.event.event, c.event.event)
  }

  /** The loop waits for the flush of the batch ahead of its command. */
  function Clear(s: State, env: Env): State
    requires s.busy.Some?
  {
    var (flushed, ok) := FlushStream(s, env);
    if ok then flushed else Refused(flushed.(busy := None), s.busy.value)
  }

  /** The loop finishes with its command. */
  function Receive(s: State, env: Env): State
    requires s.busy.Some?
  {
    var c, rest := s.busy.value, s.(busy := None);
    if s.failed then Reject(Done(rest, c), c)
    else if c.Append? then ReceiveAppend(rest, c, env)
    else ReceiveBarrier(rest, c, env)
  }

  /** The batch deadline passed. */
  function Tick(s: State, env: Env): State {
    var (flushed, ok) := FlushStream(s, env);
    flushed.(failed := !ok)
  }

  datatype Step =
    | Reserve(command: Command)
    | Send(index: nat)
    | Cancel(index: nat)
    | TryRecord(event: Timestamped, bytes: nat)
    | Take
    | FlushAhead(env: Env)
    | Finish(env: Env)
    | Timer(env: Env)
    | Shutdown(env: Env)

  /**
   One step of a caller or of the loop; a step that is blocked leaves the state alone. Handling a
   command is up to three steps, because callers act while the loop waits for the store.
   */
  function Next(s: State, step: Step): State {
    match step
    case Reserve(c) =>
      if Permit(c) > EVENT_BYTE_BUDGET || s.available < Permit(c) then s
      else s.(available := s.available - Permit(c), waiting := s.waiting + [c])
    case Send(i) =>
      if i >= |s.waiting| then s
      else if s.stopped then
        s.(waiting := Without(s.waiting, i), available := s.available + Permit(s.waiting[i]))
      else if |s.queue| >= COMMAND_CAPACITY then s
      else
        s.(waiting := Without(s.waiting, i),
        queue := s.queue + [s.waiting[i]], sent := s.sent + [s.waiting[i]])
    case Cancel(i) =>
      if i >= |s.waiting| then s
      else s.(waiting := Without(s.waiting, i), available := s.available + Permit(s.waiting[i]))
    case TryRecord(event, bytes) =>
      if bytes > EVENT_BYTE_BUDGET || s.available < bytes || s.stopped
         || |s.queue| >= COMMAND_CAPACITY then s
      else
        var c := Append(event, bytes, None);
        s.(available := s.available - bytes, queue := s.queue + [c], sent := s.sent + [c])
    case Take => if s.stopped || s.busy.Some? || s.queue == [] then s else Begin(s)
    case FlushAhead(env) =>
      if s.stopped || s.failed || s.busy.None? || JoinsBatch(s, s.busy.value) then s else Clear(s, env)
    case Finish(env) => if s.stopped || s.busy.None? then s else Receive(s, env)
    case Timer(env) => if s.stopped || s.busy.Some? || s.pending.None? then s else Tick(s, env)
    case Shutdown(env) =>
      if s.stopped || s.busy.Some? || s.queue != [] || s.waiting != [] then s
      else Stop(FlushStream(s, env).0)
  }

  function Run(s: State, steps: seq<Step>): State
    decreases |steps|
  {
    if steps == [] then s else Next(Run(s, steps[..|steps| - 1]), steps[|steps| - 1])
  }
}
