/** Replacing large tool outputs in the event journal by references into the transcript. */
module EventDedup {
  import opened Json
  import opened Sequences
  import opened Wrappers

  const INLINE_LIMIT: nat := 4096

  /** What an event and a transcript item must agree on, exactly. */
  datatype Key = Key(callId: string, isError: bool, texts: seq<string>)

  /** One transcript row of a session: a batch of items saved under a sequence. */
  datatype Row = Row(sequence: nat, items: Json)

  datatype Position = Position(sequence: nat, index: nat)

  /** A transcript item with its position. */
  datatype Slot = Slot(at: Position, item: Json)

  const MESSAGE_FIELDS := {"type", "turn_id", "call_id", "name", "output", "is_error"}

  const REFERENCE_FIELDS := {
    "storage", "submission_id", "turn_id", "call_id", "name", "is_error",
    "transcript_sequence", "item_index"}

  // ---------- keys ----------

  predicate IsTextPart(part: Json) {
    part.Obj? && part.fields.Keys == {"type", "text"}
    && part.fields["type"] == Str("input_text") && part.fields["text"].Str?
  }

  function Texts(parts: seq<Json>): seq<string>
    requires forall i :: 0 <= i < |parts| ==> IsTextPart(parts[i])
  {
    seq(|parts|, i requires 0 <= i < |parts| && IsTextPart(parts[i]) => parts[i].fields["text"].s)
  }

  function TotalBytes(texts: seq<string>): nat
    decreases |texts|
  {
    if texts == [] then 0 else TotalBytes(texts[..|texts| - 1]) + Utf8Length(texts[|texts| - 1])
  }

  /** The key of a large plain-text output; anything else stays inline. */
  function OutputKey(callId: Json, isError: Json, output: Json): Option<Key> {
    if !callId.Str? || !isError.Bool? || !output.Arr? then None
    else if exists i :: 0 <= i < |output.items| && !IsTextPart(output.items[i]) then None
    else if TotalBytes(Texts(output.items)) <= INLINE_LIMIT then None
    else Some(Key(callId.s, isError.b, Texts(output.items)))
  }

  /** What makes an output large: text parts and nothing else, of more than 4096 bytes together. */
  lemma LargeOutputs(callId: Json, isError: Json, output: Json)
    ensures OutputKey(callId, isError, output).Some? <==>
            && callId.Str? && isError.Bool? && output.Arr?
            && (forall i :: 0 <= i < |output.items| ==>
                  var part := output.items[i];
                  && part.Obj? && part.fields.Keys == {"type", "text"}
                  && part.fields["type"] == Str("input_text") && part.fields["text"].Str?)
            && Bytes(output.items) > 4096
  {
    if output.Arr? && forall i :: 0 <= i < |output.items| ==> IsTextPart(output.items[i]) {
      BytesAre(output.items);
    }
  }

  /** The UTF-8 bytes of the text parts. */
  function Bytes(parts: seq<Json>): nat
    decreases |parts|
  {
    if parts == [] then 0
    else
      var last := parts[|parts| - 1];
      Bytes(parts[..|parts| - 1])
      + if last.Obj? && "text" in last.fields && last.fields["text"].Str?
        then Utf8Length(last.fields["text"].s) else 0
  }

  lemma {:induction false} BytesAre(parts: seq<Json>)
    requires forall i :: 0 <= i < |parts| ==> IsTextPart(parts[i])
    ensures TotalBytes(Texts(parts)) == Bytes(parts)
    decreases |parts|
  {
    hide Utf8Length;
    if parts != [] {
      BytesAre(parts[..|parts| - 1]);
      assert Texts(parts)[..|parts| - 1] == Texts(parts[..|parts| - 1]);
    }
  }

  predicate IsOutput(item: Json) {
    Has(item, "type", Str("function_call_output"))
  }

  function ItemKey(item: Json): Option<Key> {
    if !IsOutput(item) then None
    else
      OutputKey(Get(item.fields, "call_id"), Get(item.fields, "_mobius_is_error"),
                Get(item.fields, "output"))
  }

  // ---------- the index ----------

  function RowSlots(row: Row): seq<Slot> {
    if !row.items.Arr? then []
    else
      seq(|row.items.items|, i requires 0 <= i < |row.items.items| =>
        Slot(Position(row.sequence, i), row.items.items[i]))
  }

  /** Every item of the transcript, in order; rows that are not arrays hold none. */
  function Slots(transcript: seq<Row>): seq<Slot>
    decreases |transcript|
  {
    if transcript == [] then []
    else Slots(transcript[..|transcript| - 1]) + RowSlots(transcript[|transcript| - 1])
  }

  type Index = map<Key, Option<Position>>

  /** A key maps to its position while it is unique, and to None once it is not. */
  function Indexed(slots: seq<Slot>): Index
    decreases |slots|
  {
    if slots == [] then map[]
    else
      var before, slot := Indexed(slots[..|slots| - 1]), slots[|slots| - 1];
      match ItemKey(slot.item)
      case None => before
      case Some(key) => before[key := if key in before then None else Some(slot.at)]
  }

  method BuildIndex(transcript: seq<Row>) returns (index: Index)
    ensures index == Indexed(Slots(transcript))
  {
    hide Indexed, RowSlots;
    IndexedNothing();
    index := map[];
    var i := 0;
    while i < |transcript|
      invariant i <= |transcript|
      invariant index == Indexed(Slots(transcript[..i]))
    {
      assert transcript[..i + 1][..i] == transcript[..i];
      index := IndexRow(index, transcript[i], Slots(transcript[..i]));
      i := i + 1;
    }
    assert transcript[..|transcript|] == transcript;
  }

  lemma IndexedNothing()
    ensures Indexed([]) == map[]
  {
  }

  method IndexRow(before: Index, row: Row, ghost seen: seq<Slot>) returns (index: Index)
    requires before == Indexed(seen)
    ensures index == Indexed(seen + RowSlots(row))
  {
    hide ItemKey;
    index := before;
    if !row.items.Arr? {
      assert seen + RowSlots(row) == seen;
      return;
    }
    ghost var slots := RowSlots(row);
    var k := 0;
    assert seen + slots[..0] == seen;
    while k < |row.items.items|
      invariant k <= |row.items.items| == |slots|
      invariant index == Indexed(seen + slots[..k])
    {
      var key := ItemKey(row.items.items[k]);
      IndexedPush(seen + slots[..k], slots[k]);
      assert seen + slots[..k + 1] == seen + slots[..k] + [slots[k]];
      if key.Some? {
        index := index[key.value := if key.value in index then None
                       else Some(Position(row.sequence, k))];
      }
      k := k + 1;
    }
    assert slots[..|slots|] == slots;
  }

  lemma IndexedPush(slots: seq<Slot>, slot: Slot)
    ensures var before := Indexed(slots);
            Indexed(slots + [slot])
            == match ItemKey(slot.item)
               case None => before
               case Some(key) => before[key := if key in before then None else Some(slot.at)]
  {
    assert (slots + [slot])[..|slots|] == slots;
  }

  predicate Carries(slots: seq<Slot>, key: Key, i: nat) {
    i < |slots| && ItemKey(slots[i].item) == Some(key)
  }

  ghost predicate Occurs(slots: seq<Slot>, key: Key) {
    exists i: nat :: Carries(slots, key, i)
  }

  /** Slot `i` is the only one with the key. */
  ghost predicate OnlyAt(slots: seq<Slot>, key: Key, i: nat) {
    Carries(slots, key, i) && forall j: nat :: Carries(slots, key, j) ==> j == i
  }

  ghost predicate Unique(slots: seq<Slot>, key: Key) {
    exists i: nat :: OnlyAt(slots, key, i)
  }

  lemma CarriesFront(slots: seq<Slot>, key: Key)
    requires slots != []
    ensures forall j: nat :: Carries(slots, key, j)
                             <==> Carries(slots[..|slots| - 1], key, j)
                                  || (j == |slots| - 1 && ItemKey(slots[j].item) == Some(key))
  {
    hide ItemKey;
  }

  /** The index holds exactly the keys of the transcript, and a position exactly for unique ones. */
  lemma {:induction false} IndexedIs(slots: seq<Slot>, key: Key)
    ensures key in Indexed(slots) <==> Occurs(slots, key)
    ensures key in Indexed(slots) && Indexed(slots)[key].Some? <==> Unique(slots, key)
    ensures key in Indexed(slots) && Indexed(slots)[key].Some? ==>
              exists i: nat :: OnlyAt(slots, key, i) && slots[i].at == Indexed(slots)[key].value
    decreases |slots|
  {
    hide ItemKey, Carries;
    if slots == [] {
      forall i: nat ensures !Carries(slots, key, i) {
        NothingCarries(key, i);
      }
    } else {
      var n := |slots| - 1;
      var front := slots[..n];
      IndexedIs(front, key);
      CarriesFront(slots, key);
      forall j: nat | Carries(front, key, j) ensures j < n {
        CarriesBound(front, key, j);
      }
      if ItemKey(slots[n].item) != Some(key) {
        SameCarriers(slots, front, key);
      } else if key in Indexed(front) {
        var i: nat :| Carries(front, key, i);
        assert Carries(slots, key, i) && Carries(slots, key, n) && i != n;
      } else {
        assert OnlyAt(slots, key, n);
      }
    }
  }

  lemma SameCarriers(slots: seq<Slot>, front: seq<Slot>, key: Key)
    requires slots != [] && front == slots[..|slots| - 1]
    requires ItemKey(slots[|slots| - 1].item) != Some(key)
    ensures Occurs(slots, key) <==> Occurs(front, key)
    ensures Unique(slots, key) <==> Unique(front, key)
    ensures forall i: nat :: OnlyAt(slots, key, i) <==> OnlyAt(front, key, i)
  {
    hide ItemKey, Carries;
    CarriesFront(slots, key);
    forall j: nat ensures Carries(slots, key, j) <==> Carries(front, key, j) {
    }
    forall i: nat ensures OnlyAt(slots, key, i) <==> OnlyAt(front, key, i) {
    }
    if Unique(slots, key) {
      var i: nat :| OnlyAt(slots, key, i);
      assert OnlyAt(front, key, i);
    }
    if Unique(front, key) {
      var i: nat :| OnlyAt(front, key, i);
      assert OnlyAt(slots, key, i);
    }
  }

  lemma NothingCarries(key: Key, i: nat)
    ensures !Carries([], key, i)
  {
  }

  lemma CarriesBound(slots: seq<Slot>, key: Key, i: nat)
    requires Carries(slots, key, i)
    ensures i < |slots| && ItemKey(slots[i].item) == Some(key)
  {
  }

  // ---------- envelopes ----------

  function Inline(event: Json): Json {
    Obj(map["storage" := Str("inline"), "event" := event])
  }

  /** An event that only carries one finished tool call. */
  predicate IsToolEnd(event: Json) {
    && event.Obj? && event.fields.Keys <= {"submission_id", "msg"}
    && ("submission_id" in event.fields ==> event.fields["submission_id"].Str?)
    && Get(event.fields, "msg").Obj?
    && var msg := event.fields["msg"].fields;
       && msg.Keys == MESSAGE_FIELDS && msg["type"] == Str("tool_call_end")
       && msg["turn_id"].Str? && msg["call_id"].Str? && msg["name"].Str?
  }

  function EventKey(event: Json): Option<Key>
    requires IsToolEnd(event)
  {
    var msg := event.fields["msg"].fields;
    OutputKey(msg["call_id"], msg["is_error"], msg["output"])
  }

  function Reference(event: Json, at: Position): Json
    requires IsToolEnd(event)
  {
    var msg := event.fields["msg"].fields;
    Obj(map[
          "storage" := Str("tool_output"),
          "submission_id" := Get(event.fields, "submission_id"),
          "turn_id" := msg["turn_id"], "call_id" := msg["call_id"],
          "name" := msg["name"], "is_error" := msg["is_error"],
          "transcript_sequence" := Int(at.sequence), "item_index" := Int(at.index)])
  }

  /** Which events carry one finished tool call and nothing else. */
  lemma ToolEndsAre(event: Json)
    ensures IsToolEnd(event) <==>
            && event.Obj? && event.fields.Keys <= {"submission_id", "msg"} && "msg" in event.fields
            && (match Get(event.fields, "submission_id") case Str(_) => true
                                                         case Null => "submission_id" !in event.fields
                                                         case _ => false)
            && event.fields["msg"].Obj?
            && var msg := event.fields["msg"].fields;
               && msg.Keys == {"type", "turn_id", "call_id", "name", "output", "is_error"}
               && msg["type"] == Str("tool_call_end")
               && msg["turn_id"].Str? && msg["call_id"].Str? && msg["name"].Str?
  {
  }

  /** Where an event's output is in the transcript, when it is there exactly once. */
  function TargetOf(event: Json, index: Index): Option<Position> {
    if !IsToolEnd(event) then None
    else
      var key := EventKey(event);
      if key.Some? && key.value in index then index[key.value] else None
  }

  function Envelope(event: Json, index: Index): Json {
    var target := TargetOf(event, index);
    if target.Some? then Reference(event, target.value) else Inline(event)
  }

  // ---------- reading an envelope back ----------

  function RowAt(transcript: seq<Row>, sequence: int): Option<Json>
    decreases |transcript|
  {
    if transcript == [] then None
    else if transcript[|transcript| - 1].sequence == sequence then Some(transcript[|transcript| - 1].items)
    else RowAt(transcript[..|transcript| - 1], sequence)
  }

  function ItemAt(transcript: seq<Row>, sequence: int, index: int): Option<Json> {
    var row := RowAt(transcript, sequence);
    if row.Some? && row.value.Arr? && 0 <= index < |row.value.items| then Some(row.value.items[index])
    else None
  }

  predicate IsReference(stored: Json) {
    && stored.Obj? && stored.fields.Keys == REFERENCE_FIELDS
    && stored.fields["storage"] == Str("tool_output")
    && stored.fields["turn_id"].Str? && stored.fields["call_id"].Str? && stored.fields["name"].Str?
    && (stored.fields["submission_id"].Null? || stored.fields["submission_id"].Str?)
    && stored.fields["is_error"].Bool?
    && stored.fields["transcript_sequence"].Int? && stored.fields["item_index"].Int?
    && 0 <= stored.fields["transcript_sequence"].n <= MAX_SQLITE_INTEGER
    && 0 <= stored.fields["item_index"].n <= MAX_SQLITE_INTEGER
  }

  predicate IsInline(stored: Json) {
    stored.Obj? && Get(stored.fields, "storage") == Str("inline")
    && stored.fields.Keys == {"storage", "event"}
  }

  /** Whether a stored envelope is valid against its session's transcript. */
  predicate Valid(transcript: seq<Row>, stored: Json) {
    IsInline(stored)
    || (IsReference(stored)
        && var f := stored.fields;
           match ItemAt(transcript, f["transcript_sequence"].n, f["item_index"].n)
           case None => false
           case Some(item) =>
             && IsOutput(item)
             && Get(item.fields, "call_id") == f["call_id"]
             && Get(item.fields, "_mobius_is_error") == f["is_error"]
             && ItemKey(item).Some?)
  }

  /** What a stored envelope must be: an inline event, or a reference to a large output in place. */
  lemma ValidIs(transcript: seq<Row>, stored: Json)
    ensures Valid(transcript, stored) <==>
            && stored.Obj?
            && var f := stored.fields;
               || (f.Keys == {"storage", "event"} && f["storage"] == Str("inline"))
               || (&& f.Keys == {"storage", "submission_id", "turn_id", "call_id", "name", "is_error",
                                 "transcript_sequence", "item_index"}
                   && f["storage"] == Str("tool_output")
                   && f["turn_id"].Str? && f["call_id"].Str? && f["name"].Str?
                   && (f["submission_id"] == Null || f["submission_id"].Str?) && f["is_error"].Bool?
                   && f["transcript_sequence"].Int? && f["item_index"].Int?
                   && 0 <= f["transcript_sequence"].n <= 0x7FFF_FFFF_FFFF_FFFF
                   && 0 <= f["item_index"].n <= 0x7FFF_FFFF_FFFF_FFFF
                   && match ItemAt(transcript, f["transcript_sequence"].n, f["item_index"].n)
                      case None => false
                      case Some(item) =>
                        && item.Obj? && Get(item.fields, "type") == Str("function_call_output")
                        && Get(item.fields, "call_id") == f["call_id"]
                        && Get(item.fields, "_mobius_is_error") == f["is_error"]
                        && OutputKey(f["call_id"], f["is_error"], Get(item.fields, "output")).Some?)
  {
    hide OutputKey, ItemAt;
  }

  /** A valid envelope stands for an event. */
  lemma ValidExpands(transcript: seq<Row>, stored: Json)
    requires Valid(transcript, stored)
    ensures Expanded(transcript, stored).Some?
  {
    hide OutputKey, ItemAt;
  }

  /** The event that an envelope stands for. */
  function Expanded(transcript: seq<Row>, stored: Json): Option<Json> {
    if IsInline(stored) then Some(stored.fields["event"])
    else if !IsReference(stored) then None
    else
      var f := stored.fields;
      match ItemAt(transcript, f["transcript_sequence"].n, f["item_index"].n)
      case None => None
      case Some(item) =>
        if !item.Obj? then None
        else
          var msg := Obj(map[
                           "type" := Str("tool_call_end"), "turn_id" := f["turn_id"],
                           "call_id" := f["call_id"], "name" := f["name"],
                           "is_error" := f["is_error"], "output" := Get(item.fields, "output")]);
          Some(Obj(if f["submission_id"].Null? then map["msg" := msg]
                   else map["submission_id" := f["submission_id"], "msg" := msg]))
  }

  // ---------- the upgrade of one session's events ----------

  /**
   On an old database, the envelope of every event; on a current one, no change, provided that
   every envelope is valid.
   */
  method EventChanges(current: bool, transcript: seq<Row>, events: seq<Json>)
    returns (changes: Result<seq<Json>, ()>)
    ensures !current ==>
              changes == Ok(seq(|events|, i requires 0 <= i < |events| =>
                Envelope(events[i], Indexed(Slots(transcript)))))
    ensures current ==>
              changes == if forall i :: 0 <= i < |events| ==> Valid(transcript, events[i])
                         then Ok([]) else Err(())
  {
    hide Valid, Envelope;
    var index: Index := map[];
    if !current {
      index := BuildIndex(transcript);
    }
    var written, i := [], 0;
    while i < |events|
      invariant i <= |events|
      invariant current ==> written == [] && forall k :: 0 <= k < i ==> Valid(transcript, events[k])
      invariant !current ==> written == seq(i, k requires 0 <= k < i => Envelope(events[k], index))
    {
      if current {
        if !Valid(transcript, events[i]) {
          return Err(());
        }
      } else {
        written := written + [Envelope(events[i], index)];
      }
      i := i + 1;
    }
    return Ok(written);
  }

  // ---------- losslessness ----------

  /** A session's rows have distinct sequences, and fit SQLite's integers. */
  predicate WellFormed(transcript: seq<Row>) {
    && (forall i, j :: 0 <= i < j < |transcript| ==> transcript[i].sequence != transcript[j].sequence)
    && (forall i :: 0 <= i < |transcript| ==>
          && transcript[i].sequence <= MAX_SQLITE_INTEGER
          && (transcript[i].items.Arr? ==> |transcript[i].items.items| <= MAX_SQLITE_INTEGER))
  }

  lemma {:induction false} SlotsAreItems(transcript: seq<Row>, i: nat)
    requires WellFormed(transcript) && i < |Slots(transcript)|
    ensures var slot := Slots(transcript)[i];
            && ItemAt(transcript, slot.at.sequence, slot.at.index) == Some(slot.item)
            && slot.at.sequence <= MAX_SQLITE_INTEGER && slot.at.index <= MAX_SQLITE_INTEGER
            && exists k :: 0 <= k < |transcript| && transcript[k].sequence == slot.at.sequence
    decreases |transcript|
  {
    var front, last := transcript[..|transcript| - 1], transcript[|transcript| - 1];
    if i < |Slots(front)| {
      SlotsAreItems(front, i);
      var slot := Slots(transcript)[i];
      var k :| 0 <= k < |front| && front[k].sequence == slot.at.sequence;
      assert transcript[k].sequence == slot.at.sequence;
    } else {
      assert last.sequence == Slots(transcript)[i].at.sequence;
    }
  }

  /** Equal keys mean equal payloads: the key determines the whole output. */
  lemma KeyIsOutput(callId: Json, isError: Json, output: Json, key: Key)
    requires OutputKey(callId, isError, output) == Some(key)
    ensures callId == Str(key.callId) && isError == Bool(key.isError)
    ensures output == Arr(seq(|key.texts|, i requires 0 <= i < |key.texts| =>
      Obj(map["type" := Str("input_text"), "text" := Str(key.texts[i])])))
  {
    forall i | 0 <= i < |output.items|
      ensures output.items[i] == Obj(map["type" := Str("input_text"), "text" := Str(key.texts[i])])
    {
      assert IsTextPart(output.items[i]);
    }
  }

  /** What an item or an event must carry to take part: its three fields decide the key alone. */
  lemma KeysAre(item: Json, event: Json)
    ensures ItemKey(item).Some? ==>
              && item.Obj? && Get(item.fields, "type") == Str("function_call_output")
              && ItemKey(item) == OutputKey(Get(item.fields, "call_id"), Get(item.fields, "_mobius_is_error"),
                                            Get(item.fields, "output"))
    ensures item.Obj? && Get(item.fields, "type") == Str("function_call_output") ==>
              ItemKey(item) == OutputKey(Get(item.fields, "call_id"), Get(item.fields, "_mobius_is_error"),
                                         Get(item.fields, "output"))
    ensures IsToolEnd(event) ==>
              EventKey(event) == OutputKey(event.fields["msg"].fields["call_id"],
                                           event.fields["msg"].fields["is_error"],
                                           event.fields["msg"].fields["output"])
  {
    hide OutputKey;
  }

  /** The item that a reference names holds the event's own output. */
  lemma TargetHoldsOutput(transcript: seq<Row>, event: Json)
    requires WellFormed(transcript) && TargetOf(event, Indexed(Slots(transcript))).Some?
    ensures var at := TargetOf(event, Indexed(Slots(transcript))).value;
            var msg := event.fields["msg"].fields;
            var item := ItemAt(transcript, at.sequence, at.index);
            && at.sequence <= MAX_SQLITE_INTEGER && at.index <= MAX_SQLITE_INTEGER
            && item.Some? && IsOutput(item.value) && ItemKey(item.value).Some?
            && Get(item.value.fields, "call_id") == msg["call_id"]
            && Get(item.value.fields, "_mobius_is_error") == msg["is_error"]
            && Get(item.value.fields, "output") == msg["output"]
            && msg["is_error"].Bool?
  {
    hide OutputKey, WellFormed, ItemAt, Slots, Indexed;
    var slots, key := Slots(transcript), EventKey(event).value;
    IndexedIs(slots, key);
    var i: nat :| OnlyAt(slots, key, i) && slots[i].at == Indexed(slots)[key].value;
    SlotsAreItems(transcript, i);
    var item, msg := slots[i].item, event.fields["msg"].fields;
    KeyIsOutput(msg["call_id"], msg["is_error"], msg["output"], key);
    KeyIsOutput(Get(item.fields, "call_id"), Get(item.fields, "_mobius_is_error"),
                Get(item.fields, "output"), key);
  }

  /** Every envelope expands back to the event it replaced. */
  lemma EnvelopeIsLossless(transcript: seq<Row>, event: Json)
    requires WellFormed(transcript)
    ensures Expanded(transcript, Envelope(event, Indexed(Slots(transcript)))) == Some(event)
  {
    hide ItemAt, Slots, Indexed, OutputKey, WellFormed;
    var index := Indexed(Slots(transcript));
    if TargetOf(event, index).Some? {
      TargetHoldsOutput(transcript, event);
      ReferenceExpands(transcript, event, TargetOf(event, index).value);
    }
  }

  lemma ReferenceExpands(transcript: seq<Row>, event: Json, at: Position)
    requires IsToolEnd(event)
    requires at.sequence <= MAX_SQLITE_INTEGER && at.index <= MAX_SQLITE_INTEGER
    requires event.fields["msg"].fields["is_error"].Bool?
    requires var item := ItemAt(transcript, at.sequence, at.index);
             item.Some? && item.value.Obj?
             && Get(item.value.fields, "output") == event.fields["msg"].fields["output"]
    ensures Expanded(transcript, Reference(event, at)) == Some(event)
  {
    hide ItemAt;
    var msg, stored := event.fields["msg"].fields, Reference(event, at);
    assert IsReference(stored) && !IsInline(stored);
    var rebuilt := map[
      "type" := Str("tool_call_end"), "turn_id" := msg["turn_id"], "call_id" := msg["call_id"],
      "name" := msg["name"], "is_error" := msg["is_error"], "output" := msg["output"]];
    assert rebuilt == msg;
    if "submission_id" in event.fields {
      assert event.fields == map["submission_id" := event.fields["submission_id"], "msg" := Obj(msg)];
    } else {
      assert event.fields == map["msg" := Obj(msg)];
    }
  }

  lemma EnvelopeIsValid(transcript: seq<Row>, event: Json)
    requires WellFormed(transcript)
    ensures Valid(transcript, Envelope(event, Indexed(Slots(transcript))))
  {
    hide ItemAt, Slots, Indexed, OutputKey, WellFormed;
    if TargetOf(event, Indexed(Slots(transcript))).Some? {
      TargetHoldsOutput(transcript, event);
    }
  }

  /**
   An output becomes a reference exactly when its event carries nothing else, and the transcript
   holds it exactly once; an ambiguous output stays inline.
   */
  lemma OnlyUniqueOutputsAreReferenced(transcript: seq<Row>, event: Json)
    ensures Envelope(event, Indexed(Slots(transcript))) != Inline(event) <==>
            IsToolEnd(event) && EventKey(event).Some?
            && Unique(Slots(transcript), EventKey(event).value)
  {
    hide Indexed, Slots, OutputKey, ItemKey;
    if IsToolEnd(event) && EventKey(event).Some? {
      IndexedIs(Slots(transcript), EventKey(event).value);
      assert Reference(event, Position(0, 0)).fields["storage"] == Str("tool_output");
    }
  }

  /** On the upgraded data every envelope is valid, and running the upgrade again changes nothing. */
  method UpgradeTwice(transcript: seq<Row>, events: seq<Json>)
    returns (envelopes: seq<Json>, again: Result<seq<Json>, ()>)
    requires WellFormed(transcript)
    ensures again == Ok([]) && |envelopes| == |events|
    ensures forall i :: 0 <= i < |events| ==>
                          && Valid(transcript, envelopes[i])
                          && Expanded(transcript, envelopes[i]) == Some(events[i])
  {
    hide Valid, Expanded, Envelope, WellFormed;
    var first := EventChanges(false, transcript, events);
    envelopes := first.value;
    forall i | 0 <= i < |events|
      ensures Valid(transcript, envelopes[i]) && Expanded(transcript, envelopes[i]) == Some(events[i])
    {
      EnvelopeIsValid(transcript, events[i]);
      EnvelopeIsLossless(transcript, events[i]);
    }
    again := EventChanges(true, transcript, envelopes);
  }
}
