/** Upgrading a version 18 checkpoint, and splitting its context into rows. */
module Upgrade {
  import opened Json
  import opened Sequences
  import opened Wrappers

  const OLD_VERSION: int := 18
  const NEW_VERSION: int := 19
  const MAX_EPOCH: nat := 0xFFFF_FFFF_FFFF_FFFF
  const MAX_NOTES_BYTES: nat := 21_000
  const CACHE_FIELD := "_mobius_prompt_cache_breakpoint"
  const INTERNAL_FIELD := "_mobius_internal"

  const ALLOWED: set<string> := {
    "version", "session_id", "session_context", "metadata", "catalog_visible",
    "first_user_message", "model_route", "context_model_route", "sequence", "context",
    "delivered_once", "context_epoch", "compaction_count", "last_context_rewrite",
    "total_usage", "last_usage", "pending_messages", "active_execution",
    "active_model_step", "execution_stats", "pending_tools", "pending_approval"}

  type Fields = map<string, Json>

  /** An upgraded checkpoint, whether it changed, and what happened to its context. */
  datatype Normalized = Normalized(checkpoint: Fields, changed: bool, removed: nat, restored: bool)

  // ---------- context items ----------

  predicate IsCompaction(item: Json) {
    Has(item, "type", Str("compaction")) || Has(item, "type", Str("compaction_summary"))
  }

  predicate IsNotes(item: Json) {
    Has(item, INTERNAL_FIELD, Str("handoff_notes"))
  }

  function Portable(): Json -> bool {
    (item: Json) => !IsCompaction(item)
  }

  function NotesItem(prompt: string, notes: string): Json {
    Obj(map[
          "role" := Str("user"), INTERNAL_FIELD := Str("handoff_notes"),
          "content" := Arr([Obj(map[
                                  "type" := Str("input_text"),
                                  "text" := Str(prompt + "\n\n" + notes)])])])
  }

  function StrippedPart(part: Json): Json {
    if part.Obj? then Obj(part.fields - {CACHE_FIELD}) else part
  }

  function StrippedParts(parts: seq<Json>): seq<Json> {
    seq(|parts|, i requires 0 <= i < |parts| => StrippedPart(parts[i]))
  }

  /** An item without the cache breakpoints of its content parts. */
  function Stripped(item: Json): Json {
    if item.Obj? && Get(item.fields, "content").Arr?
    then Obj(item.fields["content" := Arr(StrippedParts(item.fields["content"].items))])
    else item
  }

  function StrippedAll(items: seq<Json>): seq<Json> {
    seq(|items|, i requires 0 <= i < |items| => Stripped(items[i]))
  }

  // ---------- specification ----------

  /** A model route or context owner: absent, or a name. */
  predicate ValidOwner(owner: Json) {
    owner.Null? || (owner.Str? && !Blank(owner.s))
  }

  predicate ValidEpoch(epoch: Json) {
    epoch.Int? && 0 <= epoch.n <= MAX_EPOCH
  }

  predicate HasAny(items: seq<Json>, p: Json -> bool) {
    exists i :: 0 <= i < |items| && p(items[i])
  }

  predicate ValidNew(c: Fields)
    requires Get(c, "context").Arr?
  {
    && "context_model_route" in c && ValidOwner(c["context_model_route"])
    && ValidEpoch(Get(c, "context_epoch"))
    && !HasAny(c["context"].items, item => IsCompaction(item))
  }

  predicate ValidOld(c: Fields)
    requires Get(c, "context").Arr?
  {
    && "context_model_route" !in c && "model_route" in c
    && ValidEpoch(Get(c, "context_epoch"))
    && ValidOwner(c["model_route"])
    && (c["model_route"].Null? ==> c["context"].items == [])
  }

  predicate ValidNotes(notes: Json) {
    notes.Str? && !Blank(notes.s) && Utf8Length(notes.s) <= MAX_NOTES_BYTES
  }

  /** The rewrite record without the retired reason; None when it cannot be read. */
  function Reasons(rewrite: Json): Option<Json> {
    if rewrite.Null? then Some(Null)
    else if !rewrite.Obj? || "reasons" !in rewrite.fields || !rewrite.fields["reasons"].Arr? then None
    else
      var reasons := Filter(Current(), rewrite.fields["reasons"].items);
      Some(if reasons == [] then Null else Obj(rewrite.fields["reasons" := Arr(reasons)]))
  }

  function Current(): Json -> bool {
    (reason: Json) => reason != Str("context_offloading")
  }

  /** Context items that stay: every portable one, and the restored notes after them. */
  function Retained(c: Fields, notes: Option<Json>, prompt: string): seq<Json>
    requires Get(c, "context").Arr?
  {
    var portable := Filter(Portable(), c["context"].items);
    if Restores(c, notes) && notes.value.Str? then portable + [NotesItem(prompt, notes.value.s)]
    else portable
  }

  predicate Restores(c: Fields, notes: Option<Json>)
    requires Get(c, "context").Arr?
  {
    notes.Some? && !HasAny(Filter(Portable(), c["context"].items), item => IsNotes(item))
  }

  function Owned(c: Fields): Fields
    requires "model_route" in c
  {
    c["context_model_route" := c["model_route"]]["version" := Int(NEW_VERSION)]
  }

  function NormalizedOld(c: Fields, notes: Option<Json>, prompt: string): Result<Normalized, ()>
    requires Get(c, "context").Arr? && ValidOld(c)
  {
    var before, retained := c["context"].items, Retained(c, notes, prompt);
    var removed, restored := |before| - |Filter(Portable(), before)|, Restores(c, notes);
    FilterShrinks(Portable(), before);
    if restored && !ValidNotes(notes.value) then Err(())
    else if c["model_route"].Null? && retained != [] then Err(())
    else if removed > 0 || restored then
      var epoch := c["context_epoch"].n;
      if epoch >= MAX_EPOCH then Err(())
      else
        Ok(Normalized(
             Owned(c["context" := Arr(StrippedAll(retained))]["context_epoch" := Int(epoch + 1)]
                   ["last_usage" := Null]["last_context_rewrite" := Null]),
             true, removed, restored))
    else
      match Reasons(Get(c, "last_context_rewrite"))
      case None => Err(())
      case Some(rewrite) =>
        var kept := if "last_context_rewrite" in c then c["last_context_rewrite" := rewrite] else c;
        Ok(Normalized(Owned(kept), true, 0, false))
  }

  function Normalize(checkpoint: Json, notes: Option<Json>, prompt: string): Result<Normalized, ()> {
    if !checkpoint.Obj? || !(checkpoint.fields.Keys <= ALLOWED) then Err(())
    else
      var c := checkpoint.fields;
      var version := Get(c, "version");
      if version != Int(OLD_VERSION) && version != Int(NEW_VERSION) then Err(())
      else if !Get(c, "context").Arr? then Err(())
      else if version == Int(NEW_VERSION) then
        if ValidNew(c) then Ok(Normalized(c, false, 0, false)) else Err(())
      else if !ValidOld(c) then Err(())
      else NormalizedOld(c, notes, prompt)
  }

  // ---------- the operation ----------

  method Contains(items: seq<Json>, p: Json -> bool) returns (found: bool)
    ensures found == HasAny(items, p)
  {
    var i := 0;
    while i < |items|
      invariant i <= |items|
      invariant forall k :: 0 <= k < i ==> !p(items[k])
    {
      if p(items[i]) {
        return true;
      }
      i := i + 1;
    }
    return false;
  }

  method RetainItems(items: seq<Json>, p: Json -> bool) returns (retained: seq<Json>)
    ensures retained == Filter(p, items)
  {
    retained := [];
    var i := 0;
    while i < |items|
      invariant i <= |items|
      invariant retained == Filter(p, items[..i])
    {
      assert items[..i + 1][..i] == items[..i];
      if p(items[i]) {
        retained := retained + [items[i]];
      }
      i := i + 1;
    }
    assert items[..|items|] == items;
  }

  /** Drops the cache breakpoints, part by part, in place. */
  method StripBreakpoints(items: seq<Json>) returns (stripped: seq<Json>)
    ensures stripped == StrippedAll(items)
  {
    stripped := items;
    var i := 0;
    while i < |stripped|
      invariant i <= |stripped| == |items|
      invariant forall k :: 0 <= k < i ==> stripped[k] == Stripped(items[k])
      invariant forall k :: i <= k < |items| ==> stripped[k] == items[k]
    {
      if stripped[i].Obj? && Get(stripped[i].fields, "content").Arr? {
        var parts := stripped[i].fields["content"].items;
        ghost var before := parts;
        var j := 0;
        while j < |parts|
          invariant j <= |parts| == |before|
          invariant forall k :: 0 <= k < j ==> parts[k] == StrippedPart(before[k])
          invariant forall k :: j <= k < |parts| ==> parts[k] == before[k]
        {
          if parts[j].Obj? {
            parts := parts[j := Obj(parts[j].fields - {CACHE_FIELD})];
          }
          j := j + 1;
        }
        assert parts == StrippedParts(before);
        stripped := stripped[i := Obj(stripped[i].fields["content" := Arr(parts)])];
      }
      i := i + 1;
    }
  }

  /** Upgrades the fields of a checkpoint step by step. */
  method NormalizeCheckpoint(checkpoint: Json, notes: Option<Json>, prompt: string)
    returns (r: Result<Normalized, ()>)
    ensures r == Normalize(checkpoint, notes, prompt)
  {
    hide Filter, HasAny, Stripped, StrippedAll, ValidOwner, Blank, Utf8Length;
    if !checkpoint.Obj? || !(checkpoint.fields.Keys <= ALLOWED) {
      return Err(());
    }
    var c := checkpoint.fields;
    var version := Get(c, "version");
    if version != Int(OLD_VERSION) && version != Int(NEW_VERSION) {
      return Err(());
    }
    if !Get(c, "context").Arr? {
      return Err(());
    }
    var context := c["context"].items;
    if version == Int(NEW_VERSION) {
      if "context_model_route" !in c || !ValidOwner(c["context_model_route"])
         || !ValidEpoch(Get(c, "context_epoch")) {
        return Err(());
      }
      var found := Contains(context, item => IsCompaction(item));
      return if found then Err(()) else Ok(Normalized(c, false, 0, false));
    }
    if !ValidOld(c) {
      return Err(());
    }
    var route := c["model_route"];
    var retained := RetainItems(context, Portable());
    FilterShrinks(Portable(), context);
    var removed := |context| - |retained|;
    var restored := false;
    if notes.Some? {
      var projected := Contains(retained, item => IsNotes(item));
      restored := !projected;
    }
    if restored {
      if !ValidNotes(notes.value) {
        return Err(());
      }
      retained := retained + [NotesItem(prompt, notes.value.s)];
    }
    if route.Null? && retained != [] {
      return Err(());
    }
    if removed > 0 || restored {
      var epoch := c["context_epoch"].n;
      if epoch >= MAX_EPOCH {
        return Err(());
      }
      retained := StripBreakpoints(retained);
      c := c["context" := Arr(retained)];
      c := c["context_epoch" := Int(epoch + 1)];
      c := c["last_usage" := Null];
      c := c["last_context_rewrite" := Null];
    } else {
      var rewrite := Get(c, "last_context_rewrite");
      if !rewrite.Null? {
        if !rewrite.Obj? || "reasons" !in rewrite.fields || !rewrite.fields["reasons"].Arr? {
          return Err(());
        }
        var reasons := RetainItems(rewrite.fields["reasons"].items, Current());
        if reasons == [] {
          c := c["last_context_rewrite" := Null];
        } else {
          c := c["last_context_rewrite" := Obj(rewrite.fields["reasons" := Arr(reasons)])];
        }
      } else if "last_context_rewrite" in c {
        assert c["last_context_rewrite" := Null] == c;
      }
    }
    c := c["context_model_route" := route];
    c := c["version" := Int(NEW_VERSION)];
    return Ok(Normalized(c, true, removed, restored));
  }

  lemma {:induction false} FilterShrinks(p: Json -> bool, items: seq<Json>)
    ensures |Filter(p, items)| <= |items|
    ensures |Filter(p, items)| == |items| ==> Filter(p, items) == items
    decreases |items|
  {
    if items != [] {
      FilterShrinks(p, items[..|items| - 1]);
      assert items == items[..|items| - 1] + [items[|items| - 1]];
    }
  }

  // ---------- what the upgrade keeps ----------

  lemma StrippingKeepsKind(item: Json)
    ensures IsCompaction(Stripped(item)) == IsCompaction(item)
    ensures IsNotes(Stripped(item)) == IsNotes(item)
    ensures Stripped(Stripped(item)) == Stripped(item)
  {
    if item.Obj? && Get(item.fields, "content").Arr? {
      var parts := item.fields["content"].items;
      forall i | 0 <= i < |parts| ensures StrippedPart(StrippedPart(parts[i])) == StrippedPart(parts[i]) {
        if parts[i].Obj? {
          var f := parts[i].fields;
          assert f - {CACHE_FIELD} - {CACHE_FIELD} == f - {CACHE_FIELD};
        }
      }
      assert StrippedParts(StrippedParts(parts)) == StrippedParts(parts);
      var once := item.fields["content" := Arr(StrippedParts(parts))];
      assert once["content" := Arr(StrippedParts(parts))] == once;
    }
  }

  lemma RetainedIsPortable(c: Fields, notes: Option<Json>, prompt: string)
    requires Get(c, "context").Arr?
    ensures !HasAny(Retained(c, notes, prompt), item => IsCompaction(item))
    ensures !HasAny(StrippedAll(Retained(c, notes, prompt)), item => IsCompaction(item))
  {
    var retained := Retained(c, notes, prompt);
    forall i | 0 <= i < |retained|
      ensures !IsCompaction(retained[i]) && !IsCompaction(StrippedAll(retained)[i])
    {
      var portable := Filter(Portable(), c["context"].items);
      if i < |portable| {
        FilterMembers(Portable(), c["context"].items, portable[i]);
      }
      StrippingKeepsKind(retained[i]);
    }
  }

  /** An upgraded checkpoint is a valid new one, so a second upgrade reports no change. */
  lemma UpgradeIsIdempotent(checkpoint: Json, notes: Option<Json>, prompt: string,
                            later: Option<Json>, prompt': string)
    requires Normalize(checkpoint, notes, prompt).Ok?
    ensures var c := Normalize(checkpoint, notes, prompt).value.checkpoint;
            Normalize(Obj(c), later, prompt') == Ok(Normalized(c, false, 0, false))
  {
    hide HasAny, StrippedAll, Filter, Blank, Utf8Length;
    var c := checkpoint.fields;
    if Get(c, "version") == Int(OLD_VERSION) {
      RetainedIsPortable(c, notes, prompt);
      FilterShrinks(Portable(), c["context"].items);
    }
  }

  /**
   The remaining context items stay in order, at most one notes item joins them at the end, and the
   epoch advances by one exactly when something was removed or restored.
   */
  lemma UpgradeKeepsContext(checkpoint: Json, notes: Option<Json>, prompt: string)
    requires Normalize(checkpoint, notes, prompt).Ok?
    requires Normalize(checkpoint, notes, prompt).value.changed
    ensures var before := checkpoint.fields;
            var n := Normalize(checkpoint, notes, prompt).value;
            var items := Get(n.checkpoint, "context");
            var portable := Filter(Portable(), before["context"].items);
            && items.Arr?
            && StrippedAll(items.items)
               == StrippedAll(portable)
                  + (if n.restored then [Stripped(NotesItem(prompt, notes.value.s))] else [])
            && n.removed == |before["context"].items| - |portable|
            && (n.restored ==> !HasAny(portable, item => IsNotes(item)))
            && (n.removed == 0 && !n.restored ==> items.items == before["context"].items)
            && n.checkpoint["context_epoch"]
               == Int(before["context_epoch"].n + if n.removed > 0 || n.restored then 1 else 0)
  {
    hide HasAny, Filter, Blank, Utf8Length, Stripped;
    var c := checkpoint.fields;
    FilterShrinks(Portable(), c["context"].items);
    var retained := Retained(c, notes, prompt);
    forall i | 0 <= i < |retained| ensures Stripped(Stripped(retained[i])) == Stripped(retained[i]) {
      StrippingKeepsKind(retained[i]);
    }
    assert StrippedAll(StrippedAll(retained)) == StrippedAll(retained);
    assert StrippedAll(c["context"].items) + [] == StrippedAll(c["context"].items);
    if Restores(c, notes) && notes.value.Str? {
      var portable, item := Filter(Portable(), c["context"].items), NotesItem(prompt, notes.value.s);
      assert StrippedAll(portable + [item]) == StrippedAll(portable) + [Stripped(item)];
    } else {
      assert StrippedAll(retained) + [] == StrippedAll(retained);
    }
  }

  /** Only the breakpoint of an item's content parts is gone; every other field is as it was. */
  ghost predicate OnlyUnmarked(before: Json, after: Json) {
    if !before.Obj? || "content" !in before.fields || !before.fields["content"].Arr? then after == before
    else
      && after.Obj? && after.fields.Keys == before.fields.Keys
      && (forall key :: key in before.fields && key != "content" ==> after.fields[key] == before.fields[key])
      && after.fields["content"].Arr?
      && var parts, rest := before.fields["content"].items, after.fields["content"].items;
         && |rest| == |parts|
         && forall k :: 0 <= k < |parts| ==>
                          if !parts[k].Obj? then rest[k] == parts[k]
                          else
                            && rest[k].Obj?
                            && rest[k].fields.Keys == parts[k].fields.Keys - {"_mobius_prompt_cache_breakpoint"}
                            && forall key :: key in rest[k].fields ==>
                                               rest[k].fields[key] == parts[k].fields[key]
  }

  lemma StrippedIsUnmarked(item: Json)
    ensures OnlyUnmarked(item, Stripped(item))
  {
  }

  /**
   Item by item: an upgrade drops exactly the compaction items, keeps the others in order with every
   field but the breakpoints, and adds at most the notes at the end. An item of a context that
   nothing was removed from or added to is identical.
   */
  lemma UpgradeKeepsItems(checkpoint: Json, notes: Option<Json>, prompt: string)
    requires Normalize(checkpoint, notes, prompt).Ok?
    requires Normalize(checkpoint, notes, prompt).value.changed
    ensures var before, n := checkpoint.fields, Normalize(checkpoint, notes, prompt).value;
            var portable := (item: Json) =>
              !(item.Obj? && (Get(item.fields, "type") == Str("compaction")
                              || Get(item.fields, "type") == Str("compaction_summary")));
            var items, kept := Get(n.checkpoint, "context").items, Filter(portable, before["context"].items);
            && |items| == |kept| + (if n.restored then 1 else 0)
            && n.removed == |before["context"].items| - |kept|
            && (n.removed == 0 && !n.restored ==> items == before["context"].items)
            && (n.removed > 0 || n.restored ==>
                  forall i :: 0 <= i < |kept| ==> OnlyUnmarked(kept[i], items[i]))
            && (n.restored ==>
                  && notes.Some? && notes.value.Str?
                  && items[|kept|]
                     == Obj(map["role" := Str("user"), "_mobius_internal" := Str("handoff_notes"),
                                "content" := Arr([Obj(map["type" := Str("input_text"),
                                                          "text" := Str(prompt + "\n\n" + notes.value.s)])])]))
            && (n.restored <==>
                  notes.Some? && forall i :: 0 <= i < |kept| ==>
                                               !(kept[i].Obj? && Get(kept[i].fields, "_mobius_internal")
                                                                 == Str("handoff_notes")))
  {
    hide Filter, Blank, Utf8Length, Stripped, OnlyUnmarked;
    var before := checkpoint.fields;
    var portable := (item: Json) =>
      !(item.Obj? && (Get(item.fields, "type") == Str("compaction")
                      || Get(item.fields, "type") == Str("compaction_summary")));
    FilterSame(Portable(), portable, before["context"].items);
    FilterShrinks(portable, before["context"].items);
    var retained := Retained(before, notes, prompt);
    forall i | 0 <= i < |retained| ensures OnlyUnmarked(retained[i], StrippedAll(retained)[i]) {
      StrippedIsUnmarked(retained[i]);
    }
    NotesAreUnmarked(prompt, if notes.Some? && notes.value.Str? then notes.value.s else "");
  }

  /** What else an upgrade sets: version and owner, and what a changed context resets. */
  lemma UpgradeSetsFields(checkpoint: Json, notes: Option<Json>, prompt: string)
    requires Normalize(checkpoint, notes, prompt).Ok?
    requires Normalize(checkpoint, notes, prompt).value.changed
    ensures var c, n := checkpoint.fields, Normalize(checkpoint, notes, prompt).value;
            && Get(c, "version") == Int(18) && Get(n.checkpoint, "version") == Int(19)
            && "context_model_route" in n.checkpoint && "model_route" in c
            && n.checkpoint["context_model_route"] == c["model_route"]
            && (if n.removed > 0 || n.restored then
                  && Get(c, "context_epoch").Int?
                  && Get(n.checkpoint, "context_epoch") == Int(c["context_epoch"].n + 1)
                  && Get(n.checkpoint, "last_usage") == Null
                  && Get(n.checkpoint, "last_context_rewrite") == Null
                else
                  && Get(n.checkpoint, "context_epoch") == Get(c, "context_epoch")
                  && Get(n.checkpoint, "last_usage") == Get(c, "last_usage")
                  && CurrentRewrite(Get(c, "last_context_rewrite"), Get(n.checkpoint, "last_context_rewrite")))
  {
    hide HasAny, Blank, Utf8Length, StrippedAll, Retained;
    var current := (reason: Json) => reason != Str("context_offloading");
    var rewrite := Get(checkpoint.fields, "last_context_rewrite");
    if rewrite.Obj? && "reasons" in rewrite.fields && rewrite.fields["reasons"].Arr? {
      FilterSame(Current(), current, rewrite.fields["reasons"].items);
    }
    hide Filter;
  }

  /** A rewrite record loses the retired reason, and goes when no other reason is left. */
  ghost predicate CurrentRewrite(before: Json, after: Json) {
    if before.Null? then after == Null
    else
      && before.Obj? && "reasons" in before.fields && before.fields["reasons"].Arr?
      && var reasons := Filter((reason: Json) => reason != Str("context_offloading"),
                               before.fields["reasons"].items);
         after == if reasons == [] then Null else Obj(before.fields["reasons" := Arr(reasons)])
  }

  /** Every retained item of a context: neither a compaction nor a compaction summary. */
  ghost predicate NoCompaction(items: seq<Json>) {
    forall i :: 0 <= i < |items| ==>
                  !(items[i].Obj? && (Get(items[i].fields, "type") == Str("compaction")
                                      || Get(items[i].fields, "type") == Str("compaction_summary")))
  }

  /** Null, or a name that is not blank. */
  predicate IsOwner(owner: Json) {
    owner == Null || (owner.Str? && !Blank(owner.s))
  }

  /** A current checkpoint is accepted, unchanged, exactly when it is whole. */
  lemma CurrentAccepted(c: Fields, notes: Option<Json>, prompt: string)
    requires Get(c, "version") == Int(19)
    ensures Normalize(Obj(c), notes, prompt).Ok? <==>
            && c.Keys <= ALLOWED && Get(c, "context").Arr? && "context_model_route" in c
            && IsOwner(c["context_model_route"])
            && Get(c, "context_epoch").Int? && 0 <= c["context_epoch"].n <= 0xFFFF_FFFF_FFFF_FFFF
            && NoCompaction(c["context"].items)
    ensures Normalize(Obj(c), notes, prompt).Ok? ==>
              Normalize(Obj(c), notes, prompt).value == Normalized(c, false, 0, false)
  {
    hide Blank;
  }

  /** An old checkpoint is upgraded exactly when its fields, its notes and its epoch allow it. */
  lemma OldAccepted(c: Fields, notes: Option<Json>, prompt: string)
    requires Get(c, "version") == Int(18) && Get(c, "context").Arr?
    ensures Normalize(Obj(c), notes, prompt).Ok? <==>
            var restores := notes.Some? && Restores(c, notes);
            var removes := !NoCompaction(c["context"].items);
            && c.Keys <= ALLOWED && "context_model_route" !in c && "model_route" in c
            && IsOwner(c["model_route"])
            && Get(c, "context_epoch").Int? && 0 <= c["context_epoch"].n <= 0xFFFF_FFFF_FFFF_FFFF
            && (c["model_route"] == Null ==> c["context"].items == [] && !restores)
            && (restores ==> notes.value.Str? && !Blank(notes.value.s) && Utf8Length(notes.value.s) <= 21_000)
            && (if restores || removes then c["context_epoch"].n < 0xFFFF_FFFF_FFFF_FFFF
                else
                  var rewrite := Get(c, "last_context_rewrite");
                  rewrite == Null || (rewrite.Obj? && "reasons" in rewrite.fields
                                      && rewrite.fields["reasons"].Arr?))
  {
    hide HasAny, Blank, Utf8Length, NormalizedOld, ValidOld, Restores, NoCompaction, Filter;
    OldIsValid(c);
    if ValidOld(c) {
      OldIsUpgraded(c, notes, prompt);
    }
  }

  lemma OldIsValid(c: Fields)
    requires Get(c, "context").Arr?
    ensures ValidOld(c) <==>
            && "context_model_route" !in c && "model_route" in c && IsOwner(c["model_route"])
            && Get(c, "context_epoch").Int? && 0 <= c["context_epoch"].n <= 0xFFFF_FFFF_FFFF_FFFF
            && (c["model_route"] == Null ==> c["context"].items == [])
  {
    hide Blank;
  }

  lemma OldIsUpgraded(c: Fields, notes: Option<Json>, prompt: string)
    requires Get(c, "context").Arr? && ValidOld(c)
    ensures NormalizedOld(c, notes, prompt).Ok? <==>
            var restores := notes.Some? && Restores(c, notes);
            var removes := !NoCompaction(c["context"].items);
            && (c["model_route"] == Null ==> !restores)
            && (restores ==> notes.value.Str? && !Blank(notes.value.s) && Utf8Length(notes.value.s) <= 21_000)
            && (if restores || removes then c["context_epoch"].n < 0xFFFF_FFFF_FFFF_FFFF
                else
                  var rewrite := Get(c, "last_context_rewrite");
                  rewrite == Null || (rewrite.Obj? && "reasons" in rewrite.fields
                                      && rewrite.fields["reasons"].Arr?))
  {
    FilterShrinks(Portable(), c["context"].items);
    PortableIsAll(c["context"].items);
    FilterNothing(Portable());
    if Restores(c, notes) {
      RestoresOnlyNotes(c, notes);
    }
    hide HasAny, Blank, Utf8Length, Filter, StrippedAll, NoCompaction, Restores;
    if Restores(c, notes) {
      assert ValidNotes(notes.value) ==> Retained(c, notes, prompt) != [];
    } else {
      assert Retained(c, notes, prompt) == Filter(Portable(), c["context"].items);
    }
  }

  lemma RestoresOnlyNotes(c: Fields, notes: Option<Json>)
    requires Get(c, "context").Arr? && Restores(c, notes)
    ensures notes.Some?
  {
  }

  lemma {:induction false} PortableIsAll(items: seq<Json>)
    ensures |Filter(Portable(), items)| == |items| <==> NoCompaction(items)
    decreases |items|
  {
    if items != [] {
      var front := items[..|items| - 1];
      PortableIsAll(front);
      FilterShrinks(Portable(), front);
      assert forall i :: 0 <= i < |front| ==> items[i] == front[i];
    }
  }

  /** The known fields, one by one. */
  lemma AllowedAre(key: string)
    ensures key in ALLOWED <==>
            || key == "version" || key == "session_id" || key == "session_context" || key == "metadata"
            || key == "catalog_visible" || key == "first_user_message" || key == "model_route"
            || key == "context_model_route" || key == "sequence" || key == "context"
            || key == "delivered_once" || key == "context_epoch" || key == "compaction_count"
            || key == "last_context_rewrite" || key == "total_usage" || key == "last_usage"
            || key == "pending_messages" || key == "active_execution" || key == "active_model_step"
            || key == "execution_stats" || key == "pending_tools" || key == "pending_approval"
  {
  }

  lemma NotesAreUnmarked(prompt: string, notes: string)
    ensures Stripped(NotesItem(prompt, notes)) == NotesItem(prompt, notes)
  {
    var part := Obj(map["type" := Str("input_text"), "text" := Str(prompt + "\n\n" + notes)]);
    assert StrippedPart(part) == part;
    assert StrippedParts([part]) == [part];
  }

  const REWRITTEN: set<string> := {
    "context", "context_epoch", "last_usage", "last_context_rewrite", "context_model_route", "version"}

  /** Nothing outside the rewritten fields changes, and the owner is the old model route. */
  lemma UpgradeKeepsOtherFields(checkpoint: Json, notes: Option<Json>, prompt: string, key: string)
    requires Normalize(checkpoint, notes, prompt).Ok? && key !in REWRITTEN
    ensures var n := Normalize(checkpoint, notes, prompt).value;
            && (key in n.checkpoint <==> key in checkpoint.fields)
            && (key in checkpoint.fields ==> n.checkpoint[key] == checkpoint.fields[key])
            && (n.changed ==> n.checkpoint["context_model_route"] == checkpoint.fields["model_route"])
  {
    hide HasAny, Filter, Blank, Utf8Length, StrippedAll, Reasons, Retained;
  }

  function NotesCount(items: seq<Json>): nat
    decreases |items|
  {
    if items == [] then 0
    else NotesCount(items[..|items| - 1]) + if IsNotes(items[|items| - 1]) then 1 else 0
  }

  lemma {:induction false} NoNotes(items: seq<Json>)
    requires !HasAny(items, item => IsNotes(item))
    ensures NotesCount(items) == 0
    decreases |items|
  {
    if items != [] {
      forall i | 0 <= i < |items| ensures !IsNotes(items[i]) {
      }
      NoNotes(items[..|items| - 1]);
    }
  }

  /** Restored notes are the only notes item of the upgraded context. */
  lemma RestoredNotesAreAlone(c: Fields, notes: Option<Json>, prompt: string)
    requires Get(c, "context").Arr? && Restores(c, notes) && notes.value.Str?
    ensures NotesCount(Retained(c, notes, prompt)) == 1
  {
    var portable, retained := Filter(Portable(), c["context"].items), Retained(c, notes, prompt);
    NoNotes(portable);
    assert retained[..|retained| - 1] == portable;
  }

  // ---------- rows ----------

  datatype Row = Row(epoch: int, index: int, item: Json)

  /** A checkpoint without its context, the columns beside it, and the context as rows. */
  datatype Split = Split(header: Fields, epoch: int, count: int, rows: seq<Row>)

  function SplitUp(c: Fields): Split
    requires Get(c, "context").Arr? && Get(c, "context_epoch").Int?
  {
    var items, epoch := c["context"].items, c["context_epoch"].n;
    Split(c - {"context"}, epoch, |items|,
          seq(|items|, i requires 0 <= i < |items| => Row(epoch, i, items[i])))
  }

  /** Joins a split checkpoint again, refusing retired rows, gaps and wrong columns. */
  method ValidateSplit(s: Split) returns (joined: Result<Fields, ()>)
    ensures joined.Ok? <==>
            && Get(s.header, "version") == Int(NEW_VERSION) && "context" !in s.header
            && 0 <= s.epoch <= MAX_SQLITE_INTEGER && s.count >= 0
            && Get(s.header, "context_epoch") == Int(s.epoch)
            && (forall i :: 0 <= i < |s.rows| ==> s.rows[i].epoch == s.epoch && s.rows[i].index == i)
            && |s.rows| == s.count
            && Normalize(Obj(s.header["context" := Arr(Items(s.rows))]), None, "").Ok?
    ensures joined.Ok? ==> joined.value == s.header["context" := Arr(Items(s.rows))]
  {
    hide Normalize;
    if Get(s.header, "version") != Int(NEW_VERSION) || "context" in s.header {
      return Err(());
    }
    if s.epoch < 0 || s.epoch > MAX_SQLITE_INTEGER || s.count < 0
       || Get(s.header, "context_epoch") != Int(s.epoch) {
      return Err(());
    }
    var context, i := [], 0;
    while i < |s.rows|
      invariant i <= |s.rows| && |context| == i
      invariant context == Items(s.rows)[..i]
      invariant forall k :: 0 <= k < i ==> s.rows[k].epoch == s.epoch && s.rows[k].index == k
    {
      if s.rows[i].epoch != s.epoch || s.rows[i].index != |context| {
        return Err(());
      }
      context := context + [s.rows[i].item];
      i := i + 1;
    }
    if |context| != s.count {
      return Err(());
    }
    assert context == Items(s.rows);
    var logical := s.header["context" := Arr(context)];
    var normalized := NormalizeCheckpoint(Obj(logical), None, "");
    if normalized.Err? {
      return Err(());
    }
    return Ok(logical);
  }

  function Items(rows: seq<Row>): seq<Json> {
    seq(|rows|, i requires 0 <= i < |rows| => rows[i].item)
  }

  /** An upgraded checkpoint that fits SQLite's integers splits into rows that join to it again. */
  method SplitRoundTrip(checkpoint: Json, notes: Option<Json>, prompt: string)
    returns (joined: Result<Fields, ()>)
    requires Normalize(checkpoint, notes, prompt).Ok?
    requires Normalize(checkpoint, notes, prompt).value.checkpoint["context_epoch"].n <= MAX_SQLITE_INTEGER
    ensures joined == Ok(Normalize(checkpoint, notes, prompt).value.checkpoint)
  {
    var c := Normalize(checkpoint, notes, prompt).value.checkpoint;
    UpgradeIsIdempotent(checkpoint, notes, prompt, None, "");
    hide Normalize;
    var s := SplitUp(c);
    assert Items(s.rows) == c["context"].items;
    assert s.header["context" := Arr(Items(s.rows))] == c;
    joined := ValidateSplit(s);
  }
}
