/**
 Preparing a model request: what the hooks of one boundary change in the context. All of it stays
 a draft until every hook has succeeded.
 */
module Preparation {
  import opened Balance
  import opened Checkpoint
  import opened DeliveryOnce
  import Guidance = OnceOnly
  import opened Sequences
  import opened Wrappers

  /**
   Rewrite replaces the context; Append adds to it, Note to the transcript, and Push to both.
   Guide runs the session-start hooks on it: a compaction is a Rewrite, a Note and a Guide. Mark
   moves nothing but a cache marker, which an item here does not show.
   */
  datatype Change =
    | Rewrite(input: seq<Item>)
    | Mark
    | Append(item: Item)
    | Push(item: Item)
    | Note(item: Item)
    | Guide(hooks: seq<Guidance.Hook>)
    | Fails

  /** `entered` is history: the identities that got a receipt. */
  datatype Draft = Draft(
    context: seq<Item>, delivered: Receipts, transcript: seq<Item>, changed: bool,
    entered: seq<Identity>)

  function Changed(d: Draft, c: Change): Option<Draft> {
    match c
    case Rewrite(input) =>
      Some(if input == d.context then d else d.(context := input, changed := true))
    case Mark => Some(d.(changed := true))
    case Append(item) => Some(d.(context := d.context + [item], changed := true))
    case Push(item) =>
      Some(d.(context := d.context + [item], transcript := d.transcript + [item], changed := true))
    case Note(item) => Some(d.(transcript := d.transcript + [item], changed := true))
    case Guide(hooks) =>
      (match Guidance.Staged(d.delivered, d.context, hooks)
       case None => None
       case Some(staged) =>
         Some(d.(
              context := staged, delivered := Accepted(d.delivered, staged),
              entered := d.entered + Guidance.Identities(Kept(d.delivered, staged)))))
    case Fails => None
  }

  /** The draft after the hooks, or None when one of them failed. */
  function Drafted(d: Draft, changes: seq<Change>): Option<Draft>
    decreases |changes|
  {
    if changes == [] then Some(d)
    else
      match Drafted(d, changes[..|changes| - 1])
      case None => None
      case Some(before) => Changed(before, changes[|changes| - 1])
  }

  function DraftOf(s: Checkpoint): Draft {
    Draft(s.context, s.delivered, [], false, [])
  }

  /** Accepts a draft whose hooks changed something. */
  function Committed(w: World, d: Draft): World {
    w.(state := w.state.(context := d.context, delivered := d.delivered), delta := w.delta + d.transcript)
  }

  /** What a boundary leaves: a failed hook leaves nothing, a refused save leaves the accepted draft. */
  function Prepared(w: World, changes: seq<Change>, events: seq<Event>, stored: bool): World {
    match Accepting(w, changes)
    case None => w
    case Some(d) =>
      var saved := Persist(Committed(w, d), events, None, stored);
      if saved.Ok? then saved.value else Committed(w, d)
  }

  /** The draft that a boundary accepts, if it accepts one that changes anything. */
  function Accepting(w: World, changes: seq<Change>): (accepted: Option<Draft>)
    ensures accepted.Some? ==> accepted == Drafted(DraftOf(w.state), changes)
  {
    if w.state.sequence >= U64_MAX then None
    else
      match Drafted(DraftOf(w.state), changes)
      case None => None
      case Some(d) => if d.changed then Some(d) else None
  }

  /** The items that changes add to the transcript. */
  function PushedBy(changes: seq<Change>): seq<Item>
    decreases |changes|
  {
    if changes == [] then []
    else
      var last := changes[|changes| - 1];
      PushedBy(changes[..|changes| - 1]) + if last.Push? || last.Note? then [last.item] else []
  }

  lemma {:induction false} DraftPushes(d: Draft, changes: seq<Change>)
    requires Drafted(d, changes).Some?
    ensures Drafted(d, changes).value.transcript == d.transcript + PushedBy(changes)
    ensures PushedBy(changes) != [] ==> Drafted(d, changes).value.changed
    ensures d.changed ==> Drafted(d, changes).value.changed
    decreases |changes|
  {
    if changes != [] {
      var front, last := changes[..|changes| - 1], changes[|changes| - 1];
      DraftPushes(d, front);
      if last.Push? || last.Note? {
        Assoc(d.transcript, PushedBy(front), [last.item]);
      } else {
        assert PushedBy(front) + [] == PushedBy(front);
      }
    }
  }

  // ---------- what a boundary keeps ----------

  predicate QuietHooks(hooks: seq<Guidance.Hook>) {
    forall i :: 0 <= i < |hooks| && hooks[i].Offer? ==> IsQuiet(Item(hooks[i].body, None))
  }

  /**
   What a change relies on: a replacement has the same open calls, and guidance only once and only
   what was delivered before; other hooks add messages and guidance.
   */
  ghost predicate Sound(d: Draft, c: Change, open: set<string>) {
    match c
    case Rewrite(input) =>
      && Matched(input, open) && OnceEach(input)
      && forall id :: Has(input, id) ==> Contains(d.delivered, id)
    case Append(item) => IsQuiet(item) && item.receipt.None?
    case Push(item) => IsQuiet(item) && item.receipt.None?
    case Guide(hooks) => QuietHooks(hooks)
    case _ => true
  }

  ghost predicate AllSound(d: Draft, changes: seq<Change>, open: set<string>)
    decreases |changes|
  {
    changes == []
    || (var front := changes[..|changes| - 1];
        && AllSound(d, front, open)
        && (Drafted(d, front).Some? ==>
              Sound(Drafted(d, front).value, changes[|changes| - 1], open)))
  }

  /** The calls and the guidance of a draft are in order. */
  ghost predicate Orderly(d: Draft, open: set<string>) {
    Matched(d.context, open) && Guidance.Known(d.delivered, d.context)
  }

  lemma {:induction false} StagedMatched(r: Receipts, context: seq<Item>, hooks: seq<Guidance.Hook>,
                                         open: set<string>)
    requires Matched(context, open) && QuietHooks(hooks) && Guidance.Staged(r, context, hooks).Some?
    ensures Matched(Guidance.Staged(r, context, hooks).value, open)
    decreases |hooks|
  {
    hide Matched;
    if hooks != [] {
      var front, last := hooks[..|hooks| - 1], hooks[|hooks| - 1];
      StagedMatched(r, context, front, open);
      var before := Guidance.Staged(r, context, front).value;
      var after := Guidance.Staged(r, context, hooks).value;
      assert last.Offer? ==> IsQuiet(Item(last.body, None));
      if after != before {
        QuietKeeps(before, [after[|before|]], open);
        assert after == before + [after[|before|]];
      }
    }
  }

  lemma AddedKeeps(d: Draft, item: Item, open: set<string>)
    requires Orderly(d, open) && IsQuiet(item) && item.receipt.None?
    ensures Orderly(d.(context := d.context + [item]), open)
  {
    hide Matched, Guidance.Known;
    QuietKeeps(d.context, [item], open);
    Guidance.PlainGrows(d.delivered, d.context, [item]);
    Guidance.GrowsKeeps(d.delivered, d.context, d.delivered, d.context + [item]);
  }

  /** One sound change keeps a draft orderly, and its history exact. */
  lemma ChangeKeeps(d: Draft, c: Change, open: set<string>, r: Receipts)
    requires Orderly(d, open) && Sound(d, c, open) && Changed(d, c).Some?
    requires Guidance.Enters(r, d.delivered, d.entered)
    ensures var after := Changed(d, c).value;
            Orderly(after, open) && Guidance.Enters(r, after.delivered, after.entered)
  {
    hide Matched, Guidance.Enters, Guidance.Staged, Accepted, Kept, OnceEach;
    match c
    case Rewrite(_) =>
    case Mark =>
    case Note(_) =>
    case Append(item) => AddedKeeps(d, item, open);
    case Push(item) => AddedKeeps(d, item, open);
    case Guide(hooks) =>
      var staged := Guidance.Staged(d.delivered, d.context, hooks).value;
      StagedMatched(d.delivered, d.context, hooks, open);
      Guidance.StagedKnown(d.delivered, d.context, hooks);
      Guidance.EntersTwice(r, d.delivered, Accepted(d.delivered, staged), d.entered,
                           Guidance.Identities(Kept(d.delivered, staged)));
  }

  lemma {:induction false} DraftKeeps(d: Draft, changes: seq<Change>, open: set<string>)
    requires Orderly(d, open) && d.entered == [] && AllSound(d, changes, open)
    ensures Drafted(d, changes).Some? ==>
              var after := Drafted(d, changes).value;
              Orderly(after, open) && Guidance.Enters(d.delivered, after.delivered, after.entered)
    decreases |changes|
  {
    hide Orderly, Sound, Changed, Guidance.Enters;
    if changes != [] {
      DraftKeeps(d, changes[..|changes| - 1], open);
      if Drafted(d, changes).Some? {
        ChangeKeeps(Drafted(d, changes[..|changes| - 1]).value, changes[|changes| - 1], open, d.delivered);
      }
    } else {
      Guidance.EntersNothing(d.delivered);
    }
  }
}
