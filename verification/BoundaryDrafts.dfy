/**
 The two views of a model boundary: the staged input with its cache markers, and the draft that the
 runner commits. The positions announced at the boundary are related to where a save puts the items.
 */
module BoundaryDrafts {
  import opened Checkpoint
  import D = DeliveryOnce
  import opened Preparation
  import Refinement = RunnerRefinement
  import Staged = StagedInput
  import opened Wrappers

  /** How the runner sees an item: its markers do not show. */
  ghost predicate HidesMarkers(view: Staged.Item -> D.Item) {
    forall x, y :: Staged.Bare(x) == Staged.Bare(y) ==> view(x) == view(y)
  }

  function Viewed(view: Staged.Item -> D.Item, items: seq<Staged.Item>): seq<D.Item> {
    seq(|items|, i requires 0 <= i < |items| => view(items[i]))
  }

  /** What a hook changes, as the runner sees it. */
  function ChangeOf(view: Staged.Item -> D.Item, seen: seq<Staged.Item>, hook: Staged.Hook): Change {
    match hook
    case Rewrite(_, input) =>
      if input != seen && Viewed(view, input) == Viewed(view, seen) then Mark
      else Rewrite(Viewed(view, input))
    case Append(item) => Append(view(item))
    case PushInput(item) => Push(view(item))
    case RecordItem(item) => Note(view(item))
  }

  function ChangesOf(view: Staged.Item -> D.Item, b: Staged.Boundary, hooks: seq<Staged.Hook>)
    : seq<Change>
    decreases |hooks|
  {
    if hooks == [] then []
    else
      var front := hooks[..|hooks| - 1];
      ChangesOf(view, b, front) + [ChangeOf(view, Staged.Run(b, front).input, hooks[|hooks| - 1])]
  }

  /** The draft and the boundary show the same context, transcript and dirty flag. */
  ghost predicate Mirrors(view: Staged.Item -> D.Item, b: Staged.Boundary, d: Draft) {
    d.context == Viewed(view, b.input) && d.transcript == Viewed(view, b.transcript)
    && d.changed == b.changed
  }

  lemma ViewedPush(view: Staged.Item -> D.Item, items: seq<Staged.Item>, item: Staged.Item)
    ensures Viewed(view, items + [item]) == Viewed(view, items) + [view(item)]
  {
  }

  lemma ViewedReset(view: Staged.Item -> D.Item, items: seq<Staged.Item>)
    requires HidesMarkers(view)
    ensures Viewed(view, Staged.Reset(items)) == Viewed(view, items)
  {
    hide Staged.Bare;
    Staged.ResetMovesOnlyMarkers(items);
  }

  lemma ChangeMirrors(view: Staged.Item -> D.Item, b: Staged.Boundary, hook: Staged.Hook, d: Draft)
    requires HidesMarkers(view) && Mirrors(view, b, d)
    requires b.reasons != [] || b.epoch < U64_MAX
    ensures Changed(d, ChangeOf(view, b.input, hook)).Some?
    ensures var after := Changed(d, ChangeOf(view, b.input, hook)).value;
            && Mirrors(view, Staged.Next(b, hook), after)
            && after.delivered == d.delivered && after.entered == d.entered
  {
    hide HidesMarkers, Viewed, Staged.Reset;
    match hook
    case Rewrite(_, input) => ViewedReset(view, input);
    case Append(item) => ViewedPush(view, b.input, item);
    case PushInput(item) =>
      ViewedPush(view, b.input, item);
      ViewedPush(view, b.transcript, item);
    case RecordItem(item) => ViewedPush(view, b.transcript, item);
  }

  /** Running the hooks on the staged input is drafting what the runner then commits. */
  lemma {:induction false} BoundaryIsDraft(view: Staged.Item -> D.Item, b: Staged.Boundary,
                                           hooks: seq<Staged.Hook>, d: Draft)
    requires HidesMarkers(view) && Mirrors(view, b, d)
    requires b.reasons == [] && b.epoch < U64_MAX
    ensures Drafted(d, ChangesOf(view, b, hooks)).Some?
    ensures var after := Drafted(d, ChangesOf(view, b, hooks)).value;
            && Mirrors(view, Staged.Run(b, hooks), after)
            && after.delivered == d.delivered && after.entered == d.entered
    decreases |hooks|
  {
    hide HidesMarkers, Mirrors, ChangeOf, Changed, Staged.Next;
    if hooks != [] {
      var front := hooks[..|hooks| - 1];
      var changes := ChangesOf(view, b, hooks);
      BoundaryIsDraft(view, b, front, d);
      Staged.EpochCountsBoundaries(b, front);
      ChangeMirrors(view, Staged.Run(b, front), hooks[|hooks| - 1],
                    Drafted(d, ChangesOf(view, b, front)).value);
      assert changes[..|changes| - 1] == ChangesOf(view, b, front);
    }
  }

  // ---------- announced positions ----------

  lemma {:induction false} TranscriptGrows(b: Staged.Boundary, hooks: seq<Staged.Hook>, j: nat)
    requires j <= |hooks|
    ensures Staged.Run(b, hooks[..j]).transcript <= Staged.Run(b, hooks).transcript
    decreases |hooks|
  {
    if j < |hooks| {
      assert hooks[..|hooks| - 1][..j] == hooks[..j];
      TranscriptGrows(b, hooks[..|hooks| - 1], j);
    } else {
      assert hooks[..j] == hooks;
    }
  }

  /** A target announced before the queue was saved meanwhile follows the new sequence. */
  function Rebased(target: MessageTarget, provisional: nat, durable: nat): MessageTarget {
    if target.sequence == provisional then target.(sequence := durable) else target
  }

  /**
   An item pushed at the boundary lands after what was unsaved, and nothing else lands there. Its
   announced position, rebased over the saves of the queue meanwhile, is that one if and only if
   nothing was unsaved when the draft was committed.
   */
  lemma PushedItemLands(view: Staged.Item -> D.Item, w: World, d: Draft, sequence: nat,
                        b: Staged.Boundary, hooks: seq<Staged.Hook>, j: nat, events: seq<Event>)
    requires Ascending(w.store.batches, w.state.sequence)
    requires Mirrors(view, Staged.Run(b, hooks), d) && b.transcript == []
    requires j < |hooks| && hooks[j].PushInput? && Staged.Announced(
                      sequence, |Staged.Run(b, hooks[..j]).transcript|).Some?
    ensures var count := |Staged.Run(b, hooks[..j]).transcript|;
            var announced := Rebased(Staged.Announced(sequence, count).value,
                                     sequence + 1, w.state.sequence + 1);
            var landed := MessageTarget(w.state.sequence + 1, 1 + (|w.delta| + count));
            && Refinement.Lands(Saved(Committed(w, d), events, None).store.batches, landed,
                                view(hooks[j].item))
            && (announced == landed <==> w.delta == [])
  {
    hide Refinement.Lands, Ascending;
    var before, count := hooks[..j], |Staged.Run(b, hooks[..j]).transcript|;
    Staged.RunPush(b, hooks, j);
    TranscriptGrows(b, hooks, j + 1);
    var committed := Committed(w, d);
    assert committed.delta[|w.delta| + count] == d.transcript[count] == view(hooks[j].item);
    Refinement.SavedLands(committed, events, None, |w.delta| + count);
  }
}
