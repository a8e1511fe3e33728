/** Putting attachment materializations back next to the messages that compaction retained. */
module Attachments {
  import opened Sequences
  import opened Wrappers

  const ATTACHMENT_CONTEXT_MARKER := "attachments"

  /** A context item: the fields that restoration compares, and everything else about it. */
  datatype Item = Item(
    role: Option<string>, content: string, metadata: Option<string>, internal: Option<string>,
    rest: string)

  predicate IsUser(item: Item) {
    item.role == Some("user")
  }

  predicate IsMaterialization(item: Item) {
    item.internal == Some(ATTACHMENT_CONTEXT_MARKER)
  }

  /** Whether `item` is the retained form of `previous`. */
  predicate Matches(previous: Item, item: Item) {
    previous.role == item.role && previous.content == item.content && previous.metadata == item.metadata
  }

  // ---------- specification ----------

  /** The materialization that follows the latest original match of an item. */
  function Latest(original: seq<Item>, item: Item): Option<Item>
    decreases |original|
  {
    if |original| < 2 then None
    else
      var n := |original| - 1;
      if Matches(original[n - 1], item) && IsMaterialization(original[n]) then Some(original[n])
      else Latest(original[..n], item)
  }

  /** The materialization that restoration puts after an item: only user items have one. */
  function Target(original: seq<Item>, item: Item): Option<Item> {
    if IsUser(item) then Latest(original, item) else None
  }

  function Placed(item: Item, target: Option<Item>, rest: seq<Item>): seq<Item> {
    match target
    case None => [item] + rest
    case Some(m) =>
      if rest != [] && rest[0] == m then [item] + rest
      else if rest != [] && IsMaterialization(rest[0]) then [item, m] + rest[1..]
      else [item, m] + rest
  }

  function Restored(original: seq<Item>, compacted: seq<Item>): seq<Item>
    decreases |compacted|
  {
    if compacted == [] then []
    else Placed(compacted[0], Target(original, compacted[0]), Restored(original, compacted[1..]))
  }

  // ---------- the operations ----------

  method FindMaterialization(original: seq<Item>, item: Item) returns (found: Option<Item>)
    ensures found == Latest(original, item)
  {
    var n := |original|;
    assert original[..n] == original;
    while n >= 2
      invariant 0 <= n <= |original|
      invariant Latest(original, item) == Latest(original[..n], item)
    {
      if Matches(original[n - 2], item) && IsMaterialization(original[n - 1]) {
        return Some(original[n - 1]);
      }
      assert original[..n][..n - 1] == original[..n - 1];
      n := n - 1;
    }
    return None;
  }

  /** Puts a materialization after the item at `index`, in place of one that is already there. */
  method RestoreMaterialization(compacted: seq<Item>, index: nat, materialization: Option<Item>)
    returns (restored: seq<Item>)
    requires index < |compacted|
    ensures restored == compacted[..index]
                        + Placed(compacted[index], materialization, compacted[index + 1..])
  {
    if materialization.None? {
      assert compacted == compacted[..index] + ([compacted[index]] + compacted[index + 1..]);
      return compacted;
    }
    var m, slot := materialization.value, index + 1;
    if slot < |compacted| && compacted[slot] == m {
      assert compacted == compacted[..index] + ([compacted[index]] + compacted[slot..]);
      return compacted;
    } else if slot < |compacted| && IsMaterialization(compacted[slot]) {
      assert compacted[slot := m]
             == compacted[..index] + ([compacted[index], m] + compacted[slot..][1..]);
      return compacted[slot := m];
    } else {
      assert InsertAt(compacted, slot, m)
             == compacted[..index] + ([compacted[index], m] + compacted[slot..]);
      return InsertAt(compacted, slot, m);
    }
  }

  /** Walks the compacted input backwards, inserting into the list it walks. */
  method PrepareCompactedInput(original: seq<Item>, compacted: seq<Item>) returns (prepared: seq<Item>)
    ensures prepared == Restored(original, compacted)
  {
    prepared := compacted;
    var index := |compacted|;
    assert compacted[..index] == compacted;
    while index > 0
      invariant 0 <= index <= |compacted|
      invariant prepared == compacted[..index] + Restored(original, compacted[index..])
    {
      index := index - 1;
      assert compacted[..index + 1] == compacted[..index] + [compacted[index]];
      assert prepared[..index] == compacted[..index] && prepared[index] == compacted[index];
      assert prepared[index + 1..] == Restored(original, compacted[index + 1..]);
      assert compacted[index..][1..] == compacted[index + 1..];
      if IsUser(prepared[index]) {
        var found := FindMaterialization(original, prepared[index]);
        prepared := RestoreMaterialization(prepared, index, found);
      } else {
        assert prepared == compacted[..index] + ([compacted[index]] + prepared[index + 1..]);
      }
    }
    assert compacted[0..] == compacted;
  }

  // ---------- what restoration achieves ----------

  /** The match at `p` is followed by a materialization, and no later match is. */
  predicate LatestAt(original: seq<Item>, item: Item, p: nat) {
    && p + 1 < |original| && Matches(original[p], item) && IsMaterialization(original[p + 1])
    && NoneFrom(original, item, p + 1)
  }

  predicate NoneFrom(original: seq<Item>, item: Item, from: nat) {
    forall q :: from <= q < |original| - 1 && Matches(original[q], item)
                ==> !IsMaterialization(original[q + 1])
  }

  /** The latest match decides, and what it finds is a materialization of the original. */
  lemma {:induction false} LatestIsLatest(original: seq<Item>, item: Item)
    ensures Latest(original, item).None? ==> NoneFrom(original, item, 0)
    ensures Latest(original, item).Some? ==>
              exists p: nat :: LatestAt(original, item, p)
                               && original[p + 1] == Latest(original, item).value
    decreases |original|
  {
    if |original| >= 2 {
      var n := |original| - 1;
      if Matches(original[n - 1], item) && IsMaterialization(original[n]) {
        assert LatestAt(original, item, n - 1);
      } else {
        LatestIsLatest(original[..n], item);
        if Latest(original[..n], item).Some? {
          var p: nat :| LatestAt(original[..n], item, p)
                        && original[..n][p + 1] == Latest(original[..n], item).value;
          NoneExtends(original, item, p + 1);
          assert LatestAt(original, item, p);
        } else {
          NoneExtends(original, item, 0);
        }
      }
    }
  }

  lemma NoneExtends(original: seq<Item>, item: Item, from: nat)
    requires |original| >= 2 && NoneFrom(original[..|original| - 1], item, from)
    requires !(Matches(original[|original| - 2], item) && IsMaterialization(original[|original| - 1]))
    ensures NoneFrom(original, item, from)
  {
    var front := original[..|original| - 1];
    forall q | from <= q < |original| - 1 && Matches(original[q], item)
      ensures !IsMaterialization(original[q + 1])
    {
      if q < |original| - 2 { assert front[q] == original[q] && front[q + 1] == original[q + 1]; }
    }
  }

  /** Every item with a target is immediately followed by it. */
  predicate Done(original: seq<Item>, items: seq<Item>) {
    forall i :: 0 <= i < |items| && Target(original, items[i]).Some? ==>
                  i + 1 < |items| && items[i + 1] == Target(original, items[i]).value
  }

  function Ordinary(): Item -> bool {
    (item: Item) => !IsMaterialization(item)
  }

  /** The message at `i`, if it is one with a target, is followed by it. */
  predicate Served(original: seq<Item>, items: seq<Item>, i: nat)
    requires i < |items|
  {
    !IsMaterialization(items[i]) && Target(original, items[i]).Some? ==>
      i + 1 < |items| && items[i + 1] == Target(original, items[i]).value
  }

  /** Every retained message with a materialization is followed by its latest one. */
  lemma {:induction false} RetainedMessagesKeepTheirAttachments(original: seq<Item>, compacted: seq<Item>)
    ensures forall i: nat :: i < |Restored(original, compacted)| ==>
                               Served(original, Restored(original, compacted), i)
    decreases |compacted|
  {
    hide Target;
    if compacted != [] {
      var rest := Restored(original, compacted[1..]);
      var target, items := Target(original, compacted[0]), Restored(original, compacted);
      RetainedMessagesKeepTheirAttachments(original, compacted[1..]);
      TargetIsMaterialization(original, compacted[0]);
      forall i: nat | i < |items| ensures Served(original, items, i) {
        if target.None? || (rest != [] && rest[0] == target.value) {
          if i > 0 { assert Served(original, rest, i - 1); }
        } else if rest != [] && IsMaterialization(rest[0]) {
          if i > 1 { assert Served(original, rest, i - 1); }
        } else {
          if i > 1 { assert Served(original, rest, i - 2); }
        }
      }
    }
  }

  lemma TargetIsMaterialization(original: seq<Item>, item: Item)
    ensures Target(original, item).Some? ==> IsMaterialization(Target(original, item).value)
  {
    LatestIsLatest(original, item);
  }

  /** Everything that is not a materialization stays, in order. */
  lemma {:induction false} OthersKeepTheirOrder(original: seq<Item>, compacted: seq<Item>)
    ensures Filter(Ordinary(), Restored(original, compacted)) == Filter(Ordinary(), compacted)
    decreases |compacted|
  {
    if compacted != [] {
      var item, rest := compacted[0], Restored(original, compacted[1..]);
      OthersKeepTheirOrder(original, compacted[1..]);
      TargetIsMaterialization(original, item);
      assert compacted == [item] + compacted[1..];
      FilterConcat(Ordinary(), [item], compacted[1..]);
      PlacedKeepsOthers(item, Target(original, item), rest);
    }
  }

  lemma PlacedKeepsOthers(item: Item, target: Option<Item>, rest: seq<Item>)
    requires target.Some? ==> IsMaterialization(target.value)
    ensures Filter(Ordinary(), Placed(item, target, rest))
            == Filter(Ordinary(), [item]) + Filter(Ordinary(), rest)
  {
    hide Filter;
    FilterConcat(Ordinary(), [item], rest);
    if target.Some? {
      var m := target.value;
      FilterConcat(Ordinary(), [item], [m]);
      FilterMaterialization(m);
      assert [item] + [m] == [item, m];
      FilterConcat(Ordinary(), [item, m], rest);
      assert Filter(Ordinary(), [item]) + [] == Filter(Ordinary(), [item]);
      if rest != [] && IsMaterialization(rest[0]) {
        FilterConcat(Ordinary(), [item, m], rest[1..]);
        FilterConcat(Ordinary(), [rest[0]], rest[1..]);
        FilterMaterialization(rest[0]);
        assert rest == [rest[0]] + rest[1..];
      }
    }
  }

  lemma FilterMaterialization(m: Item)
    requires IsMaterialization(m)
    ensures Filter(Ordinary(), [m]) == []
  {
    assert [m][..0] == [];
  }

  // ---------- idempotence ----------

  /** No materialization that restoration puts back asks for another one after it. */
  ghost predicate Settled(original: seq<Item>) {
    forall p :: 0 <= p < |original| && Target(original, original[p]).Some? ==>
                  Target(original, Target(original, original[p]).value).None?
  }

  lemma {:induction false} DoneIsFixed(original: seq<Item>, items: seq<Item>)
    requires Done(original, items)
    ensures Restored(original, items) == items
    decreases |items|
  {
    hide Target;
    if items != [] {
      assert Done(original, items[1..]);
      DoneIsFixed(original, items[1..]);
      assert items == [items[0]] + items[1..];
    }
  }

  /** Items that match the same original item have the same target. */
  lemma {:induction false} SameLatest(original: seq<Item>, a: Item, b: Item)
    requires Matches(a, b)
    ensures Latest(original, a) == Latest(original, b)
    decreases |original|
  {
    if |original| >= 2 {
      SameLatest(original[..|original| - 1], a, b);
    }
  }

  lemma SettledTargets(original: seq<Item>, item: Item)
    requires Settled(original) && Target(original, item).Some?
    ensures Target(original, Target(original, item).value).None?
  {
    LatestIsLatest(original, item);
    var p: nat :| LatestAt(original, item, p) && original[p + 1] == Target(original, item).value;
    SameLatest(original, original[p], item);
  }

  lemma {:induction false} RestoredIsDone(original: seq<Item>, compacted: seq<Item>)
    requires Settled(original)
    ensures Done(original, Restored(original, compacted))
    decreases |compacted|
  {
    hide Target, Settled;
    if compacted != [] {
      RestoredIsDone(original, compacted[1..]);
      if Target(original, compacted[0]).Some? {
        SettledTargets(original, compacted[0]);
      }
    }
  }

  /**
   A second application changes nothing, for every compacted input, exactly when no restored
   materialization has a target of its own.
   */
  lemma IdempotentIffSettled(original: seq<Item>)
    ensures (forall compacted ::
               Restored(original, Restored(original, compacted)) == Restored(original, compacted))
            <==> Settled(original)
  {
    if Settled(original) {
      forall compacted
        ensures Restored(original, Restored(original, compacted)) == Restored(original, compacted)
      {
        RestoredIsDone(original, compacted);
        DoneIsFixed(original, Restored(original, compacted));
      }
    } else {
      var p :| 0 <= p < |original| && Target(original, original[p]).Some?
               && Target(original, Target(original, original[p]).value).Some?;
      ChainGrows(original, original[p]);
    }
  }

  /** A materialization with a target of its own: the second application adds it, the third nothing. */
  lemma ChainGrows(original: seq<Item>, item: Item)
    requires Target(original, item).Some? && Target(original, Target(original, item).value).Some?
    ensures var m := Target(original, item).value;
            var last := Target(original, m).value;
            && Restored(original, [item]) == [item, m]
            && Restored(original, [item, m]) == [item, m, last]
            && (Target(original, last).None? ==>
                  Restored(original, [item, m, last]) == [item, m, last])
  {
    var m := Target(original, item).value;
    var last := Target(original, m).value;
    assert [item][1..] == [] && [item, m][1..] == [m] && [m][1..] == [];
    assert [item, m, last][1..] == [m, last] && [m, last][1..] == [last] && [last][1..] == [];
    assert Restored(original, []) == [];
    assert Restored(original, [m]) == [m, last];
    if Target(original, last).None? {
      assert Restored(original, [last]) == [last];
      assert Restored(original, [m, last]) == [m, last];
    }
  }

  lemma NoneFound(original: seq<Item>, item: Item)
    requires NoneFrom(original, item, 0)
    ensures Latest(original, item).None?
  {
    LatestIsLatest(original, item);
  }

  /** No two materializations are adjacent, and no other item could be taken for one. */
  ghost predicate WellSpaced(original: seq<Item>) {
    && (forall i :: 0 <= i < |original| - 1 ==>
                      !(IsMaterialization(original[i]) && IsMaterialization(original[i + 1])))
    && (forall i, j :: 0 <= i < |original| && 0 <= j < |original|
                       && IsMaterialization(original[i]) && Matches(original[j], original[i])
                       ==> IsMaterialization(original[j]))
  }

  lemma WellSpacedSettles(original: seq<Item>)
    requires WellSpaced(original)
    ensures Settled(original)
  {
    forall p | 0 <= p < |original| && Target(original, original[p]).Some?
      ensures Target(original, Target(original, original[p]).value).None?
    {
      LatestIsLatest(original, original[p]);
      var m := Target(original, original[p]).value;
      var q: nat :| LatestAt(original, original[p], q) && original[q + 1] == m;
      forall k: nat | k + 1 < |original| && Matches(original[k], m)
        ensures !IsMaterialization(original[k + 1])
      {
        assert IsMaterialization(original[k]) by {
          assert Matches(original[k], original[q + 1]);
        }
      }
      NoneFound(original, m);
    }
  }

  /** From position `from` on, no item that reads like this one has a materialization behind it. */
  predicate NothingBehind(original: seq<Item>, item: Item, from: nat) {
    forall q: nat :: from <= q && q + 1 < |original| && SameMessage(original[q], item)
                     ==> original[q + 1].internal != Some("attachments")
  }

  predicate SameMessage(a: Item, b: Item) {
    a.role == b.role && a.content == b.content && a.metadata == b.metadata
  }

  /**
   What is restored behind an item, field by field: only a user's, and then the materialization that
   follows the last original item with its role, content and metadata and has one behind it.
   */
  lemma TargetIs(original: seq<Item>, item: Item) returns (p: nat)
    ensures Target(original, item).Some? ==>
              && item.role == Some("user")
              && p + 1 < |original| && SameMessage(original[p], item)
              && original[p + 1] == Target(original, item).value
              && original[p + 1].internal == Some("attachments")
              && NothingBehind(original, item, p + 1)
    ensures Target(original, item).None? && item.role == Some("user") ==> NothingBehind(original, item, 0)
  {
    LatestIsLatest(original, item);
    p := 0;
    if Target(original, item).Some? {
      p :| LatestAt(original, item, p) && original[p + 1] == Target(original, item).value;
      assert NoneFrom(original, item, p + 1);
    }
    forall q: nat | q + 1 < |original| ensures SameMessage(original[q], item) <==> Matches(original[q], item) {
    }
  }

  function User(content: string, metadata: Option<string>): Item {
    Item(Some("user"), content, metadata, None, "")
  }

  function Media(content: string): Item {
    Item(Some("user"), content, None, Some(ATTACHMENT_CONTEXT_MARKER), "")
  }

  /** Adjacent materializations in the original make the second application add one more. */
  lemma AdjacentMaterializationsGrow()
    ensures var original := [User("inspect", Some("1")), Media("first"), Media("second")];
            && Restored(original, original[..1]) == original[..2]
            && Restored(original, original[..2]) == original == Restored(original, original)
  {
    var original := [User("inspect", Some("1")), Media("first"), Media("second")];
    assert original[..2] == [original[0], original[1]];
    assert Target(original, original[0]) == Some(original[1]);
    assert Target(original, original[1]) == Some(original[2]);
    NoneFound(original, original[2]);
    assert original[..1] == [original[0]];
    ChainGrows(original, original[0]);
  }

  /** Keeping them apart is not enough when a message reads like a materialization. */
  lemma LookalikesGrow()
    ensures var original := [User("inspect", Some("1")), Media("first"), User("first", None), Media("second")];
            && (forall i :: 0 <= i < |original| - 1 ==>
                              !(IsMaterialization(original[i]) && IsMaterialization(original[i + 1])))
            && Restored(original, original[..1]) == original[..2]
            && Restored(original, original[..2]) == original[..2] + [original[3]]
            && Restored(original, original[..2] + [original[3]]) == original[..2] + [original[3]]
  {
    var original := [User("inspect", Some("1")), Media("first"), User("first", None), Media("second")];
    assert original[..3] == [original[0], original[1], original[2]];
    assert original[..3][..2] == [original[0], original[1]];
    assert Latest(original[..3][..2], original[0]) == Some(original[1]);
    assert Latest(original[..3], original[0]) == Some(original[1]);
    assert Target(original, original[0]) == Some(original[1]);
    assert Target(original, original[1]) == Some(original[3]);
    NoneFound(original, original[3]);
    assert original[..1] == [original[0]] && original[..2] == [original[0], original[1]];
    ChainGrows(original, original[0]);
  }
}
