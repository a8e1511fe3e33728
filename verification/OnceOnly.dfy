/** Session-start hooks, and once-only guidance over whole runs. */
module OnceOnly {
  import opened DeliveryOnce
  import opened Wrappers

  /**
   What one session-start hook does: it offers an item, once only with a key, asks to stop the
   turn, or fails.
   */
  datatype Hook = Offer(owner: string, key: Option<string>, body: Body) | Stop(reason: string) | Fails

  /** The input after the hooks ran in order, or None when one of them failed. */
  function Staged(r: Receipts, input: seq<Item>, hooks: seq<Hook>): Option<seq<Item>>
    decreases |hooks|
  {
    if hooks == [] then Some(input)
    else
      match Staged(r, input, hooks[..|hooks| - 1])
      case None => None
      case Some(before) =>
        match hooks[|hooks| - 1]
        case Fails => None
        case Stop(_) => Some(before)
        case Offer(owner, key, body) => Delivered(r, before, owner, key, body)
  }

  /**
   Runs the hooks. When one fails during compaction the compacted input comes back; when one fails
   as a session opens, the hooks that had started are ended, last first. The first reason to stop
   is the one reported.
   */
  method SessionStart(r: Receipts, input: seq<Item>, hooks: seq<Hook>, compaction: bool)
    returns (receipts: Receipts, staged: seq<Item>, ok: bool, ended: seq<nat>, stop: Option<string>)
    ensures ok == Staged(r, input, hooks).Some?
    ensures ok ==> staged == Staged(r, input, hooks).value && receipts == Accepted(r, staged)
    ensures !ok ==> receipts == r && (compaction ==> staged == input)
    ensures ok ==> match stop
                   case None => NoStop(hooks, |hooks|)
                   case Some(reason) => exists k: nat :: FirstStop(hooks, k, reason)
    ensures ok || compaction ==> ended == []
    ensures !ok && !compaction ==>
              && |ended| < |hooks| && Staged(r, input, hooks[..|ended|]).Some?
              && Staged(r, input, hooks[..|ended| + 1]).None?
              && forall k :: 0 <= k < |ended| ==> ended[k] == |ended| - 1 - k
  {
    receipts, staged, ended, stop := r, input, [], None;
    var i := 0;
    while i < |hooks|
      invariant i <= |hooks|
      invariant Staged(r, input, hooks[..i]) == Some(staged)
      invariant match stop
                case None => NoStop(hooks, i)
                case Some(reason) => exists k: nat :: FirstStop(hooks, k, reason)
    {
      assert hooks[..i + 1][..i] == hooks[..i];
      var offered := Err(());
      if hooks[i].Stop? {
        if stop.None? {
          stop := Some(hooks[i].reason);
          assert FirstStop(hooks, i, hooks[i].reason);
        }
        offered := Ok((staged, false));
      } else if hooks[i].Offer? {
        offered := Deliver(r, staged, hooks[i].owner, hooks[i].key, hooks[i].body);
      }
      if offered.Err? {
        StagedFails(r, input, hooks, i + 1);
        if compaction {
          return r, input, false, [], None;
        }
        var started := i;
        while started > 0
          invariant 0 <= started <= i && |ended| == i - started
          invariant forall k :: 0 <= k < |ended| ==> ended[k] == i - 1 - k
        {
          started := started - 1;
          ended := ended + [started];
        }
        return r, staged, false, ended, None;
      }
      staged := offered.value.0;
      i := i + 1;
    }
    assert hooks[..|hooks|] == hooks;
    var changed;
    receipts, changed := Record(r, staged);
    return receipts, staged, true, [], stop;
  }

  /** None of the first `n` hooks asks to stop. */
  predicate NoStop(hooks: seq<Hook>, n: nat) {
    forall k :: 0 <= k < |hooks| && k < n ==> !hooks[k].Stop?
  }

  predicate FirstStop(hooks: seq<Hook>, k: nat, reason: string) {
    k < |hooks| && hooks[k] == Stop(reason) && NoStop(hooks, k)
  }

  lemma {:induction false} StagedFails(r: Receipts, input: seq<Item>, hooks: seq<Hook>, n: nat)
    requires n <= |hooks| && Staged(r, input, hooks[..n]).None?
    ensures Staged(r, input, hooks).None?
    decreases |hooks| - n
  {
    if n < |hooks| {
      assert hooks[..n + 1][..n] == hooks[..n];
      StagedFails(r, input, hooks, n + 1);
    } else {
      assert hooks[..n] == hooks;
    }
  }

  // ---------- runs ----------

  /** `entered` is history: every item ever accepted into the context. */
  datatype Ledger = Ledger(receipts: Receipts, context: seq<Item>, entered: seq<Item>)

  /**
   Append is a turn start, a staged batch or a tool step, saved or rolled back. Compact replaces
   the context and runs the session-start hooks; Start runs them on the context itself.
   */
  datatype Step =
    | Append(items: seq<Item>, saved: bool)
    | Compact(replacement: seq<Item>, hooks: seq<Hook>)
    | Start(hooks: seq<Hook>)

  /** Compaction only keeps guidance that is in the context. */
  ghost predicate Retained(context: seq<Item>, replacement: seq<Item>) {
    OnceEach(replacement) && forall id :: Has(replacement, id) ==> Has(context, id)
  }

  ghost function Next(l: Ledger, step: Step): Ledger {
    match step
    case Append(items, saved) =>
      var accepted, kept := Accepted(l.receipts, items), Kept(l.receipts, items);
      if saved then Ledger(accepted, l.context + kept, l.entered + kept)
      else l.(receipts := RolledBack(accepted, kept))
    case Compact(replacement, hooks) =>
      if Retained(l.context, replacement) then Hooked(l, replacement, hooks) else l
    case Start(hooks) => Hooked(l, l.context, hooks)
  }

  ghost function Hooked(l: Ledger, input: seq<Item>, hooks: seq<Hook>): Ledger {
    match Staged(l.receipts, input, hooks)
    case None => l
    case Some(staged) =>
      Ledger(Accepted(l.receipts, staged), staged, l.entered + Kept(l.receipts, staged))
  }

  ghost function Run(l: Ledger, steps: seq<Step>): Ledger
    decreases |steps|
  {
    if steps == [] then l else Next(Run(l, steps[..|steps| - 1]), steps[|steps| - 1])
  }

  ghost predicate Inv(l: Ledger) {
    && OnceEach(l.entered)
    && OnceEach(l.context)
    && (forall id :: Contains(l.receipts, id) <==> Has(l.entered, id))
    && (forall id :: Has(l.context, id) ==> Contains(l.receipts, id))
    && (forall owner :: owner in l.receipts ==> l.receipts[owner] != {})
  }

  lemma HasConcat(a: seq<Item>, b: seq<Item>, id: Identity)
    ensures Has(a + b, id) <==> Has(a, id) || Has(b, id)
  {
    if Has(a, id) {
      var i :| 0 <= i < |a| && a[i].receipt == Some(id);
      assert (a + b)[i].receipt == Some(id);
    }
    if Has(b, id) {
      var i :| 0 <= i < |b| && b[i].receipt == Some(id);
      assert (a + b)[|a| + i].receipt == Some(id);
    }
  }

  lemma OnceConcat(a: seq<Item>, b: seq<Item>)
    requires OnceEach(a) && OnceEach(b)
    requires forall id :: Has(a, id) ==> !Has(b, id)
    ensures OnceEach(a + b)
  {
    var c := a + b;
    forall i, j | 0 <= i < j < |c| && c[i].receipt.Some?
      ensures c[i].receipt != c[j].receipt
    {
      if i < |a| <= j && c[i].receipt == c[j].receipt {
        assert a[i].receipt == Some(c[i].receipt.value);
        assert b[j - |a|].receipt == Some(c[i].receipt.value);
        assert Has(a, c[i].receipt.value) && Has(b, c[i].receipt.value);
      }
    }
  }

  /** Accepting a batch into any receipts that match the history keeps the match. */
  lemma EnterKeeps(l: Ledger, items: seq<Item>)
    requires Inv(l)
    ensures var kept := Kept(l.receipts, items);
            var r := Accepted(l.receipts, items);
            && OnceEach(l.entered + kept)
            && (forall id :: Contains(r, id) <==> Has(l.entered + kept, id))
            && (forall owner :: owner in r ==> r[owner] != {})
            && (forall id :: Has(items, id) ==> Contains(r, id))
  {
    var kept, r := Kept(l.receipts, items), Accepted(l.receipts, items);
    KeptOnce(l.receipts, items);
    NoEmptyOwner(l.receipts, items);
    forall id
      ensures Has(kept, id) <==> Has(items, id) && !Contains(l.receipts, id)
      ensures Contains(r, id) <==> Contains(l.receipts, id) || Has(items, id)
      ensures Has(l.entered + kept, id) <==> Has(l.entered, id) || Has(kept, id)
    {
      KeptHas(l.receipts, items, id);
      AcceptedContains(l.receipts, items, id);
      HasConcat(l.entered, kept, id);
    }
    OnceConcat(l.entered, kept);
  }

  lemma {:induction false} StagedOnce(r: Receipts, input: seq<Item>, hooks: seq<Hook>)
    requires OnceEach(input)
    ensures Staged(r, input, hooks).Some? ==> OnceEach(Staged(r, input, hooks).value)
    decreases |hooks|
  {
    if hooks != [] {
      StagedOnce(r, input, hooks[..|hooks| - 1]);
    }
  }

  lemma HookedKeeps(l: Ledger, input: seq<Item>, hooks: seq<Hook>)
    requires Inv(l) && OnceEach(input)
    ensures Inv(Hooked(l, input, hooks))
  {
    StagedOnce(l.receipts, input, hooks);
    if Staged(l.receipts, input, hooks).Some? {
      EnterKeeps(l, Staged(l.receipts, input, hooks).value);
    }
  }

  lemma NextKeeps(l: Ledger, step: Step)
    requires Inv(l)
    ensures Inv(Next(l, step))
    ensures step.Append? && !step.saved ==> Next(l, step) == l
  {
    match step
    case Append(items, saved) =>
      EnterKeeps(l, items);
      NoEmptyOwner(l.receipts, items);
      RollbackIsExact(l.receipts, items);
      if saved {
        AppendContext(l, items);
      }
    case Compact(replacement, hooks) =>
      if Retained(l.context, replacement) { HookedKeeps(l, replacement, hooks); }
    case Start(hooks) => HookedKeeps(l, l.context, hooks);
  }

  lemma AppendContext(l: Ledger, items: seq<Item>)
    requires Inv(l)
    ensures var kept := Kept(l.receipts, items);
            && OnceEach(l.context + kept)
            && forall id :: Has(l.context + kept, id) ==> Contains(Accepted(l.receipts, items), id)
  {
    var kept := Kept(l.receipts, items);
    KeptOnce(l.receipts, items);
    forall id
      ensures Has(l.context, id) ==> !Has(kept, id)
      ensures Has(l.context + kept, id) ==> Contains(Accepted(l.receipts, items), id)
    {
      KeptHas(l.receipts, items, id);
      AcceptedContains(l.receipts, items, id);
      HasConcat(l.context, kept, id);
    }
    OnceConcat(l.context, kept);
  }

  /**
   Over any run of appends, failed appends, session starts and compactions, each identity enters
   the context at most once and the receipts hold exactly the identities that entered.
   */
  lemma {:induction false} OnceOnlyRuns(steps: seq<Step>)
    ensures Inv(Run(Ledger(map[], [], []), steps))
    decreases |steps|
  {
    if steps != [] {
      OnceOnlyRuns(steps[..|steps| - 1]);
      NextKeeps(Run(Ledger(map[], [], []), steps[..|steps| - 1]), steps[|steps| - 1]);
    }
  }

  // ---------- what enters the context ----------

  /** The identities of the items that have one, in order. */
  function Identities(items: seq<Item>): seq<Identity>
    decreases |items|
  {
    if items == [] then []
    else
      var last := items[|items| - 1];
      Identities(items[..|items| - 1]) + if last.receipt.Some? then [last.receipt.value] else []
  }

  ghost predicate Unrepeated(ids: seq<Identity>) {
    forall i, j :: 0 <= i < j < |ids| ==> ids[i] != ids[j]
  }

  ghost predicate NoneEmpty(r: Receipts) {
    forall owner :: owner in r ==> r[owner] != {}
  }

  /** The receipts gain exactly these identities, each new and each once. */
  ghost predicate Enters(r: Receipts, next: Receipts, ids: seq<Identity>) {
    && Unrepeated(ids)
    && (forall id :: id in ids ==> !Contains(r, id))
    && (forall id :: Contains(next, id) <==> Contains(r, id) || id in ids)
    && (NoneEmpty(r) ==> NoneEmpty(next))
  }

  /** The context is extended, and the receipts gain exactly the identities of the extension. */
  ghost predicate Grows(r: Receipts, context: seq<Item>, next: Receipts, after: seq<Item>) {
    context <= after && Enters(r, next, Identities(after[|context|..]))
  }

  /** The context holds each identity at most once, and only identities with a receipt. */
  ghost predicate Known(r: Receipts, context: seq<Item>) {
    && OnceEach(context)
    && (forall id :: Has(context, id) ==> Contains(r, id))
    && NoneEmpty(r)
  }

  /** Without rewrites the receipts are exactly the context's identities. */
  ghost predicate Tracks(r: Receipts, context: seq<Item>) {
    Known(r, context) && forall id :: Contains(r, id) ==> Has(context, id)
  }

  /** The history of every identity that ever entered. */
  ghost predicate Recorded(r: Receipts, entered: seq<Identity>) {
    Unrepeated(entered) && forall id :: Contains(r, id) <==> id in entered
  }

  lemma {:induction false} IdentitiesHold(items: seq<Item>)
    ensures forall id :: id in Identities(items) <==> Has(items, id)
    ensures Unrepeated(Identities(items)) <==> OnceEach(items)
    decreases |items|
  {
    if items != [] {
      var front, last := items[..|items| - 1], items[|items| - 1];
      IdentitiesHold(front);
      assert items == front + [last];
      forall id ensures Has(items, id) <==> Has(front, id) || last.receipt == Some(id) {
        HasConcat(front, [last], id);
        HasLast(last, id);
      }
      OnceLast(front, last);
      UnrepeatedLast(Identities(front), last);
    }
  }

  lemma HasLast(last: Item, id: Identity)
    ensures Has([last], id) <==> last.receipt == Some(id)
  {
    assert [last][0] == last;
  }

  lemma OnceLast(front: seq<Item>, last: Item)
    ensures OnceEach(front + [last])
            <==> OnceEach(front) && (last.receipt.Some? ==> !Has(front, last.receipt.value))
  {
    var items := front + [last];
    if OnceEach(items) {
      forall i, j | 0 <= i < j < |front| && front[i].receipt.Some?
        ensures front[i].receipt != front[j].receipt
      {
        assert items[i].receipt != items[j].receipt;
      }
      forall i | 0 <= i < |front| && last.receipt.Some? ensures front[i].receipt != last.receipt {
        assert items[i] == front[i] && items[|front|] == last;
      }
    }
  }

  lemma UnrepeatedLast(ids: seq<Identity>, last: Item)
    ensures Unrepeated(ids + if last.receipt.Some? then [last.receipt.value] else [])
            <==> Unrepeated(ids) && (last.receipt.Some? ==> last.receipt.value !in ids)
  {
    if last.receipt.Some? {
      var more := ids + [last.receipt.value];
      if Unrepeated(more) {
        forall i, j | 0 <= i < j < |ids| ensures ids[i] != ids[j] {
          assert more[i] != more[j];
        }
        forall i | 0 <= i < |ids| ensures ids[i] != last.receipt.value {
          assert more[i] != more[|ids|];
        }
      }
    } else {
      assert ids + [] == ids;
    }
  }

  lemma {:induction false} IdentitiesConcat(a: seq<Item>, b: seq<Item>)
    ensures Identities(a + b) == Identities(a) + Identities(b)
    decreases |b|
  {
    if b == [] {
      assert a + b == a;
    } else {
      var c, front, last := a + b, b[..|b| - 1], b[|b| - 1];
      IdentitiesConcat(a, front);
      assert c[..|c| - 1] == a + front && c[|c| - 1] == last;
    }
  }

  lemma EntersTwice(r: Receipts, next: Receipts, after: Receipts, ids: seq<Identity>,
                    more: seq<Identity>)
    requires Enters(r, next, ids) && Enters(next, after, more)
    ensures Enters(r, after, ids + more)
  {
    hide Contains;
    var all := ids + more;
    forall i, j | 0 <= i < j < |all| ensures all[i] != all[j] {
      if i < |ids| <= j {
        assert Contains(next, ids[i]) && !Contains(next, more[j - |ids|]);
      }
    }
  }

  lemma EntersNothing(r: Receipts)
    ensures Enters(r, r, [])
  {
  }

  /** What enters is appended to the history. */
  lemma EntersRecords(r: Receipts, next: Receipts, ids: seq<Identity>, entered: seq<Identity>)
    requires Enters(r, next, ids) && Recorded(r, entered)
    ensures Recorded(next, entered + ids)
  {
    hide Contains;
    var all := entered + ids;
    forall i, j | 0 <= i < j < |all| ensures all[i] != all[j] {
      if i < |entered| <= j {
        assert entered[i] in entered && ids[j - |entered|] in ids;
      }
    }
  }

  lemma GrowsTwice(r: Receipts, context: seq<Item>, next: Receipts, after: seq<Item>,
                   last: Receipts, end: seq<Item>)
    requires Grows(r, context, next, after) && Grows(next, after, last, end)
    ensures Grows(r, context, last, end)
  {
    hide Enters;
    var x, y := after[|context|..], end[|after|..];
    assert end[|context|..] == x + y;
    IdentitiesConcat(x, y);
    EntersTwice(r, next, last, Identities(x), Identities(y));
  }

  lemma GrowsNothing(r: Receipts, context: seq<Item>)
    ensures Grows(r, context, r, context)
  {
    assert context[|context|..] == [];
    EntersNothing(r);
  }

  /** Growing keeps what is known, and keeps receipts exact that were. */
  lemma GrowsKeeps(r: Receipts, context: seq<Item>, next: Receipts, after: seq<Item>)
    requires Grows(r, context, next, after)
    ensures Known(r, context) ==> Known(next, after)
    ensures Tracks(r, context) ==> Tracks(next, after)
  {
    hide Contains, Has, OnceEach, Unrepeated;
    var more := after[|context|..];
    assert after == context + more;
    IdentitiesHold(more);
    forall id ensures Has(after, id) <==> Has(context, id) || Has(more, id) {
      HasConcat(context, more, id);
    }
    if Known(r, context) {
      OnceConcat(context, more);
    }
  }

  /** Acceptance enters the identities of exactly the items it keeps. */
  lemma AcceptEnters(r: Receipts, items: seq<Item>)
    ensures Enters(r, Accepted(r, items), Identities(Kept(r, items)))
  {
    hide Contains, Has, OnceEach, Unrepeated, Accepted, Kept;
    var kept := Kept(r, items);
    KeptOnce(r, items);
    IdentitiesHold(kept);
    if NoneEmpty(r) {
      NoEmptyOwner(r, items);
    }
    forall id
      ensures id in Identities(kept) <==> Has(items, id) && !Contains(r, id)
      ensures Contains(Accepted(r, items), id) <==> Contains(r, id) || Has(items, id)
    {
      KeptHas(r, items, id);
      AcceptedContains(r, items, id);
    }
  }

  lemma AcceptGrows(r: Receipts, context: seq<Item>, items: seq<Item>)
    ensures Grows(r, context, Accepted(r, items), context + Kept(r, items))
  {
    hide Enters, Accepted, Kept;
    AcceptEnters(r, items);
    assert (context + Kept(r, items))[|context|..] == Kept(r, items);
  }

  /** Items without a receipt enter nothing. */
  lemma PlainGrows(r: Receipts, context: seq<Item>, more: seq<Item>)
    requires forall i :: 0 <= i < |more| ==> more[i].receipt.None?
    ensures Grows(r, context, r, context + more)
  {
    assert (context + more)[|context|..] == more;
    PlainHasNone(more);
    EntersNothing(r);
  }

  lemma {:induction false} PlainHasNone(more: seq<Item>)
    requires forall i :: 0 <= i < |more| ==> more[i].receipt.None?
    ensures Identities(more) == []
    decreases |more|
  {
    if more != [] {
      PlainHasNone(more[..|more| - 1]);
    }
  }

  /** Hooks only append. */
  lemma {:induction false} StagedExtends(r: Receipts, input: seq<Item>, hooks: seq<Hook>)
    requires Staged(r, input, hooks).Some?
    ensures input <= Staged(r, input, hooks).value
    decreases |hooks|
  {
    if hooks != [] {
      StagedExtends(r, input, hooks[..|hooks| - 1]);
    }
  }

  /** What hooks append has no receipt yet. */
  lemma {:induction false} StagedIsNew(r: Receipts, input: seq<Item>, hooks: seq<Hook>)
    requires Staged(r, input, hooks).Some?
    ensures input <= Staged(r, input, hooks).value
    ensures var more := Staged(r, input, hooks).value[|input|..];
            OnceEach(more) && forall id :: Has(more, id) ==> !Contains(r, id)
    decreases |hooks|
  {
    hide Contains;
    if hooks != [] {
      var front := hooks[..|hooks| - 1];
      StagedIsNew(r, input, front);
      var before, after := Staged(r, input, front).value, Staged(r, input, hooks).value;
      var more := before[|input|..];
      if after != before {
        var last := after[|before|];
        assert after[|input|..] == more + [last];
        forall id | Has(more, id) ensures Has(before, id) {
          assert before == before[..|input|] + more;
          HasConcat(before[..|input|], more, id);
        }
        OnceLast(more, last);
        forall id | Has(more + [last], id) ensures !Contains(r, id) {
          HasConcat(more, [last], id);
          HasLast(last, id);
        }
      }
    } else {
      assert input[|input|..] == [];
    }
  }

  /** Session-start hooks on a known context grow it. */
  lemma StagedGrows(r: Receipts, context: seq<Item>, hooks: seq<Hook>)
    requires Known(r, context) && Staged(r, context, hooks).Some?
    ensures var staged := Staged(r, context, hooks).value;
            Grows(r, context, Accepted(r, staged), staged)
  {
    hide OnceEach, Contains, Accepted, Staged, Has, Unrepeated;
    var staged := Staged(r, context, hooks).value;
    StagedIsNew(r, context, hooks);
    var more := staged[|context|..];
    IdentitiesHold(more);
    NoEmptyOwner(r, staged);
    forall id
      ensures Contains(Accepted(r, staged), id) <==> Contains(r, id) || Has(staged, id)
      ensures Has(staged, id) <==> Has(context, id) || Has(more, id)
    {
      AcceptedContains(r, staged, id);
      assert staged == context + more;
      HasConcat(context, more, id);
    }
  }

  /** They keep any context known, and enter exactly its new identities. */
  lemma StagedKnown(r: Receipts, context: seq<Item>, hooks: seq<Hook>)
    requires OnceEach(context) && NoneEmpty(r) && Staged(r, context, hooks).Some?
    ensures var staged := Staged(r, context, hooks).value;
            && Known(Accepted(r, staged), staged)
            && Enters(r, Accepted(r, staged), Identities(Kept(r, staged)))
  {
    hide OnceEach, Contains, Accepted, Staged, Enters, Has;
    var staged := Staged(r, context, hooks).value;
    StagedOnce(r, context, hooks);
    NoEmptyOwner(r, staged);
    AcceptEnters(r, staged);
    forall id | Has(staged, id) ensures Contains(Accepted(r, staged), id) {
      AcceptedContains(r, staged, id);
    }
  }
}
