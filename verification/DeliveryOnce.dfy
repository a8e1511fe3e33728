/** Context items and transactional once-only delivery of middleware guidance. */
module DeliveryOnce {
  import opened Wrappers

  datatype Identity = Identity(owner: string, key: string)

  datatype Body =
    | UserText(text: string)
    | AssistantText(text: string)
    | Guidance(text: string)
    | FunctionCall(callId: string, name: string, arguments: string)
    | FunctionOutput(callId: string, output: string, isError: bool)

  /** A durable context item, with the delivery receipt its guidance carries, if any. */
  datatype Item = Item(body: Body, receipt: Option<Identity>)

  /** The keys already delivered, by owner. */
  type Receipts = map<string, set<string>>

  predicate Contains(r: Receipts, id: Identity) {
    id.owner in r && id.key in r[id.owner]
  }

  ghost predicate Touches(items: seq<Item>, owner: string) {
    exists i :: 0 <= i < |items| && items[i].receipt.Some? && items[i].receipt.value.owner == owner
  }

  ghost function KeysFor(items: seq<Item>, owner: string): set<string> {
    set i | 0 <= i < |items| && items[i].receipt.Some? && items[i].receipt.value.owner == owner
      :: items[i].receipt.value.key
  }

  // ---------- specification ----------

  function Admitted(r: Receipts, item: Item): bool {
    item.receipt.None? || !Contains(r, item.receipt.value)
  }

  function Insert(r: Receipts, id: Identity): Receipts {
    r[id.owner := (if id.owner in r then r[id.owner] else {}) + {id.key}]
  }

  function Remove(r: Receipts, id: Identity): Receipts {
    if id.owner !in r then r
    else if r[id.owner] - {id.key} == {} then r - {id.owner}
    else r[id.owner := r[id.owner] - {id.key}]
  }

  function AcceptOne(r: Receipts, item: Item): Receipts {
    if Admitted(r, item) && item.receipt.Some? then Insert(r, item.receipt.value) else r
  }

  /** The receipts after accepting `items` in order. */
  function Accepted(r: Receipts, items: seq<Item>): Receipts
    decreases |items|
  {
    if items == [] then r
    else AcceptOne(Accepted(r, items[..|items| - 1]), items[|items| - 1])
  }

  /** The items that enter the context: only the first occurrence of each identity. */
  function Kept(r: Receipts, items: seq<Item>): seq<Item>
    decreases |items|
  {
    if items == [] then []
    else
      var front, last := items[..|items| - 1], items[|items| - 1];
      Kept(r, front) + if Admitted(Accepted(r, front), last) then [last] else []
  }

  function RolledBack(r: Receipts, items: seq<Item>): Receipts
    decreases |items|
  {
    if items == [] then r
    else
      var front, last := items[..|items| - 1], items[|items| - 1];
      var before := RolledBack(r, front);
      if last.receipt.None? then before else Remove(before, last.receipt.value)
  }

  // ---------- the operations ----------

  method Accept(r: Receipts, item: Item) returns (receipts: Receipts, accepted: bool)
    ensures receipts == AcceptOne(r, item) && accepted == Admitted(r, item)
  {
    if item.receipt.None? {
      return r, true;
    }
    if Contains(r, item.receipt.value) {
      return r, false;
    }
    return Insert(r, item.receipt.value), true;
  }

  /** Extends a context with the items that are accepted. */
  method Extend(r: Receipts, context: seq<Item>, items: seq<Item>)
    returns (receipts: Receipts, extended: seq<Item>)
    ensures receipts == Accepted(r, items)
    ensures extended == context + Kept(r, items)
  {
    receipts, extended := r, context;
    var i := 0;
    while i < |items|
      invariant i <= |items|
      invariant receipts == Accepted(r, items[..i])
      invariant extended == context + Kept(r, items[..i])
    {
      assert items[..i + 1][..i] == items[..i];
      var ok;
      receipts, ok := Accept(receipts, items[i]);
      if ok {
        extended := extended + [items[i]];
      }
      i := i + 1;
    }
    assert items[..|items|] == items;
  }

  /** Keeps inherited receipts and records newly appended session-start guidance. */
  method Record(r: Receipts, input: seq<Item>) returns (receipts: Receipts, changed: bool)
    ensures receipts == Accepted(r, input)
    ensures changed <==> exists i :: 0 <= i < |input| && input[i].receipt.Some?
                                     && !Contains(r, input[i].receipt.value)
  {
    receipts, changed := r, false;
    var i := 0;
    while i < |input|
      invariant i <= |input|
      invariant receipts == Accepted(r, input[..i])
      invariant changed <==> exists k :: 0 <= k < i && input[k].receipt.Some?
                                         && !Contains(r, input[k].receipt.value)
    {
      assert input[..i + 1][..i] == input[..i];
      if input[i].receipt.Some? {
        AcceptedContains(r, input[..i], input[i].receipt.value);
        var added;
        receipts, added := Accept(receipts, input[i]);
        changed := changed || added;
      }
      i := i + 1;
    }
    assert input[..|input|] == input;
  }

  method Rollback(r: Receipts, items: seq<Item>) returns (receipts: Receipts)
    ensures receipts == RolledBack(r, items)
  {
    receipts := r;
    var i := 0;
    while i < |items|
      invariant i <= |items|
      invariant receipts == RolledBack(r, items[..i])
    {
      assert items[..i + 1][..i] == items[..i];
      if items[i].receipt.Some? {
        var id := items[i].receipt.value;
        if id.owner in receipts {
          var keys := receipts[id.owner] - {id.key};
          receipts := if keys == {} then receipts - {id.owner} else receipts[id.owner := keys];
        }
      }
      i := i + 1;
    }
    assert items[..|items|] == items;
  }

  const MAX_KEY_BYTES: nat := 384

  predicate IsKeyChar(c: char) {
    'a' <= c <= 'z' || 'A' <= c <= 'Z' || '0' <= c <= '9' || c in {'_', '-', '.', ':', '/'}
  }

  predicate ValidKey(key: string) {
    0 < |key| <= MAX_KEY_BYTES && forall i :: 0 <= i < |key| ==> IsKeyChar(key[i])
  }

  /** The characters of a key by their code: dash to colon, both cases of letters, and underscore. */
  lemma KeyCharsAre(c: char)
    ensures IsKeyChar(c) <==>
            var n := c as int; 45 <= n <= 58 || 65 <= n <= 90 || n == 95 || 97 <= n <= 122
  {
  }

  /**
   The input after an offer: an ordinary push without a key, guidance at most once with one, and
   None when the key, its owner or the item is not fit for once-only delivery.
   */
  function Delivered(r: Receipts, input: seq<Item>, owner: string, key: Option<string>, body: Body)
    : Option<seq<Item>>
  {
    if key.None? then Some(input + [Item(body, None)])
    else if owner == "" || !ValidKey(key.value) then None
    else
      var id := Identity(owner, key.value);
      if Contains(r, id) || exists i :: 0 <= i < |input| && input[i].receipt == Some(id) then Some(input)
      else if !body.Guidance? then None
      else Some(input + [Item(body, Some(id))])
  }

  /** Stages guidance unless it was delivered before or is already staged. */
  method Deliver(r: Receipts, input: seq<Item>, owner: string, key: Option<string>, body: Body)
    returns (staged: Result<(seq<Item>, bool), ()>)
    ensures match Delivered(r, input, owner, key, body)
            case None => staged.Err?
            case Some(after) => staged == Ok((after, after != input))
    ensures key.None? ==> staged == Ok((input + [Item(body, None)], true))
    ensures key.Some? ==>
              var seen := (owner in r && key.value in r[owner])
                          || exists i :: 0 <= i < |input| && input[i].receipt == Some(Identity(owner, key.value));
              && (staged.Ok? <==> owner != "" && 1 <= |key.value| <= 384
                                  && (forall i :: 0 <= i < |key.value| ==> IsKeyChar(key.value[i]))
                                  && (seen || body.Guidance?))
              && (staged.Ok? ==>
                    staged.value == if seen then (input, false)
                                    else (input + [Item(body, Some(Identity(owner, key.value)))], true))
  {
    if key.None? {
      return Ok((input + [Item(body, None)], true));
    }
    if owner == "" || !ValidKey(key.value) {
      return Err(());
    }
    var id := Identity(owner, key.value);
    if Contains(r, id) {
      return Ok((input, false));
    }
    var i := 0;
    while i < |input|
      invariant i <= |input|
      invariant forall k :: 0 <= k < i ==> input[k].receipt != Some(id)
    {
      if input[i].receipt == Some(id) {
        return Ok((input, false));
      }
      i := i + 1;
    }
    if !body.Guidance? {
      return Err(());
    }
    return Ok((input + [Item(body, Some(id))], true));
  }

  // ---------- what acceptance and rollback mean ----------

  ghost predicate Has(items: seq<Item>, id: Identity) {
    exists i :: 0 <= i < |items| && items[i].receipt == Some(id)
  }

  ghost predicate OnceEach(items: seq<Item>) {
    forall i, j :: 0 <= i < j < |items| && items[i].receipt.Some? ==>
                     items[i].receipt != items[j].receipt
  }

  /** The items without a receipt, in order. */
  function Plain(items: seq<Item>): seq<Item>
    decreases |items|
  {
    if items == [] then []
    else
      Plain(items[..|items| - 1])
      + if items[|items| - 1].receipt.None? then [items[|items| - 1]] else []
  }

  lemma HasFront(items: seq<Item>, id: Identity)
    requires items != []
    ensures Has(items, id)
            <==> Has(items[..|items| - 1], id) || items[|items| - 1].receipt == Some(id)
  {
    assert forall i :: 0 <= i < |items| - 1 ==> items[..|items| - 1][i] == items[i];
  }

  /** Receipts hold exactly what they held before plus the identities of the items. */
  lemma {:induction false} AcceptedContains(r: Receipts, items: seq<Item>, id: Identity)
    ensures Contains(Accepted(r, items), id) <==> Contains(r, id) || Has(items, id)
    decreases |items|
  {
    if items != [] {
      AcceptedContains(r, items[..|items| - 1], id);
      HasFront(items, id);
    }
  }

  /** An identity enters if and only if it is offered and was never delivered before. */
  lemma {:induction false} KeptHas(r: Receipts, items: seq<Item>, id: Identity)
    ensures Has(Kept(r, items), id) <==> Has(items, id) && !Contains(r, id)
    decreases |items|
  {
    if items != [] {
      var front, last, kept := items[..|items| - 1], items[|items| - 1], Kept(r, items);
      KeptHas(r, front, id);
      AcceptedContains(r, front, id);
      HasFront(items, id);
      if Admitted(Accepted(r, front), last) {
        assert kept[..|kept| - 1] == Kept(r, front);
        HasFront(kept, id);
      } else {
        assert kept == Kept(r, front);
      }
    }
  }

  /** No identity enters twice, and items without a receipt all enter, in order. */
  lemma {:induction false} KeptOnce(r: Receipts, items: seq<Item>)
    ensures OnceEach(Kept(r, items))
    ensures Plain(Kept(r, items)) == Plain(items)
    ensures Accepted(r, Kept(r, items)) == Accepted(r, items)
    decreases |items|
  {
    if items != [] {
      hide Contains, Insert;
      var front, last, kept := items[..|items| - 1], items[|items| - 1], Kept(r, items);
      KeptOnce(r, front);
      if Admitted(Accepted(r, front), last) {
        assert kept[..|kept| - 1] == Kept(r, front);
        if last.receipt.Some? {
          AcceptedContains(r, front, last.receipt.value);
          KeptHas(r, front, last.receipt.value);
        }
      } else {
        assert kept == Kept(r, front);
      }
    }
  }

  // ---------- exactness of the rollback ----------

  /** Whether a rolled-back owner goes away: it was touched and none of its keys is left. */
  ghost predicate Survives(r: Receipts, items: seq<Item>, owner: string) {
    owner in r && (Touches(items, owner) ==> r[owner] - KeysFor(items, owner) != {})
  }

  lemma KeysFront(items: seq<Item>, owner: string)
    requires items != []
    ensures var front, last := items[..|items| - 1], items[|items| - 1];
            var own := last.receipt.Some? && last.receipt.value.owner == owner;
            && (Touches(items, owner) <==> Touches(front, owner) || own)
            && KeysFor(items, owner)
               == KeysFor(front, owner) + (if own then {last.receipt.value.key} else {})
  {
    var front, last := items[..|items| - 1], items[|items| - 1];
    assert forall i :: 0 <= i < |front| ==> front[i] == items[i];
    if Touches(front, owner) {
      var i :| 0 <= i < |front| && front[i].receipt.Some? && front[i].receipt.value.owner == owner;
      assert items[i].receipt.value.owner == owner;
    }
    var own := last.receipt.Some? && last.receipt.value.owner == owner;
    var all := KeysFor(front, owner) + (if own then {last.receipt.value.key} else {});
    forall key ensures key in KeysFor(items, owner) <==> key in all {
      if key in KeysFor(front, owner) {
        var i :| 0 <= i < |front| && front[i].receipt == Some(Identity(owner, key));
        assert items[i].receipt.value.key == key;
      }
      if own && key == last.receipt.value.key {
        assert items[|items| - 1].receipt.value.key == key;
      }
    }
  }

  lemma {:induction false} RolledBackAt(r: Receipts, items: seq<Item>, owner: string)
    ensures var after := RolledBack(r, items);
            && (owner in after <==> Survives(r, items, owner))
            && (owner in after ==> after[owner] == r[owner] - KeysFor(items, owner))
    decreases |items|
  {
    if items != [] {
      RolledBackAt(r, items[..|items| - 1], owner);
      KeysFront(items, owner);
    }
  }

  lemma {:induction false} AcceptedAt(r: Receipts, items: seq<Item>, owner: string)
    requires forall i :: 0 <= i < |items| && items[i].receipt.Some? ==>
                           !Contains(r, items[i].receipt.value)
    requires OnceEach(items)
    ensures var after := Accepted(r, items);
            && (owner in after <==> owner in r || Touches(items, owner))
            && (owner in after ==>
                  after[owner] == (if owner in r then r[owner] else {}) + KeysFor(items, owner))
            && (owner in r ==> r[owner] !! KeysFor(items, owner))
    decreases |items|
  {
    if items != [] {
      var front, last := items[..|items| - 1], items[|items| - 1];
      AcceptedAt(r, front, owner);
      KeysFront(items, owner);
      if last.receipt.Some? {
        AcceptedContains(r, front, last.receipt.value);
      }
    }
  }

  /** No accepted owner was recorded with an empty key set. */
  ghost predicate Restorable(r: Receipts, kept: seq<Item>) {
    forall i :: 0 <= i < |kept| && kept[i].receipt.Some? ==>
                  kept[i].receipt.value.owner in r ==> r[kept[i].receipt.value.owner] != {}
  }

  /** Accepting two batches one after the other is accepting them as one. */
  lemma {:induction false} AcceptedConcat(r: Receipts, a: seq<Item>, b: seq<Item>)
    ensures Accepted(r, a + b) == Accepted(Accepted(r, a), b)
    ensures Kept(r, a + b) == Kept(r, a) + Kept(Accepted(r, a), b)
    decreases |b|
  {
    if b == [] {
      assert a + b == a;
    } else {
      var front, last, all := b[..|b| - 1], b[|b| - 1], a + b;
      AcceptedConcat(r, a, front);
      assert all[..|all| - 1] == a + front && all[|all| - 1] == last;
      assert Kept(r, all) == Kept(r, a) + Kept(Accepted(r, a), b);
    }
  }

  /**
   Rolling back an accepted suffix restores the receipts exactly, unless one of its owners was
   recorded with an empty key set, which the rollback then drops.
   */
  lemma RollbackIsExact(r: Receipts, items: seq<Item>)
    ensures RolledBack(Accepted(r, items), Kept(r, items)) == r <==> Restorable(r, Kept(r, items))
  {
    var kept, after := Kept(r, items), Accepted(r, items);
    var back := RolledBack(after, kept);
    KeptOnce(r, items);
    forall i | 0 <= i < |kept| && kept[i].receipt.Some?
      ensures !Contains(r, kept[i].receipt.value)
    {
      KeptHas(r, items, kept[i].receipt.value);
    }
    forall owner: string
      ensures owner in back <==> owner in r && (Touches(kept, owner) ==> r[owner] != {})
      ensures owner in back ==> back[owner] == r[owner]
    {
      AcceptedAt(r, kept, owner);
      RolledBackAt(after, kept, owner);
    }
    if Restorable(r, kept) {
      assert back == r;
    } else {
      var i :| 0 <= i < |kept| && kept[i].receipt.Some? && kept[i].receipt.value.owner in r
               && r[kept[i].receipt.value.owner] == {};
      assert Touches(kept, kept[i].receipt.value.owner);
    }
  }

  /** The exception is real. */
  lemma EmptyOwnerIsDropped()
    ensures var r: Receipts := map["owner" := {}];
            var items := [Item(Guidance("notice"), Some(Identity("owner", "key")))];
            RolledBack(Accepted(r, items), Kept(r, items)) != r
  {
    var r: Receipts := map["owner" := {}];
    var items := [Item(Guidance("notice"), Some(Identity("owner", "key")))];
    assert items[..0] == [] && Kept(r, items) == items;
    RollbackIsExact(r, items);
    assert items[0].receipt.value.owner in r;
  }

  /** Accepting and rolling back never record an owner without keys. */
  lemma {:induction false} NoEmptyOwner(r: Receipts, items: seq<Item>)
    requires forall owner :: owner in r ==> r[owner] != {}
    ensures forall owner :: owner in Accepted(r, items) ==> Accepted(r, items)[owner] != {}
    ensures forall owner :: owner in RolledBack(r, items) ==> RolledBack(r, items)[owner] != {}
    ensures Restorable(r, Kept(r, items))
    decreases |items|
  {
    if items != [] {
      NoEmptyOwner(r, items[..|items| - 1]);
    }
  }
}
