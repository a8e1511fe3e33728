/** Messages retained until their delivery boundary. */
module MessageQueue {
  import opened Sequences
  import opened Wrappers

  const MAX_QUEUED_MESSAGES: nat := 1024

  datatype Boundary = Turn | Steer(turn: string) | Queue

  datatype Author = User | Source(handle: string)

  /**
   `ticket` is history: the admission that created the message. A replacement keeps it, because
   it is still the same place in the conversation.
   */
  datatype QueuedMessage = QueuedMessage(
    owner: string, id: string, boundary: Boundary, author: Author, text: string, ticket: nat)

  predicate Owns(owner: string, id: string, m: QueuedMessage) {
    m.owner == owner && m.id == id
  }

  predicate Steers(owner: string, turn: string, m: QueuedMessage) {
    m.owner == owner && m.boundary == Steer(turn)
  }

  predicate StartsTurn(m: QueuedMessage) {
    m.boundary.Turn? || m.boundary.Queue?
  }

  predicate Starts(owner: string, id: string, m: QueuedMessage) {
    Owns(owner, id, m) && StartsTurn(m)
  }

  // ---------- specification ----------

  predicate HasId(items: seq<QueuedMessage>, owner: string, id: string) {
    exists i :: 0 <= i < |items| && Owns(owner, id, items[i])
  }

  /** The queue after a push; unchanged when it is full or the identity is taken. */
  function Pushed(items: seq<QueuedMessage>, m: QueuedMessage): seq<QueuedMessage> {
    if |items| >= MAX_QUEUED_MESSAGES || HasId(items, m.owner, m.id) then items else items + [m]
  }

  /** Replacement is refused when the new identity belongs to another item. */
  predicate Replaceable(items: seq<QueuedMessage>, i: nat, id: string) {
    i < |items|
    && forall k :: 0 <= k < |items| && k != i ==> !Owns(items[i].owner, id, items[k])
  }

  /** The queue after a replacement, or None when there is nothing to replace it with. */
  function Replaced(items: seq<QueuedMessage>, owner: string, id: string, replacement: string,
                    text: string): Option<seq<QueuedMessage>>
  {
    match IndexWhere(Owned(owner, id), items)
    case None => None
    case Some(i) =>
      if Replaceable(items, i, replacement)
      then Some(items[i := items[i].(id := replacement, text := text, author := User)])
      else None
  }

  function Promoted(owner: string, turn: string, m: QueuedMessage): QueuedMessage {
    if Steers(owner, turn, m) then m.(boundary := Queue) else m
  }

  function PromotedAll(items: seq<QueuedMessage>, owner: string, turn: string): (r: seq<QueuedMessage>)
    ensures |r| == |items|
    ensures forall i :: 0 <= i < |items| ==> r[i] == Promoted(owner, turn, items[i])
  {
    seq(|items|, i requires 0 <= i < |items| => Promoted(owner, turn, items[i]))
  }

  function Owned(owner: string, id: string): QueuedMessage -> bool {
    m => Owns(owner, id, m)
  }

  function OwnedBy(owner: string): QueuedMessage -> bool {
    (m: QueuedMessage) => m.owner == owner
  }

  function Startable(owner: string, id: string): QueuedMessage -> bool {
    m => Starts(owner, id, m)
  }

  function ReadyFor(owner: string): QueuedMessage -> bool {
    (m: QueuedMessage) => m.owner == owner && StartsTurn(m)
  }

  function Staying(owner: string, turn: string): QueuedMessage -> bool {
    m => !Steers(owner, turn, m)
  }

  function Leaving(owner: string, turn: string): QueuedMessage -> bool {
    m => Steers(owner, turn, m)
  }

  /** The positions of an owner's messages. */
  ghost function Places(items: seq<QueuedMessage>, owner: Option<string>): set<int> {
    set i | 0 <= i < |items| && owner == Some(items[i].owner)
  }

  lemma PlacesPush(items: seq<QueuedMessage>, owner: Option<string>)
    requires items != []
    ensures var n := |items| - 1;
            Places(items, owner)
            == Places(items[..n], owner) + if owner == Some(items[n].owner) then {n} else {}
  {
  }

  /** The owner's messages, counted position by position. */
  lemma {:induction false} OwnedAre(items: seq<QueuedMessage>, owner: Option<string>)
    ensures |Places(items, owner)| == if owner.None? then 0 else |Filter(OwnedBy(owner.value), items)|
    decreases |items|
  {
    if items != [] {
      var n := |items| - 1;
      OwnedAre(items[..n], owner);
      PlacesPush(items, owner);
      hide Places;
      PlacesBound(items[..n], owner);
    }
  }

  lemma PlacesBound(items: seq<QueuedMessage>, owner: Option<string>)
    ensures |items| !in Places(items, owner)
  {
  }

  // ---------- the operations ----------

  class MessageQueue {
    var items: seq<QueuedMessage>
    var owner: Option<string>

    constructor (items: seq<QueuedMessage>, owner: Option<string>)
      ensures this.items == items && this.owner == owner
    {
      this.items, this.owner := items, owner;
    }

    /** The first position that satisfies `p`. */
    method Position(p: QueuedMessage -> bool) returns (index: Option<nat>)
      ensures index == IndexWhere(p, items)
    {
      var i := 0;
      while i < |items|
        invariant i <= |items|
        invariant forall k :: 0 <= k < i ==> !p(items[k])
      {
        if p(items[i]) {
          return Some(i);
        }
        i := i + 1;
      }
      return None;
    }

    /** How many messages this owner has queued. */
    method Count() returns (count: nat)
      ensures count == if owner.None? then 0 else |Filter(OwnedBy(owner.value), items)|
      ensures count == |Places(items, owner)|
    {
      OwnedAre(items, owner);
      count := 0;
      if owner.None? {
        return;
      }
      var name, i := owner.value, 0;
      while i < |items|
        invariant i <= |items|
        invariant count == |Filter(OwnedBy(name), items[..i])|
      {
        assert items[..i + 1][..i] == items[..i];
        if items[i].owner == name {
          count := count + 1;
        }
        i := i + 1;
      }
      assert items[..|items|] == items;
    }

    /** The newest message of this owner. */
    method Latest() returns (latest: Option<QueuedMessage>)
      ensures match latest
              case Some(m) =>
                exists i :: 0 <= i < |items| && items[i] == m && owner == Some(m.owner)
                            && forall k :: i < k < |items| ==> owner != Some(items[k].owner)
              case None => forall k :: 0 <= k < |items| ==> owner != Some(items[k].owner)
    {
      var i := |items|;
      while i > 0
        invariant 0 <= i <= |items|
        invariant forall k :: i <= k < |items| ==> owner != Some(items[k].owner)
      {
        i := i - 1;
        if owner == Some(items[i].owner) {
          return Some(items[i]);
        }
      }
      return None;
    }

    method Push(m: QueuedMessage) returns (pushed: bool)
      modifies this`items
      ensures items == Pushed(old(items), m)
      ensures pushed <==> |old(items)| < 1024
                          && forall i :: 0 <= i < |old(items)| ==>
                                           !(old(items)[i].owner == m.owner && old(items)[i].id == m.id)
      ensures items == if pushed then old(items) + [m] else old(items)
    {
      if |items| >= MAX_QUEUED_MESSAGES {
        return false;
      }
      var taken := Position(Owned(m.owner, m.id));
      if taken.Some? {
        return false;
      }
      items := items + [m];
      return true;
    }

    /**
     Replaces one owned item in place. `valid` is the outcome of validating the replacement's
     content; an invalid one is an error and leaves the item as it was.
     */
    method Replace(id: string, replacement: string, text: string, valid: bool)
      returns (r: Result<bool, ()>)
      modifies this`items
      ensures owner.None? ==> r.Err?
      ensures r.Err? ==> items == old(items)
      ensures owner.Some? ==>
                match Replaced(old(items), owner.value, id, replacement, text)
                case None => r == Ok(false) && items == old(items)
                case Some(after) => if valid then r == Ok(true) && items == after else r.Err?
      ensures r == Ok(true) ==>
                exists i :: 0 <= i < |old(items)| && old(items)[i].owner == owner.value && old(items)[i].id == id
                            && items == old(items)[i := QueuedMessage(
                                                     owner.value, replacement, old(items)[i].boundary,
                                                     User, text, old(items)[i].ticket)]
      ensures r == Ok(false) && (forall i :: 0 <= i < |old(items)| ==>
                                               old(items)[i].owner == owner.value ==> old(items)[i].id != replacement)
              ==> forall i :: 0 <= i < |old(items)| ==>
                                !(old(items)[i].owner == owner.value && old(items)[i].id == id)
    {
      if owner.None? {
        return Err(());
      }
      var name := owner.value;
      var found := Position(Owned(name, id));
      if found.None? {
        return Ok(false);
      }
      var i, k := found.value, 0;
      while k < |items|
        invariant k <= |items|
        invariant forall j :: 0 <= j < k && j != i ==> !Owns(name, replacement, items[j])
      {
        if k != i && Owns(name, replacement, items[k]) {
          return Ok(false);
        }
        k := k + 1;
      }
      if !valid {
        return Err(());
      }
      items := items[i := items[i].(id := replacement, text := text, author := User)];
      return Ok(true);
    }

    /** Takes out every message that steers the turn, in order. */
    method StageModelMessages(turn: string) returns (staged: seq<QueuedMessage>)
      modifies this`items
      ensures owner.None? ==> staged == [] && items == old(items)
      ensures owner.Some? ==> staged == Filter(Leaving(owner.value, turn), old(items))
      ensures owner.Some? ==> items == Filter(Staying(owner.value, turn), old(items))
      ensures owner.Some? ==>
                var name := owner.value;
                && staged == Filter((m: QueuedMessage) => m.owner == name && m.boundary == Steer(turn), old(items))
                && items == Filter((m: QueuedMessage) => m.owner != name || m.boundary != Steer(turn), old(items))
    {
      staged := [];
      if owner.None? {
        return;
      }
      var name := owner.value;
      FilterSame(Leaving(name, turn), (m: QueuedMessage) => m.owner == name && m.boundary == Steer(turn), items);
      FilterSame(Staying(name, turn), (m: QueuedMessage) => m.owner != name || m.boundary != Steer(turn), items);
      ghost var before := items;
      var rest, i := [], 0;
      while i < |items|
        invariant i <= |items| && items == before
        invariant staged == Filter(Leaving(owner.value, turn), before[..i])
        invariant rest == Filter(Staying(owner.value, turn), before[..i])
      {
        assert before[..i + 1][..i] == before[..i];
        if Steers(owner.value, turn, items[i]) {
          staged := staged + [items[i]];
        } else {
          rest := rest + [items[i]];
        }
        i := i + 1;
      }
      assert before[..|before|] == before;
      items := rest;
    }

    /** The oldest message that may start a turn; it stays queued. */
    method NextTurn() returns (next: Result<Option<QueuedMessage>, ()>)
      ensures next.Err? <==> owner.None?
      ensures next.Ok? ==> next.value == match IndexWhere(ReadyFor(owner.value), items)
                                         case Some(i) => Some(items[i])
                                         case None => None
      ensures next.Ok? && next.value.Some? ==>
                exists i :: 0 <= i < |items| && items[i] == next.value.value && items[i].owner == owner.value
                            && !items[i].boundary.Steer?
                            && forall k :: 0 <= k < i ==> items[k].owner != owner.value || items[k].boundary.Steer?
      ensures next.Ok? && next.value.None? ==>
                forall k :: 0 <= k < |items| ==> items[k].owner != owner.value || items[k].boundary.Steer?
    {
      if owner.None? {
        return Err(());
      }
      var name := owner.value;
      var found := Position(ReadyFor(name));
      match found
      case None => return Ok(None);
      case Some(i) =>
        return Ok(Some(items[i]));
    }

    /** Removes the message and says where it was, so that a failed turn start can put it back. */
    method ConsumeNextTurn(id: string) returns (taken: Result<(nat, QueuedMessage), ()>)
      modifies this`items
      ensures taken.Ok? <==> owner.Some? && IndexWhere(Startable(owner.value, id), old(items)).Some?
      ensures taken.Err? ==> items == old(items)
      ensures taken.Ok? ==>
                var (i, m) := taken.value;
                && IndexWhere(Startable(owner.value, id), old(items)) == Some(i)
                && m == old(items)[i] && items == Without(old(items), i)
                && InsertAt(items, i, m) == old(items)
                && m.owner == owner.value && m.id == id && !m.boundary.Steer?
    {
      if owner.None? {
        return Err(());
      }
      var name := owner.value;
      var found := Position(Startable(name, id));
      match found
      case None => return Err(());
      case Some(i) =>
        var m := items[i];
        InsertUndoesRemove(items, i);
        items := Without(items, i);
        return Ok((i, m));
    }

    /** Steering messages of a failed turn become next-turn messages, in place. */
    method PromoteFailedTurn(turn: string) returns (ok: bool)
      modifies this`items
      ensures ok == owner.Some?
      ensures items == if ok then PromotedAll(old(items), owner.value, turn) else old(items)
      ensures |items| == |old(items)|
      ensures forall i :: 0 <= i < |items| ==>
                            var m := old(items)[i];
                            items[i] == if owner == Some(m.owner) && m.boundary == Steer(turn)
                                        then QueuedMessage(m.owner, m.id, Boundary.Queue, m.author, m.text, m.ticket)
                                        else m
    {
      if owner.None? {
        return false;
      }
      ghost var before := items;
      var i := 0;
      while i < |items|
        invariant i <= |items| == |before|
        invariant forall k :: 0 <= k < i ==> items[k] == Promoted(owner.value, turn, before[k])
        invariant forall k :: i <= k < |items| ==> items[k] == before[k]
      {
        if Steers(owner.value, turn, items[i]) {
          items := items[i := items[i].(boundary := Queue)];
        }
        i := i + 1;
      }
      return true;
    }
  }
}
