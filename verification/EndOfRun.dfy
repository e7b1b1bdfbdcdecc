/**
 The end of a run: all operations have returned, all guards are gone, and the store is
 consumed by `into_iter`, possibly not to its end.
 */
module EndOfRun {
  import opened Store
  import opened Refinement
  import opened Iter
  import P = SlotProtocol
  import I = SlotInvariant
  import F = SlotFacts
  import L = Linearization
  import Facts = StoreFacts
  import T = Traversal

  /** Call `b` at slot `q` is a removal that has returned the element with the token. */
  predicate Returned(s: Store, q: SlotRef, b: P.CallId, token: P.CallId) {
    && q in s.slots && b in s.slots[q].calls
    && s.slots[q].calls[b].pc.Done? && s.slots[q].calls[b].pc.outcome.Removed?
    && s.slots[q].calls[b].pc.outcome.element.token == token
  }

  predicate ItemAt(items: seq<Item>, i: nat, token: P.CallId) {
    i < |items| && items[i].element.token == token
  }

  /** The element with the token was returned by exactly one removal, or is exactly one of the items, and not both. */
  ghost predicate OnceOut(s: Store, items: seq<Item>, token: P.CallId) {
    && ((exists q, b: P.CallId :: Returned(s, q, b, token)) <==> !(exists i: nat :: ItemAt(items, i, token)))
    && (forall p, q, a: P.CallId, b: P.CallId ::
          Returned(s, p, a, token) && Returned(s, q, b, token) ==> p == q && a == b)
    && (forall i: nat, j: nat :: ItemAt(items, i, token) && ItemAt(items, j, token) ==> i == j)
  }

  /** What has the element of an insertion is at the slot of the insertion. */
  lemma ReturnedHere(s: Store, r: SlotRef, a: P.CallId, q: SlotRef, b: P.CallId)
    requires Inv(s) && r in s.slots && a in s.slots[r].calls && s.slots[r].calls[a].op.Insert?
    requires Returned(s, q, b, a)
    ensures q == r && F.Carries(s.slots[q].calls[b], a)
  {
    hide Inv, I.Inv;
    assert F.Carries(s.slots[q].calls[b], a);
    assert Facts.HasElement(s.slots[q], a);
    Facts.ElementAtOneSlot(s, r, a);
  }

  lemma ItemHere(s: Store, r: SlotRef, a: P.CallId, x: Item)
    requires Inv(s) && Facts.Quiescent(s) && r in s.slots && a in s.slots[r].calls && s.slots[r].calls[a].op.Insert?
    requires T.IsLiveItem(s, x) && x.element.token == a
    ensures x.id.slot == r && s.slots[r].word.Occupied() && s.slots[r].cell.Init? && s.slots[r].cell.element.token == a
  {
    hide Inv, I.Inv, AbsOf;
    T.LiveItemMeans(s, x);
    var q := x.id.slot;
    Facts.QuiescentSlot(s, q);
    assert F.Lies(s.slots[q], a);
    assert Facts.HasElement(s.slots[q], a);
    Facts.ElementAtOneSlot(s, r, a);
  }

  lemma LiveHere(s: Store, r: SlotRef)
    requires Inv(s) && Facts.Quiescent(s) && r in s.slots && s.slots[r].word.Occupied()
    ensures s.slots[r].cell.Init? && T.IsLiveItem(s, Item(Id(r, s.slots[r].word.id), s.slots[r].cell.element))
  {
    hide Inv, I.Inv, AbsOf;
    Facts.QuiescentSlot(s, r);
    T.LiveItemMeans(s, Item(Id(r, s.slots[r].word.id), s.slots[r].cell.element));
  }

  /** Exactly the live elements are items, each once. */
  ghost predicate AllItems(s: Store, items: seq<Item>) {
    Distinct(items) && forall x :: x in items <==> T.IsLiveItem(s, x)
  }

  lemma ItemAtHere(s: Store, items: seq<Item>, r: SlotRef, a: P.CallId, i: nat)
    requires Inv(s) && Facts.Quiescent(s) && r in s.slots && a in s.slots[r].calls && s.slots[r].calls[a].op.Insert?
    requires AllItems(s, items) && ItemAt(items, i, a)
    ensures items[i].id.slot == r && s.slots[r].word.Occupied()
    ensures s.slots[r].cell.Init? && s.slots[r].cell.element.token == a
  {
    hide Inv, T.IsLiveItem;
    assert items[i] in items;
    ItemHere(s, r, a, items[i]);
  }

  lemma ElementOnceOut(s: Store, items: seq<Item>, r: SlotRef, a: P.CallId)
    requires Inv(s) && Facts.Quiescent(s) && AllItems(s, items)
    requires r in s.slots && a in s.slots[r].calls && s.slots[r].calls[a].op.Insert?
    ensures OnceOut(s, items, a)
  {
    hide Inv, Facts.Quiescent, T.IsLiveItem, F.Carries, AllItems;
    var taker := Facts.DroppedOrReturned(s, r, a);
    forall q, b: P.CallId | Returned(s, q, b, a) ensures q == r && taker == P.Some(b) {
      ReturnedHere(s, r, a, q, b);
    }
    forall i: nat | ItemAt(items, i, a) ensures items[i].id.slot == r && taker.None? {
      ItemAtHere(s, items, r, a, i);
    }
    if taker.Some? {
      assert Returned(s, r, taker.value, a);
    } else {
      Facts.QuiescentSlot(s, r);
      var i := LiveIsItem(s, items, r, a);
    }
    DistinctItems(s, items, r, a);
  }

  lemma LiveIsItem(s: Store, items: seq<Item>, r: SlotRef, a: P.CallId) returns (i: nat)
    requires Inv(s) && Facts.Quiescent(s) && AllItems(s, items)
    requires r in s.slots && s.slots[r].word.Occupied() && s.slots[r].cell.Init? && s.slots[r].cell.element.token == a
    ensures ItemAt(items, i, a)
  {
    hide Inv, T.IsLiveItem;
    LiveHere(s, r);
    var x := Item(Id(r, s.slots[r].word.id), s.slots[r].cell.element);
    assert x in items;
    i :| 0 <= i < |items| && items[i] == x;
  }

  lemma DistinctItems(s: Store, items: seq<Item>, r: SlotRef, a: P.CallId)
    requires AllItems(s, items) && forall i: nat :: ItemAt(items, i, a) ==> items[i].id.slot == r
    ensures forall i: nat, j: nat :: ItemAt(items, i, a) && ItemAt(items, j, a) ==> i == j
  {
    hide T.IsLiveItem;
  }

  /** If call `a` at slot `r` is an insertion it has returned, and its element is out of the store exactly once. */
  ghost predicate InsertionOut(s: Store, items: seq<Item>, r: SlotRef, a: P.CallId)
    requires r in s.slots && a in s.slots[r].calls
  {
    s.slots[r].calls[a].op.Insert? ==> s.slots[r].calls[a].pc.Done? && OnceOut(s, items, a)
  }

  ghost predicate EverythingOut(s: Store, items: seq<Item>) {
    forall r, a :: r in s.slots && a in s.slots[r].calls ==> InsertionOut(s, items, r, a)
  }

  lemma AllElementsOut(s: Store, items: seq<Item>)
    requires Inv(s) && Facts.Quiescent(s) && AllItems(s, items)
    ensures EverythingOut(s, items)
  {
    hide Inv, OnceOut, T.IsLiveItem, Facts.Quiescent, AllItems;
    forall r, a | r in s.slots && a in s.slots[r].calls ensures InsertionOut(s, items, r, a) {
      if s.slots[r].calls[a].op.Insert? {
        InsertionIsDone(s, r, a);
        ElementOnceOut(s, items, r, a);
      }
    }
  }

  /**
   Element conservation: when a run has come to its end and `into_iter` is dropped after at
   most `n` items, the element of every insertion was returned by exactly one removal, or was
   moved out by the iterator, or dropped with it, exactly once.
   */
  method Consume(run: Run, limit: nat, n: nat) returns (yielded: seq<Item>, gone: seq<Item>)
    requires IsRun(run, limit) && Facts.Quiescent(run.states[|run.states| - 1])
    ensures |yielded| <= n
    ensures EverythingOut(run.states[|run.states| - 1], yielded + gone)
  {
    hide Inv, AbsOf, T.IsLiveItem, EverythingOut;
    var s := run.states[|run.states| - 1];
    RunKeepsInv(run, limit, |run.states| - 1);
    yielded, gone := T.PartialIntoIter(s, n);
    AllElementsOut(s, yielded + gone);
  }

  lemma InsertionIsDone(s: Store, r: SlotRef, a: P.CallId)
    requires Inv(s) && Facts.Quiescent(s) && r in s.slots && a in s.slots[r].calls && s.slots[r].calls[a].op.Insert?
    ensures s.slots[r].calls[a].pc.Done?
  {
    hide BucketsInv, FreshInv, ErasuresInv, CallsInv;
    F.AlwaysShaped(s.slots[r], a);
  }
}
