/**
 What a guard sees, in the concurrent store: the element of the atomic map, which nobody
 else can change while the guard is held.
 */
module Guards {
  import opened Store
  import opened Spec
  import opened Refinement
  import P = SlotProtocol
  import I = SlotInvariant
  import F = SlotFacts
  import L = Linearization

  predicate Holds(spec: Spec<Id>, id: Id, a: P.CallId) {
    id in spec.live && (a in spec.live[id].readers || a in spec.live[id].writers)
  }

  /** Slot `r` stores the element that the map has under the ordinal `k`, and call `a` has a guard on it. */
  predicate Sees(s: Store, spec: Spec<Id>, r: SlotRef, a: P.CallId, k: nat) {
    r in s.slots && Holds(spec, Id(r, k), a) && s.slots[r].cell == P.Init(spec.live[Id(r, k)].element)
  }

  /** The operation that acquired a guard on the ordinal. */
  predicate Acquires(op: P.Op, k: nat) {
    op == P.Read(k) || op == P.Write(k)
  }

  /** Looking through a guard yields the element that the atomic map has at that moment. */
  lemma DerefSeesMap(s: Store, r: SlotRef, a: P.CallId) returns (k: nat)
    requires r in s.slots && a in s.slots[r].calls && P.Enabled(s.slots[r], a, P.Deref) && Inv(s)
    ensures Acquires(s.slots[r].calls[a].op, k) && Sees(s, AbsOf(s), r, a, k)
  {
    hide AbsOf, L.SpecOf, I.Inv, BucketsInv, FreshInv, ErasuresInv, CallsInv;
    k := DerefInSlot(s.slots[r], a);
    AbsAt(s, r, k);
  }

  lemma DerefInSlot(c: P.Slot, a: P.CallId) returns (k: nat)
    requires I.Inv(c) && P.Enabled(c, a, P.Deref)
    ensures Acquires(c.calls[a].op, k)
    ensures k in L.SpecOf(c).live && c.cell == P.Init(L.SpecOf(c).live[k].element)
    ensures a in L.SpecOf(c).live[k].readers || a in L.SpecOf(c).live[k].writers
  {
    F.GuardSeesValue(c, a);
    I.InvMoves(c, a);
    k := c.calls[a].op.ord;
  }

  /** Readers exclude the writer, and writers each other, in the atomic map of a store. */
  lemma GuardsExclude(s: Store, id: Id, a: P.CallId)
    requires Inv(s) && Holds(AbsOf(s), id, a)
    ensures a in AbsOf(s).live[id].readers ==> AbsOf(s).live[id].writers == {}
    ensures a in AbsOf(s).live[id].writers ==> AbsOf(s).live[id].writers == {a} && AbsOf(s).live[id].readers == {}
  {
    hide AbsOf, BucketsInv, FreshInv, ErasuresInv, CallsInv;
    AbsAt(s, id.slot, id.ord);
    assert id == Id(id.slot, id.ord);
    var c := s.slots[id.slot];
    F.GuardsCounted(c);
    if a in I.WriteHolders(c.calls) { I.OnlyWriter(c, a); }
  }

  /** The guards of an element keep every other call from changing it. */
  lemma ElementPinned(s: Spec<Id>, t: Spec<Id>, id: Id, a: P.CallId, b: P.CallId, ev: Event<Id>)
    requires SpecStep(s, t, b, ev) && Holds(s, id, a)
    requires a in s.live[id].readers ==> s.live[id].writers == {}
    requires a in s.live[id].writers ==> s.live[id].writers == {a} && s.live[id].readers == {}
    requires a == b ==> !ev.EvAssign? && !ev.EvRemoveLocked?
    ensures id in t.live && t.live[id].element == s.live[id].element
  {
  }

  /** Call `a` has a guard on `id` in the states from `i` to before `j`, and does not assign or remove through it. */
  predicate KeepsGuard(run: Run, i: nat, j: nat, id: Id, a: P.CallId)
    requires i <= j < |run.states| && |run.states| == |run.moves| + 1
  {
    forall m :: i <= m < j ==>
      && Holds(AbsOf(run.states[m]), id, a)
      && (run.moves[m].0 == a ==> !EventAt(run, m).EvAssign? && !EventAt(run, m).EvRemoveLocked?)
  }

  lemma RunStepPins(run: Run, limit: nat, m: nat, id: Id, a: P.CallId)
    requires IsRun(run, limit) && m < |run.moves| && Holds(AbsOf(run.states[m]), id, a)
    requires run.moves[m].0 == a ==> !EventAt(run, m).EvAssign? && !EventAt(run, m).EvRemoveLocked?
    ensures id in AbsOf(run.states[m + 1]).live
    ensures AbsOf(run.states[m + 1]).live[id].element == AbsOf(run.states[m]).live[id].element
  {
    hide AbsOf, SpecStep, Inv, EventOf;
    RunKeepsInv(run, limit, m);
    GuardsExclude(run.states[m], id, a);
    RunRefines(run, limit, m);
    ElementPinned(AbsOf(run.states[m]), AbsOf(run.states[m + 1]), id, a, run.moves[m].0, EventAt(run, m));
  }

  /** What a guard sees stays the same while it is held, whatever other calls do. */
  lemma {:induction false} GuardSeesOneElement(run: Run, limit: nat, i: nat, j: nat, id: Id, a: P.CallId)
    requires IsRun(run, limit) && i <= j < |run.states| && id in AbsOf(run.states[i]).live
    requires KeepsGuard(run, i, j, id, a)
    ensures id in AbsOf(run.states[j]).live
    ensures AbsOf(run.states[j]).live[id].element == AbsOf(run.states[i]).live[id].element
    decreases j
  {
    hide AbsOf, EventOf;
    if i < j {
      GuardSeesOneElement(run, limit, i, j - 1, id, a);
      RunStepPins(run, limit, j - 1, id, a);
    }
  }
}
