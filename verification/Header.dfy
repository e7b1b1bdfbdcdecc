/**
 `Header` (src/header.rs) as the object it is: one 64-bit word that its methods read and
 write with the bit helpers.

 The methods are the program's methods as they run when no other thread touches the word
 meanwhile; `spurious` is the number of times a weak compare-exchange fails on the way
 although the word matches.  Interleavings are the subject of `SlotProtocol`.
 */
module Header {
  import opened Bits
  import opened HeaderWord
  import P = SlotProtocol

  datatype LockResult =
    | Granted
    | Mismatch
    | TimedOut
    | WouldPark     // marked the header and went to sleep
    | TooManyReaders

  class Header {
    var state: U64

    /** What the word means. */
    function Meant(): HeaderState
      reads this
    {
      Decode(state)
    }

    constructor ()
      ensures Meant() == Unoccupied(0) && state == 0
    {
      state := 0;
    }

    method CompareExchange(expected: U64, next: U64) returns (ok: bool)
      modifies this
      ensures ok <==> old(Meant()) == Decode(expected)
      ensures Meant() == if ok then Decode(next) else old(Meant())
      ensures !ok ==> state == old(state)
    {
      SameWordSameState(state, expected);
      ok := state == expected;
      if ok { state := next; }
    }

    /** `lock_read`: the ID alone decides whether the header is looked at any further. */
    method LockRead(id: U32, timeout: P.Timeout, spurious: nat) returns (r: LockResult)
      requires id != RESERVED_ID
      requires Meant().id == id ==> Meant().Occupied()
      modifies this
      ensures
        var h := old(Meant());
        if h.id != id then r == Mismatch && Meant() == h
        else if h.WriteLocked? then
          if timeout.DontBlock? then r == TimedOut && Meant() == h
          else r == WouldPark && Meant() == WriteLocked(id, true)
        else if h.Readers() == MAX_CONCURRENT_READS then r == TooManyReaders && Meant() == h
        else r == Granted && Meant().Readers() == h.Readers() + 1 && Meant() == h.IncrementReaders()
      decreases spurious
    {
      var current := state;
      QueriesAgree(current);
      CountsAgree(current);
      if IdFromBits(current) != id { return Mismatch; }
      if IsWriteLocked(current) {
        r := LockReadSlow(id, timeout);
      } else if ReadersFromBits(current) == MAX_CONCURRENT_READS {
        r := TooManyReaders;
      } else if spurious > 0 {
        r := LockRead(id, timeout, spurious - 1);
      } else {
        var ok := CompareExchange(current, IncrementReaders(current));
        assert ok;
        r := Granted;
      }
    }

    /** `lock_read_slow`: with nobody to release it, a write-locked header is marked and slept on. */
    method LockReadSlow(id: U32, timeout: P.Timeout) returns (r: LockResult)
      requires Meant().WriteLocked? && Meant().id == id && id != RESERVED_ID
      modifies this
      ensures timeout.DontBlock? ==> r == TimedOut && Meant() == old(Meant())
      ensures !timeout.DontBlock? ==> r == WouldPark && Meant() == WriteLocked(id, true)
    {
      if timeout.DontBlock? { return TimedOut; }
      var current := state;
      QueriesAgree(current);
      assert IdFromBits(current) == id && IsWriteLocked(current);
      Park(current);
      r := WouldPark;
    }

    /** `block_result_to_park_result`, once the operation has decided to block on `expected`. */
    method Park(expected: U64)
      requires state == expected && Meant().Locked() && Meant().id != RESERVED_ID
      modifies this
      ensures Meant() == old(Meant()).MarkThreadBlocking()
    {
      QueriesAgree(expected);
      MarksAgree(expected);
      var ok := CompareExchange(expected, MarkThreadBlocking(expected));
      assert ok;
    }

    /** `unlock_read`; says whether the sleepers were woken. */
    method UnlockRead(id: U32, spurious: nat) returns (woken: bool)
      requires Meant().ReadLocked? && Meant().id == id
      modifies this
      ensures Meant() == old(Meant()).AfterReadUnlock()
      ensures woken <==> old(Meant()) == ReadLocked(id, 1, true)
      decreases spurious
    {
      var current := state;
      QueriesAgree(current);
      ReadUnlockAgrees(current);
      assert ReadersFromBits(current) != 0 && !IsWriteLocked(current) && IdFromBits(current) == id;
      var mustUnpark := HasThreadBlocking(current) && ReadersFromBits(current) == 1;
      var next := if mustUnpark then UnmarkThreadBlocking(DecrementReaders(current)) else DecrementReaders(current);
      if spurious > 0 {
        woken := UnlockRead(id, spurious - 1);
      } else {
        var ok := CompareExchange(current, next);
        assert ok;
        woken := mustUnpark;
      }
    }

    method LockWrite(id: U32, timeout: P.Timeout, spurious: nat) returns (r: LockResult)
      requires id != RESERVED_ID
      requires Meant().id == id ==> Meant().Occupied()
      modifies this
      ensures
        var h := old(Meant());
        if h == Unlocked(id) then r == Granted && Meant() == WriteLocked(id, false)
        else NotUnlocked(h, id, timeout, r, Meant())
    {
      ConstructorsAgree(id);
      DecodeEncode(Unlocked(id));
      DecodeEncode(WriteLocked(id, false));
      r := Transition(OccupiedUnlockedBits(id), WriteLockedBits(id), timeout, spurious);
    }

    /** `transition`, which retries only what is equal to the expected word already. */
    method Transition(expected: U64, next: U64, timeout: P.Timeout, spurious: nat) returns (r: LockResult)
      requires Decode(expected).Unlocked? && Decode(expected).id != RESERVED_ID
      requires Meant().id == Decode(expected).id ==> Meant().Occupied()
      modifies this
      ensures
        var h := old(Meant());
        if h == Decode(expected) then r == Granted && Meant() == Decode(next)
        else NotUnlocked(h, Decode(expected).id, timeout, r, Meant())
      decreases spurious
    {
      var actual := state;
      QueriesAgree(actual);
      QueriesAgree(expected);
      var ok := false;
      if spurious == 0 || actual != expected { ok := CompareExchange(expected, next); }
      SameWordSameState(actual, expected);
      if ok {
        r := Granted;
      } else if IdFromBits(actual) == IdFromBits(expected) {
        if ReadersFromBits(actual) > 0 {
          r := TransitionSlow(expected, next, timeout);
        } else {
          assert actual == expected;
          r := Transition(expected, next, timeout, spurious - 1);
        }
      } else {
        r := Mismatch;
      }
    }

    method TransitionSlow(expected: U64, next: U64, timeout: P.Timeout) returns (r: LockResult)
      requires Decode(expected).Unlocked? && Decode(expected).id != RESERVED_ID
      requires Meant().Locked() && Meant().id == Decode(expected).id
      modifies this
      ensures timeout.DontBlock? ==> r == TimedOut && Meant() == old(Meant())
      ensures !timeout.DontBlock? ==> r == WouldPark && Meant() == old(Meant()).MarkThreadBlocking()
    {
      if timeout.DontBlock? { return TimedOut; }
      var actual := state;
      var ok := CompareExchange(expected, next);
      assert !ok;
      Park(actual);
      r := WouldPark;
    }

    /** `unlock_write`; says whether the sleepers were woken. */
    method UnlockWrite(id: U32) returns (woken: bool)
      requires Meant().WriteLocked? && Meant().id == id
      modifies this
      ensures Meant() == Unlocked(id)
      ensures woken <==> old(Meant()) == WriteLocked(id, true)
    {
      ConstructorsAgree(id);
      DecodeEncode(Unlocked(id));
      var before := state;
      state := OccupiedUnlockedBits(id);
      QueriesAgree(before);
      assert IdFromBits(before) == id && IsWriteLocked(before) && IsOccupied(before);
      woken := HasThreadBlocking(before);
    }

    /** `occupy`: sets one bit and returns the ID. */
    method Occupy() returns (id: U32)
      requires Meant().Unoccupied? && Meant().id != RESERVED_ID
      modifies this
      ensures old(Meant()) == Unoccupied(id) && Meant() == Unlocked(id)
    {
      var before := state;
      QueriesAgree(before);
      MarksAgree(before);
      state := UnmarkThreadBlocking(before);
      assert !IsOccupied(before) && IdFromBits(before) != RESERVED_ID;
      id := IdFromBits(before);
    }

    /** `remove`; `mayReuse` says whether the next ID is still available. */
    method Remove(id: U32, timeout: P.Timeout, spurious: nat) returns (r: LockResult, mayReuse: bool)
      requires id != RESERVED_ID
      requires Meant().id == id ==> Meant().Occupied()
      modifies this
      ensures
        var h := old(Meant());
        if h == Unlocked(id) then r == Granted && Meant() == Unoccupied(id + 1)
        else NotUnlocked(h, id, timeout, r, Meant())
      ensures mayReuse <==> r == Granted && id + 1 < RESERVED_ID
    {
      ConstructorsAgree(id);
      ConstructorsAgree(id + 1);
      DecodeEncode(Unlocked(id));
      DecodeEncode(Unoccupied(id + 1));
      r := Transition(OccupiedUnlockedBits(id), UnoccupiedBits(id + 1), timeout, spurious);
      mayReuse := r == Granted && id + 1 != RESERVED_ID;
    }

    /** `remove_locked`: one swap, whatever the notification bit says. */
    method RemoveLocked(id: U32) returns (mayReuse: bool, woken: bool)
      requires Meant().WriteLocked? && Meant().id == id && id != RESERVED_ID
      modifies this
      ensures Meant() == Unoccupied(id + 1)
      ensures mayReuse <==> id + 1 < RESERVED_ID
      ensures woken <==> old(Meant()) == WriteLocked(id, true)
    {
      ConstructorsAgree(id + 1);
      DecodeEncode(Unoccupied(id + 1));
      var before := state;
      state := UnoccupiedBits(id + 1);
      QueriesAgree(before);
      assert IdFromBits(before) == id && IsWriteLocked(before) && IsOccupied(before);
      woken := HasThreadBlocking(before);
      mayReuse := id + 1 != RESERVED_ID;
    }

    method NeedsDrop() returns (occupied: bool)
      ensures occupied <==> Meant().Occupied()
    {
      QueriesAgree(state);
      occupied := IsOccupied(state);
    }

    method IdIfOccupied() returns (id: P.Option<U32>)
      ensures id == if Meant().Occupied() then P.Some(Meant().id) else P.None
    {
      QueriesAgree(state);
      id := if IsOccupied(state) then P.Some(IdFromBits(state)) else P.None;
    }

    /** `reset`: forgets the element and keeps the ID, so that it will be issued again. */
    method Reset() returns (id: P.Option<U32>)
      requires Meant().Unlocked? || Meant().Unoccupied?
      modifies this
      ensures Meant() == Unoccupied(old(Meant()).id)
      ensures id == if old(Meant()).Occupied() then P.Some(old(Meant()).id) else P.None
    {
      QueriesAgree(state);
      assert ReadersFromBits(state) == 0;
      if IsOccupied(state) {
        var i := IdFromBits(state);
        assert !HasThreadBlocking(state);
        ConstructorsAgree(i);
        DecodeEncode(Unoccupied(i));
        state := UnoccupiedBits(i);
        id := P.Some(i);
      } else {
        id := P.None;
      }
    }
  }

  /** What `transition` from `Unlocked(id)` does when the header is something else. */
  predicate NotUnlocked(h: HeaderState, id: nat, timeout: P.Timeout, r: LockResult, after: HeaderState) {
    if h.id != id then r == Mismatch && after == h
    else if timeout.DontBlock? then r == TimedOut && after == h
    else r == WouldPark && after == h.MarkThreadBlocking()
  }
}
