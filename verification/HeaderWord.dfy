/**
 The 64-bit header word (src/header.rs).

 `HeaderState` is what a word means; the functions on `U64` are the bit helpers as
 the program computes them.  The lemmas below show that words and states are in
 one-to-one correspondence and that every bit helper does to a word what the
 `HeaderState` operation of the same name does to its meaning, on every word,
 the ones its debug assertions rule out included.
 */
module HeaderWord {
  import opened Bits

  type U32 = x: nat | x < TWO32
  type U64 = x: nat | x < TWO64

  const RESERVED_ID: nat := 0xFFFF_FFFF
  const MAX_CONCURRENT_READS: nat := 0x7FFF_FFFE

  // ----- what a word means

  /** `waiting` says that some thread may be blocking on the header. */
  datatype HeaderState =
    | Unoccupied(id: nat)
    | Unlocked(id: nat)
    | ReadLocked(id: nat, readers: nat, waiting: bool)
    | WriteLocked(id: nat, waiting: bool)
  {
    predicate Valid() {
      && id < TWO32
      && (ReadLocked? ==> 1 <= readers <= MAX_CONCURRENT_READS)
    }

    predicate Occupied() {
      !Unoccupied?
    }

    predicate Locked() {
      ReadLocked? || WriteLocked?
    }

    /** The reader field; all ones when write locked. */
    function Readers(): nat {
      match this
      case Unoccupied(_) => 0
      case Unlocked(_) => 0
      case ReadLocked(_, n, _) => n
      case WriteLocked(_, _) => MAX_CONCURRENT_READS + 1
    }

    /** The notification bit is clear. */
    predicate HasThreadBlocking() {
      match this
      case Unoccupied(_) => true
      case Unlocked(_) => false
      case ReadLocked(_, _, w) => w
      case WriteLocked(_, w) => w
    }

    function MarkThreadBlocking(): HeaderState {
      match this
      case Unoccupied(i) => Unoccupied(i)
      case Unlocked(i) => Unoccupied(i)
      case ReadLocked(i, n, _) => ReadLocked(i, n, true)
      case WriteLocked(i, _) => WriteLocked(i, true)
    }

    function UnmarkThreadBlocking(): HeaderState {
      match this
      case Unoccupied(i) => Unlocked(i)
      case Unlocked(i) => Unlocked(i)
      case ReadLocked(i, n, _) => ReadLocked(i, n, false)
      case WriteLocked(i, _) => WriteLocked(i, false)
    }

    /** Adding one reader; the last two cases are what the carry does when write locked. */
    function IncrementReaders(): HeaderState {
      match this
      case Unoccupied(i) => ReadLocked(i, 1, true)
      case Unlocked(i) => ReadLocked(i, 1, false)
      case ReadLocked(i, n, w) => if n == MAX_CONCURRENT_READS then WriteLocked(i, w) else ReadLocked(i, n + 1, w)
      case WriteLocked(i, w) => if w then Unlocked(i) else Unoccupied(i)
    }

    /** Taking one reader away; from the last marked reader this reads as unoccupied. */
    function DecrementReaders(): HeaderState {
      match this
      case Unoccupied(i) => WriteLocked(i, false)
      case Unlocked(i) => WriteLocked(i, true)
      case ReadLocked(i, n, w) =>
        if n > 1 then ReadLocked(i, n - 1, w) else if w then Unoccupied(i) else Unlocked(i)
      case WriteLocked(i, w) => ReadLocked(i, MAX_CONCURRENT_READS, w)
    }

    /** Whether the reader leaving this state must wake the blocked threads. */
    predicate LastReaderMustUnpark() {
      HasThreadBlocking() && Readers() == 1
    }

    /** The state a read unlock installs. */
    function AfterReadUnlock(): HeaderState {
      if LastReaderMustUnpark() then DecrementReaders().UnmarkThreadBlocking() else DecrementReaders()
    }

    /** The upper half of the word. */
    function Top(): nat {
      match this
      case Unoccupied(_) => 0
      case Unlocked(_) => TWO31
      case ReadLocked(_, n, w) => if w then n else TWO31 + n
      case WriteLocked(_, w) => if w then TWO31 - 1 else TWO32 - 1
    }
  }

  function Encode(h: HeaderState): (w: U64)
    requires h.Valid()
  {
    h.Top() * TWO32 + h.id
  }

  /** The meaning of a word given by its two halves. */
  function Meaning(top: U32, id: U32): (h: HeaderState)
    ensures h.Valid()
  {
    if top == 0 then Unoccupied(id)
    else if top == TWO31 then Unlocked(id)
    else if top < TWO31 then
      if top == TWO31 - 1 then WriteLocked(id, true) else ReadLocked(id, top, true)
    else
      if top == TWO32 - 1 then WriteLocked(id, false) else ReadLocked(id, top - TWO31, false)
  }

  function Decode(w: U64): (h: HeaderState)
    ensures h.Valid()
  {
    Meaning(w / TWO32, w % TWO32)
  }

  /** The halves of a word put together from its halves. */
  lemma Halves(top: U32, id: U32)
    ensures top * TWO32 + id < TWO64
    ensures (top * TWO32 + id) / TWO32 == top
    ensures (top * TWO32 + id) % TWO32 == id
    ensures Decode(top * TWO32 + id) == Meaning(top, id)
  {
  }

  lemma DecodeEncode(h: HeaderState)
    requires h.Valid()
    ensures Decode(Encode(h)) == h
  {
    Halves(h.Top(), h.id);
  }

  lemma EncodeDecode(w: U64)
    ensures Encode(Decode(w)) == w
  {
    assert w == (w / TWO32) * TWO32 + w % TWO32;
  }

  /** Comparing words, as every compare-exchange does, is comparing states. */
  lemma SameWordSameState(v: U64, w: U64)
    ensures v == w <==> Decode(v) == Decode(w)
  {
    EncodeDecode(v);
    EncodeDecode(w);
  }

  // ----- the bit helpers

  function UnoccupiedBits(id: U32): U64 { id }

  function ThreadNotificationMask(): U64 { TWO63 }

  function OccupiedUnlockedBits(id: U32): nat {
    Or(ThreadNotificationMask(), UnoccupiedBits(id))
  }

  function WriteLockedBits(id: U32): nat {
    Or(id, (TWO32 - 1) * TWO32)
  }

  predicate IsOccupied(bits: U64) { bits / TWO32 != 0 }

  function IdFromBits(bits: U64): U32 { bits % TWO32 }

  /** `!(1u32 << 31)` is `2^31 - 1`. */
  function ReadersFromBits(bits: U64): nat {
    And(bits / TWO32, TWO31 - 1)
  }

  predicate IsWriteLocked(bits: U64) { ReadersFromBits(bits) == TWO31 - 1 }

  predicate HasThreadBlocking(bits: U64) { And(bits, ThreadNotificationMask()) == 0 }

  /** `!(1u64 << 63)` is `2^63 - 1`. */
  function MarkThreadBlocking(bits: U64): nat { And(bits, TWO63 - 1) }

  function UnmarkThreadBlocking(bits: U64): nat { Or(bits, ThreadNotificationMask()) }

  function IncrementReaders(bits: U64): U64 { (bits + TWO32) % TWO64 }

  function DecrementReaders(bits: U64): U64 { (bits + TWO64 - TWO32) % TWO64 }

  /** The masks, read as arithmetic. */
  lemma MaskForms(w: U64)
    ensures ReadersFromBits(w) == (w / TWO32) % TWO31
    ensures And(w, TWO63) == if w < TWO63 then 0 else TWO63
    ensures MarkThreadBlocking(w) == if w < TWO63 then w else w - TWO63
    ensures UnmarkThreadBlocking(w) == if w < TWO63 then w + TWO63 else w
  {
    ReaderMask(w / TWO32);
    NotificationMask(w);
  }

  lemma ReaderMask(top: U32)
    ensures And(top, TWO31 - 1) == top % TWO31
  {
    Powers();
    var q, r := top / TWO31, top % TWO31;
    assert q * Pow2(31) + r == top;
    AndLowMask(q, r, 31);
  }

  lemma NotificationMask(w: U64)
    ensures And(w, TWO63) == if w < TWO63 then 0 else TWO63
    ensures And(w, TWO63 - 1) == if w < TWO63 then w else w - TWO63
    ensures Or(w, TWO63) == if w < TWO63 then w + TWO63 else w
  {
    Powers();
    var p := Pow2(63);
    var q, r := if w < p then 0 else 1, if w < p then w else w - p;
    assert q * p + r == w;
    AndBit(q, r, 63);
    AndLowMask(q, r, 63);
    OrBit(q, r, 63);
  }

  // ----- the helpers agree with the meaning

  lemma ConstructorsAgree(id: U32)
    ensures UnoccupiedBits(id) == Encode(Unoccupied(id))
    ensures OccupiedUnlockedBits(id) == Encode(Unlocked(id))
    ensures WriteLockedBits(id) == Encode(WriteLocked(id, false))
  {
    OrBitLow(id);
    OrHighHalf(id);
  }

  /** `mask | id`, with the mask on the left. */
  lemma OrBitLow(id: U32)
    ensures Or(TWO63, id) == TWO63 + id
  {
    Powers();
    OrCommutes(TWO63, id);
    OrDisjoint(id, 1, 63);
  }

  lemma OrHighHalf(id: U32)
    ensures Or(id, (TWO32 - 1) * TWO32) == id + (TWO32 - 1) * TWO32
  {
    Powers();
    OrDisjoint(id, TWO32 - 1, 32);
  }

  lemma {:induction false} OrCommutes(x: nat, y: nat)
    ensures Or(x, y) == Or(y, x)
  {
    if x == 0 { OrZero(y); }
    else if y == 0 { OrZero(x); }
    else { OrCommutes(x / 2, y / 2); }
  }

  lemma QueriesAgree(w: U64)
    ensures IdFromBits(w) == Decode(w).id
    ensures ReadersFromBits(w) == Decode(w).Readers()
    ensures IsOccupied(w) == Decode(w).Occupied()
    ensures IsWriteLocked(w) == Decode(w).WriteLocked?
    ensures HasThreadBlocking(w) == Decode(w).HasThreadBlocking()
  {
    hide And;
    MaskForms(w);
    TopHalf(w);
  }

  /** The upper half of a word, and its lower 31 bits. */
  lemma TopHalf(w: U64)
    ensures w < TWO63 <==> w / TWO32 < TWO31
    ensures w / TWO32 < TWO32
    ensures (w / TWO32) % TWO31 == if w / TWO32 < TWO31 then w / TWO32 else w / TWO32 - TWO31
  {
  }

  lemma MarksAgree(w: U64)
    ensures MarkThreadBlocking(w) < TWO64
    ensures Decode(MarkThreadBlocking(w)) == Decode(w).MarkThreadBlocking()
    ensures UnmarkThreadBlocking(w) < TWO64
    ensures Decode(UnmarkThreadBlocking(w)) == Decode(w).UnmarkThreadBlocking()
  {
    MaskForms(w);
    var top, id := w / TWO32, w % TWO32;
    assert w == top * TWO32 + id;
    assert w < TWO63 <==> top < TWO31;
    Halves(if top < TWO31 then top else top - TWO31, id);
    Halves(if top < TWO31 then top + TWO31 else top, id);
  }

  lemma CountsAgree(w: U64)
    ensures Decode(IncrementReaders(w)) == Decode(w).IncrementReaders()
    ensures Decode(DecrementReaders(w)) == Decode(w).DecrementReaders()
  {
    var top, id := w / TWO32, w % TWO32;
    assert w == top * TWO32 + id;
    Halves(if top == TWO32 - 1 then 0 else top + 1, id);
    Halves(if top == 0 then TWO32 - 1 else top - 1, id);
    assert IncrementReaders(w) == if top == TWO32 - 1 then id else w + TWO32;
    assert DecrementReaders(w) == if top == 0 then w + TWO64 - TWO32 else w - TWO32;
  }

  /**
   The word a read unlock computes (src/header.rs:141-148), and that adding a reader
   below the limit touches neither the ID nor the notification bit.
   */
  lemma ReadUnlockAgrees(w: U64)
    ensures
      var mustUnpark := HasThreadBlocking(w) && ReadersFromBits(w) == 1;
      var next := if mustUnpark then UnmarkThreadBlocking(DecrementReaders(w)) else DecrementReaders(w);
      && next < TWO64
      && mustUnpark == Decode(w).LastReaderMustUnpark()
      && Decode(next) == Decode(w).AfterReadUnlock()
  {
    QueriesAgree(w);
    CountsAgree(w);
    MarksAgree(DecrementReaders(w));
  }

  lemma NoCarry(w: U64)
    requires ReadersFromBits(w) < MAX_CONCURRENT_READS
    ensures IncrementReaders(w) == w + TWO32
    ensures IdFromBits(IncrementReaders(w)) == IdFromBits(w)
    ensures HasThreadBlocking(IncrementReaders(w)) == HasThreadBlocking(w)
    ensures ReadersFromBits(IncrementReaders(w)) == ReadersFromBits(w) + 1
    ensures !IsWriteLocked(IncrementReaders(w))
  {
    QueriesAgree(w);
    CountsAgree(w);
    QueriesAgree(IncrementReaders(w));
    EncodeDecode(w);
    EncodeDecode(IncrementReaders(w));
  }
}
