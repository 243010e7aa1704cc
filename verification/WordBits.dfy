/** Single bits of a word, of the bytes it is made of and of what is stored in a memory. */
module WordBits {
  import opened Prelude
  import opened Memory
  import opened Devices
  import opened DeviceHistory
  import opened MmioLanes

  // ----- low bits -----

  /** The k lowest bits. */
  function LowOnes(k: nat): Word {
    if k == 0 then 0 else (LowOnes(k - 1) << 1) | 1
  }

  function WithOne(m: Word): Word {
    (m << 1) | 1
  }

  function TopBit(m: Word): Word {
    m & 0x8000_0000
  }

  lemma HalvesMasked(v: Word, u: Word, m: Word)
    requires TopBit(m) == 0 && Masked(v, WithOne(m)) == Masked(u, WithOne(m))
    ensures Odd(v) == Odd(u) && Masked(Half(v), m) == Masked(Half(u), m)
  {
  }

  lemma HalvesOnes(m: Word)
    requires TopBit(m) == 0
    ensures Odd(WithOne(m)) && Half(WithOne(m)) == m
  {
  }

  lemma {:induction false} LowOnesTop(k: nat)
    requires k <= 32
    ensures k < 32 ==> TopBit(LowOnes(k)) == 0
  {
    assert LowOnes(1) == 0x1 && LowOnes(2) == 0x3 && LowOnes(3) == 0x7 && LowOnes(4) == 0xF;
    assert LowOnes(5) == 0x1F && LowOnes(6) == 0x3F && LowOnes(7) == 0x7F && LowOnes(8) == 0xFF;
    assert LowOnes(9) == 0x1FF && LowOnes(10) == 0x3FF && LowOnes(11) == 0x7FF && LowOnes(12) == 0xFFF;
    assert LowOnes(13) == 0x1FFF && LowOnes(14) == 0x3FFF && LowOnes(15) == 0x7FFF && LowOnes(16) == 0xFFFF;
    assert LowOnes(17) == 0x1_FFFF && LowOnes(18) == 0x3_FFFF && LowOnes(19) == 0x7_FFFF && LowOnes(20) == 0xF_FFFF;
    assert LowOnes(21) == 0x1F_FFFF && LowOnes(22) == 0x3F_FFFF && LowOnes(23) == 0x7F_FFFF && LowOnes(24) == 0xFF_FFFF;
    assert LowOnes(25) == 0x1FF_FFFF && LowOnes(26) == 0x3FF_FFFF && LowOnes(27) == 0x7FF_FFFF && LowOnes(28) == 0xFFF_FFFF;
    assert LowOnes(29) == 0x1FFF_FFFF && LowOnes(30) == 0x3FFF_FFFF && LowOnes(31) == 0x7FFF_FFFF;
  }

  lemma LowOnesIs()
    ensures LowOnes(1) == 0x1 && LowOnes(8) == 0xFF && LowOnes(11) == 0x7FF && LowOnes(16) == 0xFFFF && LowOnes(20) == 0xF_FFFF
    ensures LowOnes(32) == 0xFFFF_FFFF
  {
    assert LowOnes(4) == 0xF && LowOnes(12) == 0xFFF && LowOnes(24) == 0xFF_FFFF && LowOnes(28) == 0xFFF_FFFF;
  }

  lemma {:induction false} BitOfLowOnes(k: nat, b: nat)
    requires k <= 32
    ensures BitAt(LowOnes(k), b) <==> b < k
    decreases k
  {
    hide Odd, Half, TopBit, WithOne;
    if k == 0 {
      ZeroHasNoBits(b);
    } else {
      LowOnesTop(k - 1);
      HalvesOnes(LowOnes(k - 1));
      assert LowOnes(k) == WithOne(LowOnes(k - 1)) by { OnesStep(k); }
      if b > 0 {
        BitOfLowOnes(k - 1, b - 1);
      }
    }
  }

  lemma OnesStep(k: nat)
    requires k > 0
    ensures LowOnes(k) == WithOne(LowOnes(k - 1))
  {
  }

  /** Words that agree on their k lowest bits agree on each of them. */
  lemma {:induction false} SameLowBits(v: Word, u: Word, k: nat, r: nat)
    requires r < k <= 32 && Masked(v, LowOnes(k)) == Masked(u, LowOnes(k))
    ensures BitAt(v, r) == BitAt(u, r)
    decreases k
  {
    hide Odd, Half, TopBit, WithOne, Masked, LowOnes;
    OnesStep(k);
    LowOnesTop(k - 1);
    HalvesMasked(v, u, LowOnes(k - 1));
    if r > 0 {
      SameLowBits(Half(v), Half(u), k - 1, r - 1);
    }
  }

  lemma BitOfMasked(v: Word, m: Word, b: nat)
    ensures BitAt(Masked(v, m), b) <==> BitAt(v, b) && BitAt(m, b)
  {
    hide BitAt;
    assert Masked(v, m) == Minus(v, Minus(v, m)) by { MaskIsMinus(v, m); }
    BitOfMinus(v, Minus(v, m), b);
    BitOfMinus(v, m, b);
  }

  lemma MaskIsMinus(v: Word, m: Word)
    ensures Masked(v, m) == Minus(v, Minus(v, m))
  {
  }

  // ----- bits and bytes -----

  lemma EightHalves(v: Word)
    ensures Half(Half(Half(Half(Half(Half(Half(Half(v)))))))) == Down8(v)
  {
  }

  lemma HalfStep(v: Word, b: nat)
    ensures BitAt(v, b + 1) == BitAt(Half(v), b)
  {
  }

  lemma ByteStep(v: Word, b: nat)
    ensures BitAt(v, b + 8) == BitAt(Down8(v), b)
  {
    hide BitAt, Half;
    var h1 := Half(v);
    var h2 := Half(h1);
    var h3 := Half(h2);
    var h4 := Half(h3);
    var h5 := Half(h4);
    var h6 := Half(h5);
    var h7 := Half(h6);
    HalfStep(v, b + 7);
    HalfStep(h1, b + 6);
    HalfStep(h2, b + 5);
    HalfStep(h3, b + 4);
    HalfStep(h4, b + 3);
    HalfStep(h5, b + 2);
    HalfStep(h6, b + 1);
    HalfStep(h7, b);
    EightHalves(v);
  }

  lemma LowByteBits(v: Word, u: Word, r: nat)
    requires r < 8 && Masked(v, 0xFF) == Masked(u, 0xFF)
    ensures BitAt(v, r) == BitAt(u, r)
  {
    hide BitAt, Masked;
    LowOnesIs();
    SameLowBits(v, u, 8, r);
  }

  lemma WidenedMasked(x: Byte)
    ensures Masked(Widened(x), 0xFF) == Widened(x)
  {
  }

  lemma LowestByte(v: Word)
    ensures Widened(ByteOf(v, 0)) == Masked(v, 0xFF) && Masked(Masked(v, 0xFF), 0xFF) == Masked(v, 0xFF)
  {
  }

  /** Bit r of byte k is bit 8k + r of the word. */
  lemma {:induction false} BitOfByte(v: Word, k: nat, r: nat)
    requires r < 8
    ensures BitAt(Widened(ByteOf(v, k)), r) == BitAt(v, 8 * k + r)
    decreases k
  {
    hide BitAt, Masked, Widened;
    if k == 0 {
      LowestByte(v);
      LowByteBits(Widened(ByteOf(v, 0)), v, r);
    } else {
      BitOfByte(Down8(v), k - 1, r);
      ByteStep(v, 8 * (k - 1) + r);
    }
  }

  lemma {:induction false} BitOfShifted(v: Word, q: nat, r: nat)
    ensures BitAt(v, 8 * q + r) == BitAt(ShiftDown(v, q), r)
  {
    hide BitAt, Down8;
    if q == 0 {
      NoShift(v);
    } else {
      BitOfShifted(v, q - 1, r + 8);
      DownStep(v, q);
      ByteStep(ShiftDown(v, q - 1), r);
    }
  }

  function ByteIn(b0: Byte, b1: Byte, b2: Byte, b3: Byte, q: nat): Byte {
    if q == 3 then b0 else if q == 2 then b1 else if q == 1 then b2 else b3
  }

  lemma PackedBytes(b0: Byte, b1: Byte, b2: Byte, b3: Byte, q: nat)
    requires q < 4
    ensures Masked(ShiftDown(Packed(b0, b1, b2, b3), q), 0xFF) == Masked(Widened(ByteIn(b0, b1, b2, b3, q)), 0xFF)
  {
    hide Masked, Widened, Packed, Down8, Down16, Down24, ShiftDown;
    ExtractByte(b0, b1, b2, b3);
    ShiftsDown(Packed(b0, b1, b2, b3));
    WidenedMasked(ByteIn(b0, b1, b2, b3, q));
  }

  /** Bit 8q + r of a big-endian word is bit r of its byte q, counted from the least significant one. */
  lemma BitOfPacked(b0: Byte, b1: Byte, b2: Byte, b3: Byte, q: nat, r: nat)
    requires q < 4 && r < 8
    ensures BitAt(Packed(b0, b1, b2, b3), 8 * q + r) == BitAt(Widened(ByteIn(b0, b1, b2, b3, q)), r)
  {
    hide BitAt, Masked, Widened, Packed, ShiftDown, ByteIn;
    BitOfShifted(Packed(b0, b1, b2, b3), q, r);
    PackedBytes(b0, b1, b2, b3, q);
    LowByteBits(ShiftDown(Packed(b0, b1, b2, b3), q), Widened(ByteIn(b0, b1, b2, b3, q)), r);
  }

  /** The address of the byte that holds bit b of the word at this address. */
  function ByteFor(wordAddr: nat, b: nat): nat
    requires b < 32
  {
    wordAddr + 3 - b / 8
  }

  lemma ByteForIs(wordAddr: nat, q: nat, r: nat)
    requires q < 4 && r < 8
    ensures 8 * q + r < 32 && ByteFor(wordAddr, 8 * q + r) == wordAddr + 3 - q && (8 * q + r) % 8 == r
  {
  }

  lemma BitOfByteIn(m: seq<Byte>, wordAddr: nat, q: nat, r: nat)
    requires q < 4 && r < 8 && wordAddr + 4 <= |m|
    ensures BitAt(Load(m, wordAddr, 4), 8 * q + r) == BitAt(Widened(m[wordAddr + 3 - q]), r)
  {
    hide BitAt, Widened, Packed, Load;
    PackedLoad(m, wordAddr);
    BitOfPacked(m[wordAddr], m[wordAddr + 1], m[wordAddr + 2], m[wordAddr + 3], q, r);
  }

  lemma ByteAndBit(b: nat)
    requires b < 32
    ensures b == 8 * (b / 8) + b % 8 && b / 8 < 4 && b % 8 < 8
  {
  }

  lemma BitOfWordAt(m: seq<Byte>, wordAddr: nat, b: nat, q: nat, r: nat)
    requires b == 8 * q + r && q < 4 && r < 8 && wordAddr + 4 <= |m|
    ensures BitAt(Load(m, wordAddr, 4), b) == BitAt(Widened(m[ByteFor(wordAddr, b)]), r)
  {
    hide BitAt, Load, Widened, ByteFor;
    ByteForIs(wordAddr, q, r);
    BitOfByteIn(m, wordAddr, q, r);
  }

  lemma BitOfWord(m: seq<Byte>, wordAddr: nat, b: nat)
    requires b < 32 && wordAddr + 4 <= |m|
    ensures BitAt(Load(m, wordAddr, 4), b) == BitAt(Widened(m[ByteFor(wordAddr, b)]), b % 8)
  {
    ByteAndBit(b);
    BitOfWordAt(m, wordAddr, b, b / 8, b % 8);
    hide *;
  }

  // ----- a write -----

  /** The write reaches the byte that holds bit b of this word. */
  predicate Covers(w: Write, wordAddr: nat, b: nat)
    requires b < 32
  {
    w.addr <= ByteFor(wordAddr, b) < w.addr + w.size
  }

  /** ... and has that bit of its value set. */
  predicate Carries(w: Write, wordAddr: nat, b: nat)
    requires b < 32
  {
    Covers(w, wordAddr, b) && BitAt(w.value, 8 * (w.addr + w.size - 1 - ByteFor(wordAddr, b)) + b % 8)
  }

  lemma StoredBit(m: seq<Byte>, w: Write, wordAddr: nat, b: nat)
    requires b < 32 && wordAddr % 4 == 0 && wordAddr + 4 <= |m| && Aligned(w.addr, w.size)
    ensures BitAt(Load(Store(m, w.addr, w.size, w.value), wordAddr, 4), b) ==
      if Covers(w, wordAddr, b) then Carries(w, wordAddr, b) else BitAt(Load(m, wordAddr, 4), b)
  {
    CoveringFits(w, wordAddr, b, |m|);
    SizesOfAligned(w.addr, w.size);
    BitOfWord(m, wordAddr, b);
    BitOfWord(Store(m, w.addr, w.size, w.value), wordAddr, b);
    StoredBitAt(m, w, wordAddr, b, ByteFor(wordAddr, b));
    hide *;
  }

  lemma StoredBitAt(m: seq<Byte>, w: Write, wordAddr: nat, b: nat, at: nat)
    requires b < 32 && w.size <= 4 && at == ByteFor(wordAddr, b) && at < |m| && (Covers(w, wordAddr, b) ==> w.addr + w.size <= |m|)
    ensures BitAt(Widened(Store(m, w.addr, w.size, w.value)[at]), b % 8) ==
      if Covers(w, wordAddr, b) then Carries(w, wordAddr, b) else BitAt(Widened(m[at]), b % 8)
  {
    hide BitAt, Widened, Store, ByteOf, ByteFor;
    ByteStored(m, w, at);
    if Covers(w, wordAddr, b) {
      BitOfByte(w.value, w.addr + w.size - 1 - at, b % 8);
    }
  }

  /** A write that fits changes exactly the bytes it reaches; one that does not fit changes nothing. */
  lemma ByteStored(m: seq<Byte>, w: Write, at: nat)
    requires at < |m| && w.size <= 4
    ensures Store(m, w.addr, w.size, w.value)[at] ==
      if w.addr + w.size <= |m| && w.addr <= at < w.addr + w.size then ByteOf(w.value, w.addr + w.size - 1 - at) else m[at]
  {
    hide ByteOf;
  }

  lemma EvenInWord(h: int, q: int, r: int)
    requires 2 * h == 4 * q + r && 0 <= r < 4
    ensures r <= 2
  {
    var d := h - 2 * q;
    assert r == 2 * d;
  }

  lemma FitsInWord(addr: nat, size: nat)
    requires Aligned(addr, size)
    ensures addr % 4 + size <= 4
  {
    if size == 2 {
      var h, q, r := addr / 2, addr / 4, addr % 4;
      assert addr == 2 * h && addr == 4 * q + r;
      EvenInWord(h, q, r);
    }
  }

  lemma InOneWord(addr: nat, size: nat, wordAddr: nat, at: nat)
    requires Aligned(addr, size) && wordAddr % 4 == 0 && wordAddr <= at < wordAddr + 4 && addr <= at < addr + size
    ensures addr + size <= wordAddr + 4 && addr - addr % 4 == wordAddr
  {
    FitsInWord(addr, size);
    hide Aligned;
    var q, r, u := addr / 4, addr % 4, wordAddr / 4;
    assert addr == 4 * q + r && wordAddr == 4 * u;
    assert q == u;
  }

  lemma CoveringFits(w: Write, wordAddr: nat, b: nat, size: nat)
    requires b < 32 && wordAddr % 4 == 0 && wordAddr + 4 <= size && Aligned(w.addr, w.size)
    ensures Covers(w, wordAddr, b) ==> w.addr + w.size <= size && w.addr - w.addr % 4 == wordAddr
  {
    hide Aligned;
    if Covers(w, wordAddr, b) {
      InOneWord(w.addr, w.size, wordAddr, ByteFor(wordAddr, b));
    }
  }

  /** The bits a write puts on the lanes of its word are exactly the ones it carries. */
  lemma BitsCarried(w: Write, b: nat)
    requires b < 32 && Aligned(w.addr, w.size)
    ensures BitAt(w.Bits(), b) == Carries(w, WordAddr(w.addr), b)
  {
    hide BitAt, Load, Store, Merged, Masked, LaneMask, WriteBits, ShiftUp, LaneIndex, SizeMask, ByteOf;
    var wordAddr := WordAddr(w.addr);
    WordIsAligned(w.addr);
    var m: seq<Byte> := seq(wordAddr + 4, _ => 0);
    StoredBit(m, w, wordAddr, b);
    LaneWrite(m, w.addr, w.size, w.value);
    BlankWord(wordAddr + 4, wordAddr);
    ZeroHasNoBits(b);
    BitsAreMasked(w.addr, w.size, w.value);
  }

  lemma WordIsAligned(addr: nat)
    ensures WordAddr(addr) % 4 == 0 && WordAddr(addr) <= addr < WordAddr(addr) + 4
  {
  }

  lemma BitsAreMasked(addr: nat, size: nat, value: Word)
    ensures Merged(0, WriteBits(addr, size, value), LaneMask(addr, size)) == WriteBits(addr, size, value)
  {
    hide ShiftUp, LaneIndex, SizeMask, LaneMask;
  }

  // ----- any history of aligned writes -----

  predicate SetLastAt(history: seq<Write>, wordAddr: nat, b: nat, k: nat)
    requires b < 32
  {
    && k < |history| && Carries(history[k], wordAddr, b)
    && forall j :: k < j < |history| ==> !Covers(history[j], wordAddr, b)
  }

  /** The last write that reached bit b of this word had it set. */
  ghost predicate SetLast(history: seq<Write>, wordAddr: nat, b: nat)
    requires b < 32
  {
    exists k: nat :: SetLastAt(history, wordAddr, b, k)
  }

  lemma SetLastSnoc(history: seq<Write>, w: Write, wordAddr: nat, b: nat)
    requires b < 32
    ensures SetLast(history + [w], wordAddr, b) <==> if Covers(w, wordAddr, b) then Carries(w, wordAddr, b) else SetLast(history, wordAddr, b)
  {
    hide BitAt;
    var all := history + [w];
    assert all[|history|] == w;
    if Carries(w, wordAddr, b) {
      assert SetLastAt(all, wordAddr, b, |history|);
    }
    if SetLast(history, wordAddr, b) && !Covers(w, wordAddr, b) {
      var k: nat :| SetLastAt(history, wordAddr, b, k);
      assert SetLastAt(all, wordAddr, b, k);
    }
    if SetLast(all, wordAddr, b) {
      var k: nat :| SetLastAt(all, wordAddr, b, k);
      assert forall j :: 0 <= j < |history| ==> all[j] == history[j];
      if k < |history| {
        assert SetLastAt(history, wordAddr, b, k);
      }
    }
  }

  /** A memory holds in each bit what the last write that reached it put there. */
  lemma {:induction false} MemoryBits(history: seq<Write>, ramSize: nat, wordAddr: nat, b: nat)
    requires AlignedHistory(history) && b < 32 && wordAddr % 4 == 0 && wordAddr + 4 <= ramSize
    ensures BitAt(Load(MemoryAfter(history, ramSize), wordAddr, 4), b) <==> SetLast(history, wordAddr, b)
    decreases |history|
  {
    hide BitAt, Load, Store, SetLast, Covers, Carries;
    if history == [] {
      BlankWord(ramSize, wordAddr);
      ZeroHasNoBits(b);
      NothingSet(wordAddr, b);
    } else {
      var init, w := history[..|history| - 1], history[|history| - 1];
      assert history == init + [w];
      MemoryBits(init, ramSize, wordAddr, b);
      StoredBit(MemoryAfter(init, ramSize), w, wordAddr, b);
      SetLastSnoc(init, w, wordAddr, b);
    }
  }

  lemma NothingSet(wordAddr: nat, b: nat)
    requires b < 32
    ensures !SetLast([], wordAddr, b)
  {
  }
}
