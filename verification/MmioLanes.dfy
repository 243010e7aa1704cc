/** Byte lanes of the register hub agree with big-endian memory. */
module MmioLanes {
  import opened Prelude
  import opened Memory
  import opened Devices
  import opened DeviceHistory

  // ----- a word and its four bytes -----

  /** The big-endian word of four bytes. */
  function Packed(b0: Byte, b1: Byte, b2: Byte, b3: Byte): Word {
    ((b0 as Word) << 24) | ((b1 as Word) << 16) | ((b2 as Word) << 8) | (b3 as Word)
  }

  lemma PackedLoad(m: seq<Byte>, base: nat)
    requires base + 4 <= |m|
    ensures Load(m, base, 4) == Packed(m[base], m[base + 1], m[base + 2], m[base + 3])
  {
    GatherStep(m, base, 4, 1, m[base]);
    GatherStep(m, base, 4, 2, m[base + 1]);
    GatherStep(m, base, 4, 3, m[base + 2]);
    GatherStep(m, base, 4, 4, m[base + 3]);
    LaneShifts(m[base]);
    LaneShifts(m[base + 1]);
    LaneShifts(m[base + 2]);
    LaneShifts(m[base + 3]);
  }

  lemma PackedHalf(m: seq<Byte>, phys: nat)
    requires phys + 2 <= |m|
    ensures Load(m, phys, 2) == PackedTwo(m[phys], m[phys + 1])
  {
    GatherStep(m, phys, 2, 1, m[phys]);
    GatherStep(m, phys, 2, 2, m[phys + 1]);
    LaneShifts(m[phys]);
    LaneShifts(m[phys + 1]);
  }

  lemma PackedByte(m: seq<Byte>, phys: nat)
    requires phys + 1 <= |m|
    ensures Load(m, phys, 1) == Widened(m[phys])
  {
    GatherStep(m, phys, 1, 1, m[phys]);
    LaneShifts(m[phys]);
  }

  function Down8(v: Word): Word {
    v >> 8
  }

  function Down16(v: Word): Word {
    v >> 16
  }

  function Down24(v: Word): Word {
    v >> 24
  }

  function Up8(v: Word): Word {
    v << 8
  }

  function Up16(v: Word): Word {
    v << 16
  }

  function Up24(v: Word): Word {
    v << 24
  }

  lemma DownStep(v: Word, lanes: nat)
    requires lanes > 0
    ensures ShiftDown(v, lanes) == Down8(ShiftDown(v, lanes - 1))
  {
  }

  lemma UpStep(v: Word, lanes: nat)
    requires lanes > 0
    ensures ShiftUp(v, lanes) == Up8(ShiftUp(v, lanes - 1))
  {
  }

  lemma NoShift(v: Word)
    ensures ShiftDown(v, 0) == v && ShiftUp(v, 0) == v
  {
  }

  lemma ShiftsAdd(v: Word)
    ensures Down8(Down8(v)) == Down16(v) && Down8(Down16(v)) == Down24(v)
    ensures Up8(Up8(v)) == Up16(v) && Up8(Up16(v)) == Up24(v)
  {
  }

  lemma ShiftsDown(v: Word)
    ensures ShiftDown(v, 0) == v && ShiftDown(v, 1) == Down8(v) && ShiftDown(v, 2) == Down16(v) && ShiftDown(v, 3) == Down24(v)
  {
    hide *;
    NoShift(v);
    DownStep(v, 1);
    DownStep(v, 2);
    DownStep(v, 3);
    ShiftsAdd(v);
  }

  lemma ShiftsUp(v: Word)
    ensures ShiftUp(v, 0) == v && ShiftUp(v, 1) == Up8(v) && ShiftUp(v, 2) == Up16(v) && ShiftUp(v, 3) == Up24(v)
  {
    hide *;
    NoShift(v);
    UpStep(v, 1);
    UpStep(v, 2);
    UpStep(v, 3);
    ShiftsAdd(v);
  }

  function Masked(v: Word, mask: Word): Word {
    v & mask
  }

  function PackedTwo(hi: Byte, lo: Byte): Word {
    ((hi as Word) << 8) | (lo as Word)
  }

  function Widened(b: Byte): Word {
    b as Word
  }

  lemma ExtractByte(b0: Byte, b1: Byte, b2: Byte, b3: Byte)
    ensures var v := Packed(b0, b1, b2, b3);
            && Masked(Down24(v), 0xFF) == Widened(b0) && Masked(Down16(v), 0xFF) == Widened(b1)
            && Masked(Down8(v), 0xFF) == Widened(b2) && Masked(v, 0xFF) == Widened(b3)
  {
  }

  lemma ExtractHalf(b0: Byte, b1: Byte, b2: Byte, b3: Byte)
    ensures var v := Packed(b0, b1, b2, b3);
            && Masked(Down16(v), 0xFFFF) == PackedTwo(b0, b1)
            && Masked(v, 0xFFFF) == PackedTwo(b2, b3)
            && Masked(v, 0xFFFF_FFFF) == v
  {
  }

  lemma NamedMasks(addr: nat, size: nat, v: Word)
    ensures Extract(v, addr, size) == Masked(ShiftDown(v, LaneIndex(addr, size)), SizeMask(size))
    ensures WriteBits(addr, size, v) == Masked(ShiftUp(v, LaneIndex(addr, size)), LaneMask(addr, size))
  {
    hide ShiftUp, ShiftDown, SizeMask, LaneIndex, LaneMask;
  }

  // ----- one access -----

  /** The lane of each aligned access. */
  lemma Lanes(addr: nat, size: nat)
    requires Aligned(addr, size)
    ensures var base := WordAddr(addr);
            && base % 4 == 0
            && (size == 1 ==> (addr == base && LaneIndex(addr, 1) == 3) || (addr == base + 1 && LaneIndex(addr, 1) == 2)
                              || (addr == base + 2 && LaneIndex(addr, 1) == 1) || (addr == base + 3 && LaneIndex(addr, 1) == 0))
            && (size == 2 ==> (addr == base && LaneIndex(addr, 2) == 2) || (addr == base + 2 && LaneIndex(addr, 2) == 0))
            && (size == 4 ==> addr == base && LaneIndex(addr, 4) == 0)
    ensures SizeMask(1) == 0xFF && SizeMask(2) == 0xFFFF && SizeMask(4) == 0xFFFF_FFFF
  {
  }

  /** An aligned access reads from memory what its lanes of the surrounding word hold. */
  lemma LaneRead(m: seq<Byte>, addr: nat, size: nat)
    requires Aligned(addr, size) && WordAddr(addr) + 4 <= |m|
    ensures Load(m, addr, size) == Extract(Load(m, WordAddr(addr), 4), addr, size)
  {
    hide Load, Packed, PackedTwo, Widened, Masked, Down8, Down16, Down24, Extract, ShiftDown, WordAddr, LaneIndex, SizeMask;
    var base := WordAddr(addr);
    var b0, b1, b2, b3 := m[base], m[base + 1], m[base + 2], m[base + 3];
    var p := Packed(b0, b1, b2, b3);
    Lanes(addr, size);
    PackedLoad(m, base);
    NamedMasks(addr, size, p);
    ShiftsDown(p);
    ExtractByte(b0, b1, b2, b3);
    ExtractHalf(b0, b1, b2, b3);
    if size == 1 {
      PackedByte(m, addr);
    } else if size == 2 {
      PackedHalf(m, addr);
    }
  }

  lemma MergeByte0(b0: Byte, b1: Byte, b2: Byte, b3: Byte, v: Word)
    ensures Packed(ByteOf(v, 0), b1, b2, b3) == Merged(Packed(b0, b1, b2, b3), Masked(Up24(v), Up24(0xFF)), Up24(0xFF))
  {
  }

  lemma MergeByte1(b0: Byte, b1: Byte, b2: Byte, b3: Byte, v: Word)
    ensures Packed(b0, ByteOf(v, 0), b2, b3) == Merged(Packed(b0, b1, b2, b3), Masked(Up16(v), Up16(0xFF)), Up16(0xFF))
  {
  }

  lemma MergeByte2(b0: Byte, b1: Byte, b2: Byte, b3: Byte, v: Word)
    ensures Packed(b0, b1, ByteOf(v, 0), b3) == Merged(Packed(b0, b1, b2, b3), Masked(Up8(v), Up8(0xFF)), Up8(0xFF))
  {
  }

  lemma MergeByte3(b0: Byte, b1: Byte, b2: Byte, b3: Byte, v: Word)
    ensures Packed(b0, b1, b2, ByteOf(v, 0)) == Merged(Packed(b0, b1, b2, b3), Masked(v, 0xFF), 0xFF)
  {
  }

  lemma MergeHalf0(b0: Byte, b1: Byte, b2: Byte, b3: Byte, v: Word)
    ensures Packed(ByteOf(v, 1), ByteOf(v, 0), b2, b3) == Merged(Packed(b0, b1, b2, b3), Masked(Up16(v), Up16(0xFFFF)), Up16(0xFFFF))
  {
    ByteShifts(v);
  }

  lemma MergeHalf2(b0: Byte, b1: Byte, b2: Byte, b3: Byte, v: Word)
    ensures Packed(b0, b1, ByteOf(v, 1), ByteOf(v, 0)) == Merged(Packed(b0, b1, b2, b3), Masked(v, 0xFFFF), 0xFFFF)
  {
    ByteShifts(v);
  }

  lemma MergeWord(p: Word, v: Word)
    ensures Packed(ByteOf(v, 3), ByteOf(v, 2), ByteOf(v, 1), ByteOf(v, 0)) == Merged(p, Masked(v, 0xFFFF_FFFF), 0xFFFF_FFFF)
  {
    ByteShifts(v);
  }

  lemma StoredBytes(m: seq<Byte>, addr: nat, size: nat, value: Word, a: nat)
    requires size <= 4 && addr + size <= |m| && a < |m|
    ensures Store(m, addr, size, value)[a] == if addr <= a < addr + size then ByteOf(value, addr + size - 1 - a) else m[a]
  {
    hide ByteOf;
  }

  /** An aligned write changes exactly its lanes of the surrounding word. */
  lemma LaneWrite(m: seq<Byte>, addr: nat, size: nat, value: Word)
    requires Aligned(addr, size) && WordAddr(addr) + 4 <= |m|
    ensures Load(Store(m, addr, size, value), WordAddr(addr), 4)
         == Merged(Load(m, WordAddr(addr), 4), WriteBits(addr, size, value), LaneMask(addr, size))
  {
    hide Load, Store, Packed, Merged, Masked, Up8, Up16, Up24, ByteOf, ShiftUp, WriteBits, WordAddr, LaneIndex, SizeMask;
    var base, r := WordAddr(addr), Store(m, addr, size, value);
    var b0, b1, b2, b3 := m[base], m[base + 1], m[base + 2], m[base + 3];
    Lanes(addr, size);
    PackedLoad(m, base);
    PackedLoad(r, base);
    StoredBytes(m, addr, size, value, base);
    StoredBytes(m, addr, size, value, base + 1);
    StoredBytes(m, addr, size, value, base + 2);
    StoredBytes(m, addr, size, value, base + 3);
    NamedMasks(addr, size, value);
    ShiftsUp(value);
    ShiftsUp(SizeMask(size));
    MergeByte0(b0, b1, b2, b3, value);
    MergeByte1(b0, b1, b2, b3, value);
    MergeByte2(b0, b1, b2, b3, value);
    MergeByte3(b0, b1, b2, b3, value);
    MergeHalf0(b0, b1, b2, b3, value);
    MergeHalf2(b0, b1, b2, b3, value);
    MergeWord(Packed(b0, b1, b2, b3), value);
  }

  // ----- any history of aligned writes -----

  ghost predicate AlignedHistory(history: seq<Write>) {
    forall k :: 0 <= k < |history| ==> Aligned(history[k].addr, history[k].size)
  }

  /** The same writes made to plain memory that starts at zero. */
  ghost function MemoryAfter(history: seq<Write>, ramSize: nat): (m: seq<Byte>)
    requires AlignedHistory(history)
    ensures |m| == ramSize
  {
    if history == [] then seq(ramSize, _ => 0)
    else
      var w := history[|history| - 1];
      Store(MemoryAfter(history[..|history| - 1], ramSize), w.addr, w.size, w.value)
  }

  /** Words the hub keeps in its register map and answers from there. */
  predicate Ordinary(wordAddr: nat) {
    wordAddr % 4 == 0 && !ReadsLatch(wordAddr) && !WritesLatch(wordAddr)
  }

  lemma MaskOverOr(x: Word, y: Word, w: Word)
    ensures Masked(Union(x, y), w) == Union(Masked(x, w), Masked(y, w))
  {
  }

  lemma MaskOverMinus(x: Word, k: Word, w: Word)
    ensures Masked(Minus(x, k), w) == Minus(Masked(x, w), Masked(k, w))
  {
  }

  lemma MaskTwice(x: Word, k: Word, w: Word)
    ensures Masked(Masked(x, k), w) == Masked(x, Masked(k, w))
    ensures Masked(w, w) == w
  {
  }

  lemma NamedMerge(previous: Word, bits: Word, mask: Word)
    ensures Merged(previous, bits, mask) == Union(Minus(previous, mask), Masked(bits, mask))
  {
  }

  lemma MaskedMerge(loaded: Word, bits: Word, lane: Word, writable: Word)
    ensures Masked(Merged(loaded, bits, lane), writable) == Merged(Masked(loaded, writable), bits, Masked(lane, writable))
  {
    hide *;
    NamedMerge(loaded, bits, lane);
    NamedMerge(Masked(loaded, writable), bits, Masked(lane, writable));
    MaskOverOr(Minus(loaded, lane), Masked(bits, lane), writable);
    MaskOverMinus(loaded, lane, writable);
    MaskTwice(bits, lane, writable);
  }

  lemma MaskedNarrowMerge(persisted: Word, bits: Word, lane: Word, writable: Word)
    ensures Masked(Merged(persisted, bits, Masked(lane, writable)), writable)
         == Merged(Masked(persisted, writable), bits, Masked(lane, writable))
  {
    hide *;
    MaskedMerge(persisted, bits, Masked(lane, writable), writable);
    MaskTwice(lane, writable, writable);
  }

  lemma EmptyMerge(v: Word, bits: Word)
    ensures Merged(v, bits, 0) == v
  {
  }

  lemma RegisterBits(persisted: Word, loaded: Word, bits: Word, lane: Word, writable: Word)
    requires Masked(persisted, writable) == Masked(loaded, writable)
    ensures Masked(lane, writable) == 0 ==> Masked(persisted, writable) == Masked(Merged(loaded, bits, lane), writable)
    ensures Masked(Merged(persisted, bits, Masked(lane, writable)), writable) == Masked(Merged(loaded, bits, lane), writable)
  {
    hide Masked, Merged;
    MaskedMerge(loaded, bits, lane, writable);
    MaskedNarrowMerge(persisted, bits, lane, writable);
    EmptyMerge(Masked(loaded, writable), bits);
  }

  lemma NamedRegister(regs: map<nat, Word>, wordAddr: nat, laneMask: Word, bits: Word)
    ensures WriteRegister(regs, wordAddr, laneMask, bits) ==
      if Masked(laneMask, WritableMask(wordAddr)) == 0 then regs
      else regs[wordAddr := Merged(Persisted(regs, wordAddr), bits, Masked(laneMask, WritableMask(wordAddr)))]
  {
    hide Merged, WritableMask;
  }

  /** Writing one word of the hub and the same bytes of memory keeps the writable bits equal. */
  lemma SameWordWritten(regs: map<nat, Word>, m: seq<Byte>, w: Write, wordAddr: nat)
    requires Aligned(w.addr, w.size) && WordAddr(w.addr) == wordAddr && wordAddr + 4 <= |m|
    requires Masked(Persisted(regs, wordAddr), WritableMask(wordAddr)) == Masked(Load(m, wordAddr, 4), WritableMask(wordAddr))
    ensures var regs1 := WriteRegister(regs, wordAddr, LaneMask(w.addr, w.size), WriteBits(w.addr, w.size, w.value));
            Masked(Persisted(regs1, wordAddr), WritableMask(wordAddr))
            == Masked(Load(Store(m, w.addr, w.size, w.value), wordAddr, 4), WritableMask(wordAddr))
  {
    hide Masked, Merged, WritableMask, Load, Store, LaneMask, WriteBits, WriteRegister, WordAddr;
    var lane, bits := LaneMask(w.addr, w.size), WriteBits(w.addr, w.size, w.value);
    NamedRegister(regs, wordAddr, lane, bits);
    LaneWrite(m, w.addr, w.size, w.value);
    RegisterBits(Persisted(regs, wordAddr), Load(m, wordAddr, 4), bits, lane, WritableMask(wordAddr));
  }

  lemma WordsDisjoint(addr: nat, size: nat, wordAddr: nat)
    requires Aligned(addr, size) && WordAddr(addr) != wordAddr && wordAddr % 4 == 0
    ensures wordAddr + 4 <= addr || addr + size <= wordAddr
  {
  }

  lemma OtherWordKept(m: seq<Byte>, w: Write, wordAddr: nat)
    requires Aligned(w.addr, w.size) && WordAddr(w.addr) != wordAddr && wordAddr % 4 == 0
    ensures Load(Store(m, w.addr, w.size, w.value), wordAddr, 4) == Load(m, wordAddr, 4)
  {
    WordsDisjoint(w.addr, w.size, wordAddr);
    hide *;
    assert w.size in {1, 2, 4} by { SizesOfAligned(w.addr, w.size); }
    LoadStored(m, w.addr, w.size, w.value, wordAddr, 4);
  }

  lemma SizesOfAligned(addr: nat, size: nat)
    requires Aligned(addr, size)
    ensures size in {1, 2, 4}
  {
  }

  lemma OtherRegisterKept(regs: map<nat, Word>, at: nat, lane: Word, bits: Word, wordAddr: nat)
    requires at != wordAddr
    ensures Persisted(WriteRegister(regs, at, lane, bits), wordAddr) == Persisted(regs, wordAddr)
  {
    hide Merged, WritableMask;
  }

  lemma RegistersAfter(history: seq<Write>)
    requires history != []
    ensures var w, before := history[|history| - 1], After(history[..|history| - 1]);
            After(history).regs == if WritesLatch(WordAddr(w.addr)) then before.regs
              else WriteRegister(before.regs, WordAddr(w.addr), LaneMask(w.addr, w.size), WriteBits(w.addr, w.size, w.value))
  {
    hide WriteRegister, WordAddr, LaneMask, WriteBits, NextScu, NextVdp1;
  }

  lemma BlankWord(ramSize: nat, wordAddr: nat)
    requires wordAddr + 4 <= ramSize
    ensures Load(seq(ramSize, _ => 0), wordAddr, 4) == 0
  {
    var m: seq<Byte> := seq(ramSize, _ => 0);
    PackedLoad(m, wordAddr);
  }

  /** The hub's register and the memory word agree on every writable bit after any aligned history. */
  lemma {:induction false} RegistersAreMemory(history: seq<Write>, ramSize: nat, wordAddr: nat)
    requires AlignedHistory(history) && Ordinary(wordAddr) && wordAddr + 4 <= ramSize
    ensures Masked(Persisted(After(history).regs, wordAddr), WritableMask(wordAddr))
         == Masked(Load(MemoryAfter(history, ramSize), wordAddr, 4), WritableMask(wordAddr))
    decreases |history|
  {
    hide Masked, WritableMask, Load, Store, LaneMask, WriteBits, WriteRegister, WordAddr, After, WritesLatch, ReadsLatch;
    if history == [] {
      BlankWord(ramSize, wordAddr);
      NothingWritten();
    } else {
      var init, w := history[..|history| - 1], history[|history| - 1];
      RegistersAreMemory(init, ramSize, wordAddr);
      RegistersAfter(history);
      var regs, m := After(init).regs, MemoryAfter(init, ramSize);
      if WordAddr(w.addr) == wordAddr {
        SameWordWritten(regs, m, w, wordAddr);
      } else {
        OtherWordKept(m, w, wordAddr);
        OtherRegisterKept(regs, WordAddr(w.addr), LaneMask(w.addr, w.size), WriteBits(w.addr, w.size, w.value), wordAddr);
      }
    }
  }

  lemma NamedJoin(reset: Word, writable: Word, v: Word)
    ensures Joined(reset, writable, v) == Union(Minus(reset, writable), Masked(v, writable))
  {
  }

  lemma JoinedWritable(reset: Word, writable: Word, v: Word)
    ensures Masked(Joined(reset, writable, v), writable) == Masked(v, writable)
  {
  }

  lemma JoinedFixed(reset: Word, writable: Word, v: Word)
    ensures Minus(Joined(reset, writable, v), writable) == Minus(reset, writable)
  {
  }

  lemma MaterializedBits(wordAddr: nat, persisted: Word, loaded: Word)
    requires Masked(persisted, WritableMask(wordAddr)) == Masked(loaded, WritableMask(wordAddr))
    ensures Materialized(wordAddr, persisted) == Materialized(wordAddr, loaded)
    ensures Masked(Materialized(wordAddr, loaded), WritableMask(wordAddr)) == Masked(loaded, WritableMask(wordAddr))
    ensures Minus(Materialized(wordAddr, loaded), WritableMask(wordAddr)) == Minus(ResetValue(wordAddr), WritableMask(wordAddr))
  {
    hide Masked, Minus, Union, Joined, WritableMask, ResetValue;
    NamedJoin(ResetValue(wordAddr), WritableMask(wordAddr), persisted);
    NamedJoin(ResetValue(wordAddr), WritableMask(wordAddr), loaded);
    JoinedWritable(ResetValue(wordAddr), WritableMask(wordAddr), loaded);
    JoinedFixed(ResetValue(wordAddr), WritableMask(wordAddr), loaded);
  }

  // ----- taking lanes commutes with masks -----

  lemma DownOverMask(v: Word, w: Word)
    ensures Down8(Masked(v, w)) == Masked(Down8(v), Down8(w))
  {
  }

  lemma DownOverMinus(v: Word, w: Word)
    ensures Down8(Minus(v, w)) == Minus(Down8(v), Down8(w))
  {
  }

  lemma {:induction false} ShiftOverMask(v: Word, w: Word, lanes: nat)
    ensures ShiftDown(Masked(v, w), lanes) == Masked(ShiftDown(v, lanes), ShiftDown(w, lanes))
    ensures ShiftDown(Minus(v, w), lanes) == Minus(ShiftDown(v, lanes), ShiftDown(w, lanes))
  {
    hide *;
    if lanes == 0 {
      NoShift(v);
      NoShift(w);
      NoShift(Masked(v, w));
      NoShift(Minus(v, w));
    } else {
      ShiftOverMask(v, w, lanes - 1);
      DownStep(v, lanes);
      DownStep(w, lanes);
      DownStep(Masked(v, w), lanes);
      DownStep(Minus(v, w), lanes);
      DownOverMask(ShiftDown(v, lanes - 1), ShiftDown(w, lanes - 1));
      DownOverMinus(ShiftDown(v, lanes - 1), ShiftDown(w, lanes - 1));
    }
  }

  lemma MaskBoth(x: Word, k: Word, s: Word)
    ensures Masked(Masked(x, k), s) == Masked(Masked(x, s), Masked(k, s))
  {
  }

  lemma ExtractOverMask(v: Word, w: Word, addr: nat, size: nat)
    ensures Extract(Masked(v, w), addr, size) == Masked(Extract(v, addr, size), Extract(w, addr, size))
    ensures Extract(Minus(v, w), addr, size) == Minus(Extract(v, addr, size), Extract(w, addr, size))
  {
    hide *;
    var k, s := LaneIndex(addr, size), SizeMask(size);
    NamedMasks(addr, size, v);
    NamedMasks(addr, size, w);
    NamedMasks(addr, size, Masked(v, w));
    NamedMasks(addr, size, Minus(v, w));
    ShiftOverMask(v, w, k);
    MaskBoth(ShiftDown(v, k), ShiftDown(w, k), s);
    MaskOverMinus(ShiftDown(v, k), ShiftDown(w, k), s);
  }

  lemma ReadIsExtract(d: Dev, addr: nat, size: nat)
    requires Ordinary(WordAddr(addr))
    ensures ReadDevice(d, addr, size) == Extract(Materialized(WordAddr(addr), Persisted(d.regs, WordAddr(addr))), addr, size)
  {
    hide Extract, Materialized;
  }

  /** After any aligned writes, an aligned read of one, two or four bytes of an ordinary register gives what memory would
      on its writable bits, and its reset value on the others. */
  lemma OrdinaryRegisterRefinesMemory(history: seq<Write>, ramSize: nat, addr: nat, size: nat)
    requires AlignedHistory(history) && Aligned(addr, size) && Ordinary(WordAddr(addr)) && WordAddr(addr) + 4 <= ramSize
    ensures var value, writable := ReadDevice(After(history), addr, size), Extract(WritableMask(WordAddr(addr)), addr, size);
            && Masked(value, writable) == Masked(Load(MemoryAfter(history, ramSize), addr, size), writable)
            && Minus(value, writable) == Minus(Extract(ResetValue(WordAddr(addr)), addr, size), writable)
  {
    hide *;
    var wordAddr, m := WordAddr(addr), MemoryAfter(history, ramSize);
    var persisted, loaded, writable := Persisted(After(history).regs, wordAddr), Load(m, wordAddr, 4), WritableMask(wordAddr);
    RegistersAreMemory(history, ramSize, wordAddr);
    MaterializedBits(wordAddr, persisted, loaded);
    ReadIsExtract(After(history), addr, size);
    LaneRead(m, addr, size);
    var word := Materialized(wordAddr, loaded);
    ExtractOverMask(word, writable, addr, size);
    ExtractOverMask(loaded, writable, addr, size);
    ExtractOverMask(ResetValue(wordAddr), writable, addr, size);
  }

  lemma PlainWord(wordAddr: nat, v: Word)
    requires !HasSpec(wordAddr)
    ensures Materialized(wordAddr, v) == v && !ReadsLatch(wordAddr) && !WritesLatch(wordAddr)
  {
  }

  /** Registers the table says nothing about are big-endian memory: after any sequence of aligned writes of one, two or
      four bytes, every aligned read of any size gives what plain memory gives. */
  lemma PlainRegistersAreMemory(history: seq<Write>, ramSize: nat, addr: nat, size: nat)
    requires AlignedHistory(history) && Aligned(addr, size)
    requires !HasSpec(WordAddr(addr)) && WordAddr(addr) + 4 <= ramSize
    ensures ReadDevice(After(history), addr, size) == Load(MemoryAfter(history, ramSize), addr, size)
  {
    hide Masked, Minus, Materialized, WritableMask, Load, After, ReadsLatch, WritesLatch, ReadDevice, HasSpec, Extract;
    var wordAddr, m := WordAddr(addr), MemoryAfter(history, ramSize);
    var loaded := Load(m, wordAddr, 4);
    PlainWord(wordAddr, loaded);
    RegistersAreMemory(history, ramSize, wordAddr);
    MaterializedBits(wordAddr, Persisted(After(history).regs, wordAddr), loaded);
    ReadIsExtract(After(history), addr, size);
    LaneRead(m, addr, size);
  }
}
