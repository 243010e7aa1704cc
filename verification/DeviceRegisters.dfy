/** What every register of the hub reads, bit by bit, told from the writes by address, byte and bit alone. */
module DeviceRegisters {
  import opened Prelude
  import opened Memory
  import opened Devices
  import opened DeviceHistory
  import opened MmioLanes
  import opened WordBits

  // ----- registers that keep what is written -----

  /** Words that act on interrupts, SMPC or VDP1, or show their state. */
  predicate Special(wordAddr: nat) {
    || wordAddr == 0x05FE_00A4 || wordAddr == 0x05FE_00A8 || wordAddr == 0x05FE_00AC || wordAddr == 0x05FE_00B0
    || 0x05D0_0084 <= wordAddr <= 0x05D0_00A0
  }

  /** Which bits of any other word keep what is written to them. */
  predicate Keeps(wordAddr: nat, b: nat) {
    if wordAddr == 0x05F0_0010 || wordAddr == 0x05D0_0080 || wordAddr == 0x05F8_0004 then false
    else if wordAddr == 0x05FE_00A0 || wordAddr == 0x05F8_0000 then b < 16
    else if wordAddr == 0x05FE_0028 then b < 20
    else if wordAddr == 0x05FE_002C then b in {0, 1, 2, 4}
    else if wordAddr == 0x05C0_0000 then b < 11
    else b < 32
  }

  /** Which of the other bits read 1 from reset. */
  predicate ResetsHigh(wordAddr: nat, b: nat) {
    if wordAddr == 0x05F0_0010 || wordAddr == 0x05D0_0080 then b == 0
    else if wordAddr == 0x05F8_0004 then b == 3
    else false
  }

  lemma SmallHalves()
    ensures Half(0x17) == 0xB && Half(0xB) == 0x5 && Half(0x5) == 0x2 && Half(0x2) == 0x1 && Half(0x1) == 0 && Half(0x8) == 0x4 && Half(0x4) == 0x2
    ensures Odd(0x17) && Odd(0xB) && Odd(0x5) && !Odd(0x2) && Odd(0x1) && !Odd(0x8) && !Odd(0x4)
  {
  }

  lemma BitAbove(w: Word, b: nat)
    ensures b > 0 ==> BitAt(w, b) == BitAt(Half(w), b - 1)
    ensures b == 0 ==> BitAt(w, b) == Odd(w)
  {
  }

  lemma BitOfOne(b: nat)
    ensures BitAt(0x1, b) <==> b == 0
  {
    hide Half, Odd, BitAt;
    SmallHalves();
    BitAbove(0x1, b);
    if b > 0 {
      ZeroHasNoBits(b - 1);
    }
  }

  lemma BitOfTwo(b: nat)
    ensures BitAt(0x2, b) <==> b == 1
  {
    hide Half, Odd, BitAt;
    SmallHalves();
    BitAbove(0x2, b);
    if b > 0 {
      BitOfOne(b - 1);
    }
  }

  lemma BitOfEight(b: nat)
    ensures BitAt(0x8, b) <==> b == 3
  {
    hide Half, Odd, BitAt;
    SmallHalves();
    BitAbove(0x8, b);
    if b > 0 {
      BitAbove(0x4, b - 1);
      if b > 1 {
        BitOfTwo(b - 2);
      }
    }
  }

  lemma BitOfDmaControl(b: nat)
    ensures BitAt(0x17, b) <==> b in {0, 1, 2, 4}
  {
    hide Half, Odd, BitAt;
    SmallHalves();
    BitAbove(0x17, b);
    if b > 0 {
      BitAbove(0xB, b - 1);
      if b > 1 {
        BitAbove(0x5, b - 2);
        if b > 2 {
          BitOfTwo(b - 3);
        }
      }
    }
  }

  /** The table agrees with those bits. */
  lemma MaskBits(wordAddr: nat, b: nat)
    requires !Special(wordAddr) && b < 32
    ensures BitAt(WritableMask(wordAddr), b) <==> Keeps(wordAddr, b)
    ensures BitAt(ResetValue(wordAddr), b) <==> ResetsHigh(wordAddr, b)
  {
    hide BitAt, LowOnes;
    LowOnesIs();
    BitOfLowOnes(11, b);
    BitOfLowOnes(16, b);
    BitOfLowOnes(20, b);
    BitOfLowOnes(32, b);
    ZeroHasNoBits(b);
    BitOfOne(b);
    BitOfEight(b);
    BitOfDmaControl(b);
  }

  lemma NotSpecialIsOrdinary(wordAddr: nat)
    requires !Special(wordAddr) && wordAddr % 4 == 0
    ensures Ordinary(wordAddr)
  {
  }

  /** A register that keeps what is written reads 1 in a bit exactly when the bit is kept and the last write that reached it
      had it set, or it is not kept and resets high. */
  lemma RegisterReads(history: seq<Write>, wordAddr: nat, b: nat)
    requires AlignedHistory(history) && wordAddr % 4 == 0 && !Special(wordAddr) && b < 32
    ensures BitAt(ReadDevice(After(history), wordAddr, 4), b) <==>
      if Keeps(wordAddr, b) then SetLast(history, wordAddr, b) else ResetsHigh(wordAddr, b)
  {
    hide *;
    NotSpecialIsOrdinary(wordAddr);
    var value, mask, m := ReadDevice(After(history), wordAddr, 4), WritableMask(wordAddr), MemoryAfter(history, wordAddr + 4);
    WholeRead(history, wordAddr);
    MaskBits(wordAddr, b);
    MemoryBits(history, wordAddr + 4, wordAddr, b);
    BitOfMasked(value, mask, b);
    BitOfMasked(Load(m, wordAddr, 4), mask, b);
    BitOfMinus(value, mask, b);
    BitOfMinus(ResetValue(wordAddr), mask, b);
  }

  lemma WholeRead(history: seq<Write>, wordAddr: nat)
    requires AlignedHistory(history) && Ordinary(wordAddr)
    ensures var value, mask := ReadDevice(After(history), wordAddr, 4), WritableMask(wordAddr);
            && Masked(value, mask) == Masked(Load(MemoryAfter(history, wordAddr + 4), wordAddr, 4), mask)
            && Minus(value, mask) == Minus(ResetValue(wordAddr), mask)
  {
    hide Masked, Minus, Materialized, WritableMask, ResetValue, Load, After, ReadDevice;
    RegistersAreMemory(history, wordAddr + 4, wordAddr);
    WholeWordRead(After(history), wordAddr);
    MaterializedBits(wordAddr, Persisted(After(history).regs, wordAddr), Load(MemoryAfter(history, wordAddr + 4), wordAddr, 4));
  }

  /** A read of one or two bytes gives the bytes of the word there. */
  lemma NarrowReads(d: Dev, m: seq<Byte>, addr: nat, size: nat)
    requires Aligned(addr, size) && addr - addr % 4 + 4 <= |m| && Load(m, addr - addr % 4, 4) == ReadDevice(d, addr - addr % 4, 4)
    ensures ReadDevice(d, addr, size) == Load(m, addr, size)
  {
    hide Load, WordValue, Extract, LaneIndex;
    WordIsAligned(addr);
    WholeWordRead(d, addr - addr % 4);
    LaneRead(m, addr, size);
  }

  // ----- what a write says, by address, byte and bit -----

  function WordOf(w: Write): nat {
    w.addr - w.addr % 4
  }

  /** The least significant byte of the word a write reaches, if it reaches that byte. */
  function Command(w: Write): Word {
    if w.addr + w.size == WordOf(w) + 4 then w.value & 0xFF else 0
  }

  lemma LowByteCarried(w: Write)
    requires Aligned(w.addr, w.size)
    ensures LowByte(w.Bits()) == Command(w)
  {
    hide ShiftUp, SizeMask, LaneMask, WriteBits, LaneIndex, Masked, LowByte, Up8, Up16, Up24;
    NamedBits(w);
    LaneOf(w);
    SizeMasks();
    ShiftsUp(w.value);
    ShiftsUp(SizeMask(w.size));
    LowOfLane(w.value, SizeMask(w.size));
  }

  lemma SizeMasks()
    ensures SizeMask(1) == 0xFF && SizeMask(2) == 0xFFFF && SizeMask(4) == 0xFFFF_FFFF
  {
  }

  lemma NamedBits(w: Write)
    ensures w.Bits() == Masked(ShiftUp(w.value, LaneIndex(w.addr, w.size)), ShiftUp(SizeMask(w.size), LaneIndex(w.addr, w.size)))
  {
    hide ShiftUp, SizeMask, LaneIndex, Masked, WriteBits, Extract;
    NamedMasks(w.addr, w.size, w.value);
  }

  lemma LaneOf(w: Write)
    requires Aligned(w.addr, w.size)
    ensures LaneIndex(w.addr, w.size) == WordOf(w) + 4 - w.addr - w.size && w.size in {1, 2, 4}
  {
  }

  lemma LowOfLane(v: Word, mask: Word)
    requires mask == 0xFF || mask == 0xFFFF || mask == 0xFFFF_FFFF
    ensures LowByte(Masked(v, mask)) == v & 0xFF
    ensures LowByte(Masked(Up8(v), Up8(mask))) == 0 && LowByte(Masked(Up16(v), Up16(mask))) == 0 && LowByte(Masked(Up24(v), Up24(mask))) == 0
  {
  }

  lemma OddIsBitZero(bits: Word)
    ensures Flagged(bits) <==> BitAt(bits, 0)
  {
  }

  lemma LowHalfBit(bits: Word, b: nat)
    ensures BitAt(Low16(bits), b) <==> b < 16 && BitAt(bits, b)
  {
    hide BitAt, LowOnes;
    LowOnesIs();
    if b < 32 {
      BitOfLowOnes(16, b);
    } else {
      BitOfLowOnes(16, b);
    }
    assert Low16(bits) == Masked(bits, 0xFFFF);
    BitOfMasked(bits, 0xFFFF, b);
  }

  // ----- VDP1 commands -----

  /** The write puts a 1 into bit 0 of its word. */
  predicate Fires(w: Write) {
    Carries(w, WordOf(w), 0)
  }

  predicate Starts(w: Write) {
    WordOf(w) == 0x05D0_0098
  }

  /** A fired event trigger or completion. */
  predicate Ends(w: Write) {
    (WordOf(w) == 0x05D0_0090 || WordOf(w) == 0x05D0_00A0) && Fires(w)
  }

  predicate BusySince(history: seq<Write>, k: nat) {
    && k < |history| && Starts(history[k]) && Command(history[k]) != 0
    && forall j :: k < j < |history| ==> !Starts(history[j]) && !Ends(history[j])
  }

  /** The last command written is nonzero, and nothing has ended it. */
  ghost predicate Busy(history: seq<Write>) {
    exists k: nat :: BusySince(history, k)
  }

  /** A completion: the trigger ends whatever there is, the completion register only a running command. */
  ghost predicate CompletesAt(history: seq<Write>, k: nat)
    requires k < |history|
  {
    Fires(history[k]) && (WordOf(history[k]) == 0x05D0_0090 || (WordOf(history[k]) == 0x05D0_00A0 && Busy(history[..k])))
  }

  lemma SameEvents(w: Write)
    requires Aligned(w.addr, w.size)
    ensures w.Word() == WordOf(w) && (Flagged(w.Bits()) <==> Fires(w)) && LowByte(w.Bits()) == Command(w)
    ensures CommandWrite(w) == Starts(w) && CompletionWrite(w) == Ends(w) && (NamesCommand(w.Bits()) <==> Command(w) != 0)
  {
    hide WriteBits, BitAt, LowByte, Flagged;
    BitsCarried(w, 0);
    OddIsBitZero(w.Bits());
    LowByteCarried(w);
  }

  lemma SameBusy(history: seq<Write>)
    requires AlignedHistory(history)
    ensures CommandRuns(history) <==> Busy(history)
  {
    hide CommandWrite, CompletionWrite, NamesCommand, Starts, Ends, Command;
    forall j | 0 <= j < |history|
      ensures CommandWrite(history[j]) == Starts(history[j]) && CompletionWrite(history[j]) == Ends(history[j])
      ensures NamesCommand(history[j].Bits()) <==> Command(history[j]) != 0
    {
      SameEvents(history[j]);
    }
    assert forall k: nat :: RunsSince(history, k) <==> BusySince(history, k);
  }

  function OneMore(count: Word): Word {
    count + 1
  }

  /** Completions so far, counted in a word that wraps. */
  ghost function Completions(history: seq<Write>): Word {
    if history == [] then 0
    else
      var before := Completions(history[..|history| - 1]);
      if CompletesAt(history, |history| - 1) then OneMore(before) else before
  }

  /** The command a read shows: the last one written, zero before any. */
  function LastCommand(history: seq<Write>, wordAddr: nat): Word {
    if history == [] then 0
    else if WordOf(history[|history| - 1]) == wordAddr then Command(history[|history| - 1])
    else LastCommand(history[..|history| - 1], wordAddr)
  }

  /** The interrupt level: raised by a completion, otherwise as last written to its bridge. */
  ghost predicate LevelUp(history: seq<Write>)
    decreases |history|
  {
    history != [] &&
      var k := |history| - 1;
      if WordOf(history[k]) == 0x05D0_008C then Fires(history[k])
      else CompletesAt(history, k) || LevelUp(history[..k])
  }

  ghost predicate VdpIs(history: seq<Write>, v: Vdp1) {
    v.busy == Busy(history) && VdpCounts(history, v)
  }

  ghost predicate VdpCounts(history: seq<Write>, v: Vdp1) {
    && v.eventCounter == Completions(history) && v.completedCounter == Completions(history)
    && v.lastCommand == LastCommand(history, 0x05D0_0098) && v.irqLevel == if LevelUp(history) then 1 else 0
  }

  lemma CompletesIs(init: seq<Write>, w: Write)
    requires Aligned(w.addr, w.size)
    ensures (init + [w])[..|init|] == init
    ensures CompletesAt(init + [w], |init|) <==> Completes(Busy(init), w.Word(), w.Bits())
  {
    hide Busy, Fires, WriteBits, Flagged;
    assert (init + [w])[..|init|] == init;
    SameEvents(w);
  }

  lemma LevelBit(bits: Word)
    ensures BitZero(bits) == if Flagged(bits) then 1 else 0
  {
  }

  lemma BumpIsOneMore(count: Word)
    ensures Bumped(count) == OneMore(count)
  {
  }

  lemma CompletionsSnoc(init: seq<Write>, w: Write)
    ensures Completions(init + [w]) == if CompletesAt(init + [w], |init|) then OneMore(Completions(init)) else Completions(init)
  {
    hide CompletesAt, OneMore;
    assert (init + [w])[..|init|] == init;
  }

  lemma LastCommandSnoc(init: seq<Write>, w: Write, wordAddr: nat)
    ensures LastCommand(init + [w], wordAddr) == if WordOf(w) == wordAddr then Command(w) else LastCommand(init, wordAddr)
  {
    hide Command;
    assert (init + [w])[..|init|] == init;
  }

  lemma LevelSnoc(init: seq<Write>, w: Write)
    ensures LevelUp(init + [w]) <==> if WordOf(w) == 0x05D0_008C then Fires(w) else CompletesAt(init + [w], |init|) || LevelUp(init)
  {
    hide CompletesAt, Fires;
    assert (init + [w])[..|init|] == init;
  }

  lemma VdpStep(init: seq<Write>, w: Write, v: Vdp1)
    requires Aligned(w.addr, w.size) && VdpIs(init, v)
    ensures VdpCounts(init + [w], NextVdp1(v, w.Word(), w.Bits()))
  {
    hide WordAddr, WriteBits, LowByte, Flagged, BitZero, NamesCommand, Fires, Busy, Command, CompletesAt,
         Bumped, OneMore, Completions, LastCommand, LevelUp;
    SameEvents(w);
    CompletesIs(init, w);
    LevelBit(w.Bits());
    CompletionsSnoc(init, w);
    BumpIsOneMore(Completions(init));
    LastCommandSnoc(init, w, 0x05D0_0098);
    LevelSnoc(init, w);
  }

  lemma {:induction false} VdpIsHistory(history: seq<Write>)
    requires AlignedHistory(history)
    ensures VdpIs(history, After(history).vdp)
    decreases |history|
  {
    hide After, Busy, CommandRuns, NextVdp1, NextScu, VdpCounts;
    SameBusy(history);
    BusyIsHistory(history);
    if history == [] {
      NothingWritten();
      NothingCounted();
    } else {
      var init, w := history[..|history| - 1], history[|history| - 1];
      assert history == init + [w];
      VdpIsHistory(init);
      VdpSnoc(init, w);
      VdpStep(init, w, After(init).vdp);
    }
  }

  lemma NothingCounted()
    ensures VdpCounts([], RESET_DEV.vdp)
  {
  }

  // ----- what the VDP1 registers read -----

  lemma StatusFields(v: Vdp1)
    ensures CommandStatus(v) & 0xFF == if v.busy then 1 else 0
    ensures (CommandStatus(v) >> 8) & 0xFF == v.completedCounter & 0xFF && (CommandStatus(v) >> 16) & 0xFF == v.lastCommand & 0xFF
    ensures CommandStatus(v) >> 24 == 0
  {
  }

  lemma EventFields(v: Vdp1)
    requires v.irqLevel == 0 || v.irqLevel == 1
    ensures EventStatus(v) & 0xFF == v.eventCounter & 0xFF && EventStatus(v) >> 8 == v.irqLevel
  {
  }

  lemma ByteTwice(w: Write)
    ensures Command(w) & 0xFF == Command(w)
  {
  }

  lemma {:induction false} CommandIsByte(history: seq<Write>, wordAddr: nat)
    ensures LastCommand(history, wordAddr) & 0xFF == LastCommand(history, wordAddr)
  {
    hide Command;
    if history != [] {
      CommandIsByte(history[..|history| - 1], wordAddr);
      ByteTwice(history[|history| - 1]);
    }
  }

  /** Command status: busy in byte 0, completions in byte 1, the last command in byte 2, nothing in byte 3. */
  lemma CommandStatusReads(history: seq<Write>)
    requires AlignedHistory(history)
    ensures var v := ReadDevice(After(history), 0x05D0_009C, 4);
            && v & 0xFF == (if Busy(history) then 1 else 0) && (v >> 8) & 0xFF == Completions(history) & 0xFF
            && (v >> 16) & 0xFF == LastCommand(history, 0x05D0_0098) && v >> 24 == 0
  {
    hide After, CommandStatus, Busy, Completions, LastCommand, LevelUp, ReadDevice;
    VdpIsHistory(history);
    WholeWordRead(After(history), 0x05D0_009C);
    StatusFields(After(history).vdp);
    CommandIsByte(history, 0x05D0_0098);
  }

  /** Event status: completions in byte 0, the interrupt level in bit 8, nothing else. */
  lemma EventStatusReads(history: seq<Write>)
    requires AlignedHistory(history)
    ensures var v := ReadDevice(After(history), 0x05D0_0094, 4);
            v & 0xFF == Completions(history) & 0xFF && v >> 8 == if LevelUp(history) then 1 else 0
  {
    hide After, EventStatus, Busy, Completions, LastCommand, LevelUp, ReadDevice;
    VdpIsHistory(history);
    WholeWordRead(After(history), 0x05D0_0094);
    EventFields(After(history).vdp);
  }

  lemma OneBit()
    ensures BitZero(1) == 1 && BitZero(0) == 0
  {
  }

  lemma LowByteIs(v: Word)
    ensures LowByte(v) == v & 0xFF
  {
  }

  /** The command register shows the last command, the bridge the interrupt level. */
  lemma CommandAndBridgeRead(history: seq<Write>)
    requires AlignedHistory(history)
    ensures ReadDevice(After(history), 0x05D0_0098, 4) == LastCommand(history, 0x05D0_0098)
    ensures ReadDevice(After(history), 0x05D0_008C, 4) == if LevelUp(history) then 1 else 0
  {
    hide After, Busy, Completions, LastCommand, LevelUp, ReadDevice, BitZero, LowByte;
    VdpIsHistory(history);
    WholeWordRead(After(history), 0x05D0_0098);
    WholeWordRead(After(history), 0x05D0_008C);
    CommandIsByte(history, 0x05D0_0098);
    LowByteIs(LastCommand(history, 0x05D0_0098));
    OneBit();
  }

  // ----- SMPC -----

  predicate Commanded(history: seq<Write>) {
    exists k :: 0 <= k < |history| && WordOf(history[k]) == 0x05D0_0084
  }

  lemma CommandedSnoc(history: seq<Write>, w: Write)
    ensures Commanded(history + [w]) <==> WordOf(w) == 0x05D0_0084 || Commanded(history)
  {
    var all := history + [w];
    assert all[|history|] == w;
    assert forall k :: 0 <= k < |history| ==> all[k] == history[k];
  }

  lemma SmpcSnoc(history: seq<Write>, w: Write)
    ensures After(history + [w]).smpc ==
      if w.Word() == SMPC_COMMAND then Smpc(LowByte(w.Bits()), SmpcAnswer(w.Bits())) else After(history).smpc
  {
    hide WordAddr, WriteBits, LaneMask, WriteRegister, NextScu, NextVdp1;
    AfterSnoc(history, w);
  }

  function AnswerTo(command: Word): Word {
    0xA500_0000 | command
  }

  lemma AnswerIs(bits: Word)
    ensures SmpcAnswer(bits) == AnswerTo(LowByte(bits))
  {
  }

  lemma {:induction false} SmpcIsHistory(history: seq<Write>)
    requires AlignedHistory(history)
    ensures After(history).smpc.lastCommand == LastCommand(history, 0x05D0_0084)
    ensures After(history).smpc.result == if Commanded(history) then AnswerTo(LastCommand(history, 0x05D0_0084)) else 0
    decreases |history|
  {
    if history == [] {
      NothingWritten();
      NobodyCommanded();
    } else {
      hide After, WordAddr, WriteBits, LowByte, Command, SmpcAnswer, Commanded, Flagged, NamesCommand, Fires, LastCommand, AnswerTo;
      var init, w := history[..|history| - 1], history[|history| - 1];
      assert history == init + [w];
      SmpcIsHistory(init);
      SmpcSnoc(init, w);
      SameEvents(w);
      CommandedSnoc(init, w);
      LastCommandSnoc(init, w, 0x05D0_0084);
      AnswerIs(w.Bits());
    }
  }

  lemma NobodyCommanded()
    ensures !Commanded([])
  {
  }

  /** The SMPC command register shows the last command written, and the result register its answer: nothing before any
      command, then the command under a fixed top byte. */
  lemma SmpcReads(history: seq<Write>)
    requires AlignedHistory(history)
    ensures ReadDevice(After(history), 0x05D0_0084, 4) == LastCommand(history, 0x05D0_0084)
    ensures ReadDevice(After(history), 0x05D0_0088, 4) == if Commanded(history) then 0xA500_0000 | LastCommand(history, 0x05D0_0084) else 0
  {
    hide After, LastCommand, ReadDevice, LowByte, Commanded;
    SmpcIsHistory(history);
    WholeWordRead(After(history), 0x05D0_0084);
    WholeWordRead(After(history), 0x05D0_0088);
    CommandIsByte(history, 0x05D0_0084);
    LowByteIs(LastCommand(history, 0x05D0_0084));
  }

  // ----- interrupts -----

  /** What a write does to bit b of the latch software sets. */
  function OnSoftware(w: Write, b: nat): Effect {
    if b >= 16 || !Carries(w, WordOf(w), b) then Leaves
    else if WordOf(w) == 0x05FE_00A4 then Sets
    else if WordOf(w) == 0x05FE_00A8 then Clears
    else Leaves
  }

  /** What the k-th write does to bit b of the latch that sources set. */
  ghost function OnSource(history: seq<Write>, b: nat, k: nat): Effect
    requires k < |history|
  {
    var w := history[k];
    if WordOf(w) == 0x05D0_008C then (if b != 5 then Leaves else if Fires(w) then Sets else Clears)
    else if CompletesAt(history, k) then (if b == 5 then Sets else Leaves)
    else if b >= 16 || !Carries(w, WordOf(w), b) then Leaves
    else if WordOf(w) == 0x05FE_00AC then Sets
    else if WordOf(w) == 0x05FE_00B0 || WordOf(w) == 0x05FE_00A8 then Clears
    else Leaves
  }

  ghost predicate SoftwareUpSince(history: seq<Write>, b: nat, k: nat) {
    k < |history| && OnSoftware(history[k], b) == Sets && forall j :: k < j < |history| ==> OnSoftware(history[j], b) == Leaves
  }

  ghost predicate SoftwareUp(history: seq<Write>, b: nat) {
    exists k: nat :: SoftwareUpSince(history, b, k)
  }

  ghost predicate SourceUpSince(history: seq<Write>, b: nat, k: nat) {
    k < |history| && OnSource(history, b, k) == Sets && forall j :: k < j < |history| ==> OnSource(history, b, j) == Leaves
  }

  ghost predicate SourceUp(history: seq<Write>, b: nat) {
    exists k: nat :: SourceUpSince(history, b, k)
  }

  lemma ToggleIs(w: Write, b: nat, e: Effect)
    requires Aligned(w.addr, w.size)
    ensures Toggle(w.Bits(), b, e) == if b >= 16 || !Carries(w, WordOf(w), b) then Leaves else e
  {
    hide BitAt, WriteBits, Carries, Low16;
    LowHalfBit(w.Bits(), b);
    if b < 32 {
      BitsCarried(w, b);
    }
  }

  lemma SameSoftwareEffect(w: Write, b: nat)
    requires Aligned(w.addr, w.size)
    ensures PendingEffect(w, b) == OnSoftware(w, b)
  {
    hide Toggle, Carries, WriteBits;
    ToggleIs(w, b, Sets);
    ToggleIs(w, b, Clears);
  }

  lemma SameSourceEffect(history: seq<Write>, b: nat, k: nat)
    requires AlignedHistory(history) && k < |history|
    ensures SourceEvent(history, b, k) == OnSource(history, b, k)
  {
    hide Toggle, Carries, WriteBits, CommandRuns, Busy, Flagged, Fires, Starts, CommandWrite, NamesCommand, Command, LowByte;
    var w := history[k];
    ToggleIs(w, b, Sets);
    ToggleIs(w, b, Clears);
    SameEvents(w);
    PrefixAligned(history, k);
    SameBusy(history[..k]);
  }

  lemma PrefixAligned(history: seq<Write>, k: nat)
    requires AlignedHistory(history) && k <= |history|
    ensures AlignedHistory(history[..k])
  {
  }

  lemma SameLatches(history: seq<Write>, b: nat)
    requires AlignedHistory(history)
    ensures SoftwareSet(history, b) <==> SoftwareUp(history, b)
    ensures SourceSet(history, b) <==> SourceUp(history, b)
  {
    hide PendingEffect, OnSoftware, SourceEvent, OnSource;
    forall k | 0 <= k < |history|
      ensures PendingEffect(history[k], b) == OnSoftware(history[k], b) && SourceEvent(history, b, k) == OnSource(history, b, k)
    {
      SameSoftwareEffect(history[k], b);
      SameSourceEffect(history, b, k);
    }
    assert forall k: nat :: PendingSince(history, b, k) <==> SoftwareUpSince(history, b, k);
    assert forall k: nat :: SourcedSince(history, b, k) <==> SourceUpSince(history, b, k);
  }

  /** A bit of the interrupt status reads 1 exactly when software or a source raised it last and the last write that
      reached the same bit of the mask register did not set it. */
  lemma InterruptStatusReads(history: seq<Write>, b: nat)
    requires AlignedHistory(history) && b < 32
    ensures BitAt(ReadDevice(After(history), 0x05FE_00A4, 4), b) <==>
      (SoftwareUp(history, b) || SourceUp(history, b)) && !(b < 16 && SetLast(history, 0x05FE_00A0, b))
  {
    hide BitAt, After, ReadDevice, SoftwareSet, SourceSet, SoftwareUp, SourceUp, SetLast;
    StatusIsHistory(history, b);
    SameLatches(history, b);
    RegisterReads(history, 0x05FE_00A0, b);
  }

  /** The source register shows the source latch. */
  lemma SourceReads(history: seq<Write>, b: nat)
    requires AlignedHistory(history) && b < 32
    ensures BitAt(ReadDevice(After(history), 0x05FE_00AC, 4), b) <==> b < 16 && SourceUp(history, b)
  {
    hide BitAt, After, ReadDevice, SourceSet, SourceUp, SoftwareSet, SoftwareUp, Low16;
    LatchesAreHistory(history, b);
    SameLatches(history, b);
    WholeWordRead(After(history), 0x05FE_00AC);
    LowHalfBit(After(history).scu.source, b);
  }

  // ----- registers that only act -----

  lemma {:induction false} ActingNeverKept(history: seq<Write>, wordAddr: nat)
    requires WritesLatch(wordAddr)
    ensures Persisted(After(history).regs, wordAddr) == 0
    decreases |history|
  {
    hide After, WritesLatch, WriteRegister, WordAddr, LaneMask, WriteBits;
    if history == [] {
      NothingWritten();
    } else {
      var init, w := history[..|history| - 1], history[|history| - 1];
      ActingNeverKept(init, wordAddr);
      RegistersAfter(history);
      if !WritesLatch(WordAddr(w.addr)) {
        OtherRegisterKept(After(init).regs, WordAddr(w.addr), LaneMask(w.addr, w.size), WriteBits(w.addr, w.size, w.value), wordAddr);
      }
    }
  }

  lemma JoinedZero(mask: Word)
    ensures Joined(0, mask, 0) == 0
  {
  }

  /** The registers that only clear or trigger read zero. */
  lemma ActingReadsZero(history: seq<Write>, wordAddr: nat)
    requires wordAddr in {0x05FE_00A8, 0x05FE_00B0, 0x05D0_0090, 0x05D0_00A0}
    ensures ReadDevice(After(history), wordAddr, 4) == 0
  {
    hide After, ReadDevice, Joined, WritableMask;
    ActingNeverKept(history, wordAddr);
    WholeWordRead(After(history), wordAddr);
    JoinedZero(WritableMask(wordAddr));
  }

  // ----- the log -----

  /** Every write is logged, in order, with its time, CPU, address and value. */
  lemma {:induction false} LogIsHistory(history: seq<Write>)
    ensures |After(history).writes| == |history|
    ensures forall k :: 0 <= k < |history| ==>
      After(history).writes[k] == WriteLog(history[k].t, history[k].cpu, history[k].addr, history[k].value)
    decreases |history|
  {
    hide WordAddr, LaneMask, WriteBits, WriteRegister, NextScu, NextVdp1;
    if history != [] {
      LogIsHistory(history[..|history| - 1]);
    }
  }
}
