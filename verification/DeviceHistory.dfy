/** What the device latches show, told from the history of writes alone. */
module DeviceHistory {
  import opened Prelude
  import opened Devices

  // ----- single bits -----

  predicate Odd(w: Word) {
    w & 1 == 1
  }

  function Half(w: Word): Word {
    w >> 1
  }

  predicate BitAt(w: Word, b: nat) {
    if b == 0 then Odd(w) else BitAt(Half(w), b - 1)
  }

  function Union(x: Word, y: Word): Word {
    x | y
  }

  function Minus(x: Word, y: Word): Word {
    x & !y
  }

  lemma HalvesOfUnion(x: Word, y: Word)
    ensures Odd(Union(x, y)) <==> Odd(x) || Odd(y)
    ensures Half(Union(x, y)) == Union(Half(x), Half(y))
  {
  }

  lemma HalvesOfMinus(x: Word, y: Word)
    ensures Odd(Minus(x, y)) <==> Odd(x) && !Odd(y)
    ensures Half(Minus(x, y)) == Minus(Half(x), Half(y))
  {
  }

  lemma {:induction false} BitOfUnion(x: Word, y: Word, b: nat)
    ensures BitAt(Union(x, y), b) <==> BitAt(x, b) || BitAt(y, b)
    decreases b
  {
    hide Odd, Half, Union;
    HalvesOfUnion(x, y);
    if b > 0 {
      BitOfUnion(Half(x), Half(y), b - 1);
    }
  }

  lemma {:induction false} BitOfMinus(x: Word, y: Word, b: nat)
    ensures BitAt(Minus(x, y), b) <==> BitAt(x, b) && !BitAt(y, b)
    decreases b
  {
    hide Odd, Half, Minus;
    HalvesOfMinus(x, y);
    if b > 0 {
      BitOfMinus(Half(x), Half(y), b - 1);
    }
  }

  lemma HalfOfZero()
    ensures Half(0) == 0 && !Odd(0)
  {
  }

  lemma {:induction false} ZeroHasNoBits(b: nat)
    ensures !BitAt(0, b)
  {
    hide Half, Odd;
    HalfOfZero();
    if b > 0 {
      ZeroHasNoBits(b - 1);
    }
  }

  const VDP1_IRQ_BIT := 5

  lemma IrqHalves()
    ensures Half(0x20) == 0x10 && Half(0x10) == 0x8 && Half(0x8) == 0x4 && Half(0x4) == 0x2 && Half(0x2) == 0x1 && Half(0x1) == 0
    ensures !Odd(0x20) && !Odd(0x10) && !Odd(0x8) && !Odd(0x4) && !Odd(0x2) && Odd(0x1)
  {
  }

  lemma IrqBit(b: nat)
    ensures BitAt(VDP1_SCU_IRQ, b) <==> b == VDP1_IRQ_BIT
  {
    hide Half, Odd;
    IrqHalves();
    HalfOfZero();
    if b >= 1 {
      assert BitAt(0x20, b) == BitAt(0x10, b - 1);
    }
    if b >= 2 {
      assert BitAt(0x10, b - 1) == BitAt(0x8, b - 2);
    }
    if b >= 3 {
      assert BitAt(0x8, b - 2) == BitAt(0x4, b - 3);
    }
    if b >= 4 {
      assert BitAt(0x4, b - 3) == BitAt(0x2, b - 4);
    }
    if b >= 5 {
      assert BitAt(0x2, b - 4) == BitAt(0x1, b - 5);
    }
    if b >= 6 {
      assert BitAt(0x1, b - 5) == BitAt(0, b - 6);
      ZeroHasNoBits(b - 6);
    }
  }

  // ----- histories -----

  /** A write the hub has received, its bits already on their lanes. */
  datatype Write = Write(t: Tick, cpu: int, addr: nat, size: nat, value: Word) {
    function Word(): nat {
      WordAddr(addr)
    }

    function Bits(): Prelude.Word {
      WriteBits(addr, size, value)
    }
  }

  function After(history: seq<Write>): Dev {
    if history == [] then RESET_DEV
    else
      var w := history[|history| - 1];
      WriteDevice(After(history[..|history| - 1]), w.t, w.cpu, w.addr, w.size, w.value)
  }

  // ----- commands -----

  predicate CommandWrite(w: Write) {
    w.Word() == VDP1_COMMAND
  }

  /** A flagged write to the event trigger or the completion register. */
  predicate CompletionWrite(w: Write) {
    (w.Word() == VDP1_EVENT_TRIGGER || w.Word() == VDP1_COMMAND_COMPLETE) && Flagged(w.Bits())
  }

  /** The k-th write started a command, and since then there was neither another command write nor a completion. */
  predicate RunsSince(history: seq<Write>, k: nat) {
    && k < |history| && CommandWrite(history[k]) && NamesCommand(history[k].Bits())
    && forall j :: k < j < |history| ==> !CommandWrite(history[j]) && !CompletionWrite(history[j])
  }

  ghost predicate CommandRuns(history: seq<Write>) {
    exists k: nat :: RunsSince(history, k)
  }

  lemma RunsSnoc(history: seq<Write>, w: Write)
    ensures CommandRuns(history + [w]) <==>
      if CommandWrite(w) then NamesCommand(w.Bits()) else CommandRuns(history) && !CompletionWrite(w)
  {
    var all := history + [w];
    if CommandWrite(w) && NamesCommand(w.Bits()) {
      assert RunsSince(all, |history|);
    }
    if CommandRuns(history) && !CommandWrite(w) && !CompletionWrite(w) {
      var k: nat :| RunsSince(history, k);
      assert RunsSince(all, k);
    }
    if CommandRuns(all) {
      var k: nat :| RunsSince(all, k);
      if k < |history| {
        assert all[|history|] == w && all[k] == history[k];
        assert forall j :: k < j < |history| ==> all[j] == history[j];
        assert RunsSince(history, k);
      }
    }
  }

  lemma AfterSnoc(history: seq<Write>, w: Write)
    ensures After(history + [w]) == WriteDevice(After(history), w.t, w.cpu, w.addr, w.size, w.value)
  {
    assert (history + [w])[..|history + [w]| - 1] == history;
  }

  lemma VdpSnoc(history: seq<Write>, w: Write)
    ensures After(history + [w]).vdp == NextVdp1(After(history).vdp, w.Word(), w.Bits())
    ensures After(history + [w]).scu == NextScu(After(history).scu, After(history).vdp.busy, w.Word(), w.Bits())
  {
    hide NextVdp1, NextScu, WriteRegister, WordAddr, WriteBits, LaneMask;
    AfterSnoc(history, w);
  }

  /** VDP1 is busy exactly when the last command written named one and nothing has completed since; the event and
      completion counters never differ. */
  lemma {:induction false} BusyIsHistory(history: seq<Write>)
    ensures After(history).vdp.busy <==> CommandRuns(history)
    ensures After(history).vdp.eventCounter == After(history).vdp.completedCounter
  {
    hide WordAddr, WriteBits, Bumped, BitZero, LowByte, Flagged, NamesCommand, CommandRuns, After;
    if history == [] {
      NothingWritten();
    } else {
      var init, w := history[..|history| - 1], history[|history| - 1];
      assert history == init + [w];
      BusyIsHistory(init);
      RunsSnoc(init, w);
      VdpSnoc(init, w);
    }
  }

  lemma NothingWritten()
    ensures After([]) == RESET_DEV && !CommandRuns([])
  {
  }

  // ----- interrupt latches -----

  datatype Effect = Sets | Clears | Leaves

  function Toggle(bits: Word, b: nat, e: Effect): Effect {
    if BitAt(Low16(bits), b) then e else Leaves
  }

  /** What one write does to bit b of the software-pending latch. */
  function PendingEffect(w: Write, b: nat): Effect {
    if w.Word() == SCU_IST then Toggle(w.Bits(), b, Sets)
    else if w.Word() == SCU_IST_CLEAR then Toggle(w.Bits(), b, Clears)
    else Leaves
  }

  /** What one write does to bit b of the source latch, given whether a command was running. */
  function SourceEffect(w: Write, busy: bool, b: nat): Effect {
    if w.Word() == SCU_SOURCE_SET then Toggle(w.Bits(), b, Sets)
    else if w.Word() == SCU_SOURCE_CLEAR || w.Word() == SCU_IST_CLEAR then Toggle(w.Bits(), b, Clears)
    else if w.Word() == VDP1_IRQ_BRIDGE then
      if b != VDP1_IRQ_BIT then Leaves else if Flagged(w.Bits()) then Sets else Clears
    else if CompletionWrite(w) && (w.Word() == VDP1_EVENT_TRIGGER || busy) then
      if b == VDP1_IRQ_BIT then Sets else Leaves
    else Leaves
  }

  predicate Becomes(before: bool, e: Effect, after: bool) {
    after == match e case Sets => true case Clears => false case Leaves => before
  }

  lemma RaisedBit(latch: Word, bits: Word, b: nat)
    ensures Becomes(BitAt(latch, b), Toggle(bits, b, Sets), BitAt(Raised(latch, bits), b))
  {
    hide BitAt, Low16;
    assert Raised(latch, bits) == Union(latch, Low16(bits));
    BitOfUnion(latch, Low16(bits), b);
  }

  lemma LoweredBit(latch: Word, bits: Word, b: nat)
    ensures Becomes(BitAt(latch, b), Toggle(bits, b, Clears), BitAt(Lowered(latch, bits), b))
  {
    hide BitAt, Low16;
    assert Lowered(latch, bits) == Minus(latch, Low16(bits));
    BitOfMinus(latch, Low16(bits), b);
  }

  lemma IrqLevelBit(latch: Word, level: bool, b: nat)
    ensures BitAt(WithVdp1Irq(latch, level), b) == if b == VDP1_IRQ_BIT then level else BitAt(latch, b)
  {
    hide BitAt;
    assert WithVdp1Irq(latch, level) == if level then Union(latch, VDP1_SCU_IRQ) else Minus(latch, VDP1_SCU_IRQ);
    hide WithVdp1Irq;
    BitOfUnion(latch, VDP1_SCU_IRQ, b);
    BitOfMinus(latch, VDP1_SCU_IRQ, b);
    IrqBit(b);
  }

  lemma PendingStep(d: Dev, w: Write, b: nat)
    ensures Becomes(BitAt(d.scu.pending, b), PendingEffect(w, b), BitAt(NextScu(d.scu, d.vdp.busy, w.Word(), w.Bits()).pending, b))
  {
    hide BitAt, Low16, Raised, Lowered, WordAddr, WriteBits, NextSource, Toggle;
    RaisedBit(d.scu.pending, w.Bits(), b);
    LoweredBit(d.scu.pending, w.Bits(), b);
  }

  lemma InterruptSourceStep(d: Dev, w: Write, b: nat)
    requires !Vdp1Word(w.Word())
    ensures Becomes(BitAt(d.scu.source, b), SourceEffect(w, d.vdp.busy, b), BitAt(NextScu(d.scu, d.vdp.busy, w.Word(), w.Bits()).source, b))
  {
    hide BitAt, Low16, Raised, Lowered, WordAddr, WriteBits, NextPending, Toggle, Flagged, WithVdp1Irq;
    RaisedBit(d.scu.source, w.Bits(), b);
    LoweredBit(d.scu.source, w.Bits(), b);
  }

  lemma Vdp1SourceStep(d: Dev, w: Write, b: nat)
    requires Vdp1Word(w.Word())
    ensures Becomes(BitAt(d.scu.source, b), SourceEffect(w, d.vdp.busy, b), BitAt(NextScu(d.scu, d.vdp.busy, w.Word(), w.Bits()).source, b))
  {
    hide BitAt, Low16, Raised, Lowered, WordAddr, WriteBits, NextPending, Toggle, Flagged, WithVdp1Irq;
    IrqLevelBit(d.scu.source, true, b);
    IrqLevelBit(d.scu.source, Flagged(w.Bits()), b);
  }

  lemma SourceStep(d: Dev, w: Write, b: nat)
    ensures Becomes(BitAt(d.scu.source, b), SourceEffect(w, d.vdp.busy, b), BitAt(NextScu(d.scu, d.vdp.busy, w.Word(), w.Bits()).source, b))
  {
    hide Becomes, BitAt, SourceEffect, NextScu, Vdp1Word, WordAddr, WriteBits;
    if Vdp1Word(w.Word()) {
      Vdp1SourceStep(d, w, b);
    } else {
      InterruptSourceStep(d, w, b);
    }
  }

  /** The k-th write set the bit in its latch, and nothing after it touched it there. */
  ghost predicate PendingSince(history: seq<Write>, b: nat, k: nat) {
    && k < |history| && PendingEffect(history[k], b) == Sets
    && forall j :: k < j < |history| ==> PendingEffect(history[j], b) == Leaves
  }

  ghost predicate SoftwareSet(history: seq<Write>, b: nat) {
    exists k: nat :: PendingSince(history, b, k)
  }

  ghost function SourceEvent(history: seq<Write>, b: nat, k: nat): Effect
    requires k < |history|
  {
    SourceEffect(history[k], CommandRuns(history[..k]), b)
  }

  ghost predicate SourcedSince(history: seq<Write>, b: nat, k: nat) {
    && k < |history| && SourceEvent(history, b, k) == Sets
    && forall j :: k < j < |history| ==> SourceEvent(history, b, j) == Leaves
  }

  ghost predicate SourceSet(history: seq<Write>, b: nat) {
    exists k: nat :: SourcedSince(history, b, k)
  }

  lemma SoftwareSnoc(history: seq<Write>, w: Write, b: nat)
    ensures Becomes(SoftwareSet(history, b), PendingEffect(w, b), SoftwareSet(history + [w], b))
  {
    hide PendingEffect;
    var all := history + [w];
    if PendingEffect(w, b) == Sets {
      assert PendingSince(all, b, |history|);
    }
    if SoftwareSet(history, b) && PendingEffect(w, b) == Leaves {
      var k: nat :| PendingSince(history, b, k);
      assert PendingSince(all, b, k);
    }
    if SoftwareSet(all, b) {
      var k: nat :| PendingSince(all, b, k);
      assert all[|history|] == w;
      if k < |history| {
        assert forall j :: k <= j < |history| ==> all[j] == history[j];
        assert PendingSince(history, b, k);
      }
    }
  }

  lemma EventsKept(history: seq<Write>, w: Write, b: nat)
    ensures forall k :: 0 <= k < |history| ==> SourceEvent(history + [w], b, k) == SourceEvent(history, b, k)
    ensures SourceEvent(history + [w], b, |history|) == SourceEffect(w, CommandRuns(history), b)
  {
    hide SourceEffect, CommandRuns;
    var all := history + [w];
    forall k | 0 <= k < |history|
      ensures SourceEvent(all, b, k) == SourceEvent(history, b, k)
    {
      assert all[..k] == history[..k];
    }
    assert all[..|history|] == history;
  }

  lemma SourceSnoc(history: seq<Write>, w: Write, b: nat)
    ensures Becomes(SourceSet(history, b), SourceEffect(w, CommandRuns(history), b), SourceSet(history + [w], b))
  {
    hide SourceEffect, CommandRuns, SourceEvent;
    var all := history + [w];
    EventsKept(history, w, b);
    var e := SourceEffect(w, CommandRuns(history), b);
    if e == Sets {
      assert SourcedSince(all, b, |history|);
    }
    if SourceSet(history, b) && e == Leaves {
      var k: nat :| SourcedSince(history, b, k);
      assert SourcedSince(all, b, k);
    }
    if SourceSet(all, b) {
      var k: nat :| SourcedSince(all, b, k);
      if k < |history| {
        assert SourcedSince(history, b, k);
      }
    }
  }

  /** A bit of a latch is up exactly when the last write that touched it there was a set. */
  lemma {:induction false} LatchesAreHistory(history: seq<Write>, b: nat)
    ensures BitAt(After(history).scu.pending, b) <==> SoftwareSet(history, b)
    ensures BitAt(After(history).scu.source, b) <==> SourceSet(history, b)
  {
    hide BitAt, PendingEffect, SourceEffect, SoftwareSet, SourceSet, CommandRuns, NextScu, NextVdp1, After, WordAddr, WriteBits;
    if history == [] {
      NothingLatched(b);
    } else {
      var init, w := history[..|history| - 1], history[|history| - 1];
      assert history == init + [w];
      LatchesAreHistory(init, b);
      BusyIsHistory(init);
      VdpSnoc(init, w);
      PendingStep(After(init), w, b);
      SourceStep(After(init), w, b);
      SoftwareSnoc(init, w, b);
      SourceSnoc(init, w, b);
    }
  }

  lemma NothingLatched(b: nat)
    ensures !BitAt(After([]).scu.pending, b) && !BitAt(After([]).scu.source, b) && !SoftwareSet([], b) && !SourceSet([], b)
  {
    hide BitAt;
    ZeroHasNoBits(b);
  }

  // ----- what software reads -----

  lemma FullMask(v: Word)
    ensures v & 0xFFFF_FFFF == v
  {
  }

  lemma WholeWordRead(d: Dev, wordAddr: nat)
    requires wordAddr % 4 == 0
    ensures ReadDevice(d, wordAddr, 4) == WordValue(d, wordAddr)
  {
    hide WordValue;
    FullMask(WordValue(d, wordAddr));
  }

  lemma StatusWord(d: Dev)
    ensures ReadDevice(d, SCU_IST, 4) == Minus(Union(d.scu.pending, d.scu.source), ReadDevice(d, SCU_IMS, 4))
  {
    hide Materialized;
    WholeWordRead(d, SCU_IST);
    WholeWordRead(d, SCU_IMS);
  }

  /** After any history of writes, bit b of the interrupt status reads 1 exactly when the last write that touched it in
      the software latch, or the last event that touched it in the source latch, was a set, and the mask register as read
      does not hide it. */
  lemma StatusIsHistory(history: seq<Write>, b: nat)
    ensures BitAt(ReadDevice(After(history), SCU_IST, 4), b) <==>
      (SoftwareSet(history, b) || SourceSet(history, b)) && !BitAt(ReadDevice(After(history), SCU_IMS, 4), b)
  {
    hide BitAt, Union, Minus, ReadDevice, After, SoftwareSet, SourceSet;
    var d := After(history);
    LatchesAreHistory(history, b);
    StatusWord(d);
    BitOfMinus(Union(d.scu.pending, d.scu.source), ReadDevice(d, SCU_IMS, 4), b);
    BitOfUnion(d.scu.pending, d.scu.source, b);
  }

  lemma StatusBits(v: Vdp1)
    ensures Odd(CommandStatus(v)) <==> v.busy
    ensures LowByte(CommandStatus(v) >> 8) == LowByte(v.completedCounter)
    ensures LowByte(EventStatus(v)) == LowByte(v.eventCounter)
  {
  }

  /** The command status register shows busy exactly while a command runs, and its completion count always equals the
      event count of the event status register. */
  lemma CommandStatusIsHistory(history: seq<Write>)
    ensures Odd(ReadDevice(After(history), VDP1_COMMAND_STATUS, 4)) <==> CommandRuns(history)
    ensures LowByte(ReadDevice(After(history), VDP1_COMMAND_STATUS, 4) >> 8) == LowByte(ReadDevice(After(history), VDP1_EVENT_STATUS, 4))
  {
    hide Odd, LowByte, After, CommandRuns, CommandStatus, EventStatus, ReadDevice;
    var d := After(history);
    BusyIsHistory(history);
    WholeWordRead(d, VDP1_COMMAND_STATUS);
    WholeWordRead(d, VDP1_EVENT_STATUS);
    StatusBits(d.vdp);
  }
}
