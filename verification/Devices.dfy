/** The memory-mapped register hub: lane arithmetic, register table, interrupt latches and VDP1 commands. */
module Devices {
  import opened Prelude

  const DISPLAY_STATUS := 0x05F0_0010
  const SCU_IMS := 0x05FE_00A0
  const SCU_IST := 0x05FE_00A4
  const SCU_IST_CLEAR := 0x05FE_00A8
  const SCU_SOURCE_SET := 0x05FE_00AC
  const SCU_SOURCE_CLEAR := 0x05FE_00B0
  const SCU_DMA0_SRC := 0x05FE_0020
  const SCU_DMA0_SIZE := 0x05FE_0028
  const SCU_DMA0_CTRL := 0x05FE_002C
  const SMPC_STATUS := 0x05D0_0080
  const SMPC_COMMAND := 0x05D0_0084
  const SMPC_RESULT := 0x05D0_0088
  const VDP2_TVMD := 0x05F8_0000
  const VDP2_TVSTAT := 0x05F8_0004
  const SCSP_MCIER := 0x05C0_0000
  const VDP1_IRQ_BRIDGE := 0x05D0_008C
  const VDP1_EVENT_TRIGGER := 0x05D0_0090
  const VDP1_EVENT_STATUS := 0x05D0_0094
  const VDP1_COMMAND := 0x05D0_0098
  const VDP1_COMMAND_STATUS := 0x05D0_009C
  const VDP1_COMMAND_COMPLETE := 0x05D0_00A0
  const VDP1_SCU_IRQ: Word := 0x0000_0020

  // ----- the register table -----

  predicate ReadOnlyRegister(wordAddr: nat) {
    || wordAddr == DISPLAY_STATUS || wordAddr == SCU_IST || wordAddr == SMPC_STATUS || wordAddr == SMPC_RESULT
    || wordAddr == VDP2_TVSTAT || wordAddr == VDP1_EVENT_STATUS || wordAddr == VDP1_COMMAND_STATUS
  }

  predicate HalfwordRegister(wordAddr: nat) {
    || wordAddr == SCU_IMS || wordAddr == SCU_IST_CLEAR || wordAddr == SCU_SOURCE_SET
    || wordAddr == SCU_SOURCE_CLEAR || wordAddr == VDP2_TVMD
  }

  predicate FlagRegister(wordAddr: nat) {
    wordAddr == VDP1_IRQ_BRIDGE || wordAddr == VDP1_EVENT_TRIGGER || wordAddr == VDP1_COMMAND_COMPLETE
  }

  predicate HasSpec(wordAddr: nat) {
    || ReadOnlyRegister(wordAddr) || HalfwordRegister(wordAddr) || FlagRegister(wordAddr)
    || wordAddr == SCU_DMA0_SRC || wordAddr == SCU_DMA0_SIZE || wordAddr == SCU_DMA0_CTRL
    || wordAddr == SMPC_COMMAND || wordAddr == VDP1_COMMAND || wordAddr == SCSP_MCIER
  }

  /** Bits of a register that keep what is written to them; all of them where the table has no entry. */
  function WritableMask(wordAddr: nat): Word {
    if ReadOnlyRegister(wordAddr) then 0
    else if HalfwordRegister(wordAddr) then 0xFFFF
    else if FlagRegister(wordAddr) then 0x1
    else if wordAddr == SCU_DMA0_SIZE then 0x000F_FFFF
    else if wordAddr == SCU_DMA0_CTRL then 0x17
    else if wordAddr == SMPC_COMMAND || wordAddr == VDP1_COMMAND then 0xFF
    else if wordAddr == SCSP_MCIER then 0x7FF
    else 0xFFFF_FFFF
  }

  function ResetValue(wordAddr: nat): Word {
    if wordAddr == DISPLAY_STATUS || wordAddr == SMPC_STATUS then 0x1
    else if wordAddr == VDP2_TVSTAT then 0x8
    else 0
  }

  // ----- lanes -----

  function WordAddr(addr: nat): nat {
    addr - addr % 4
  }

  /** How many byte lanes an access sits above the least significant one. */
  function LaneIndex(addr: nat, size: nat): (k: nat)
    ensures k < 4
  {
    if size == 1 then 3 - addr % 4
    else if size == 2 then 2 - addr % 4 / 2 * 2
    else 0
  }

  function SizeMask(size: nat): Word {
    if size == 1 then 0xFF else if size == 2 then 0xFFFF else 0xFFFF_FFFF
  }

  function ShiftUp(v: Word, lanes: nat): Word {
    if lanes == 0 then v else ShiftUp(v, lanes - 1) << 8
  }

  function ShiftDown(v: Word, lanes: nat): Word {
    if lanes == 0 then v else ShiftDown(v, lanes - 1) >> 8
  }

  function LaneMask(addr: nat, size: nat): Word {
    ShiftUp(SizeMask(size), LaneIndex(addr, size))
  }

  /** The written value moved onto its lanes. */
  function WriteBits(addr: nat, size: nat, value: Word): Word {
    ShiftUp(value, LaneIndex(addr, size)) & LaneMask(addr, size)
  }

  function Extract(value: Word, addr: nat, size: nat): Word {
    ShiftDown(value, LaneIndex(addr, size)) & SizeMask(size)
  }

  /** The reset value with its writable bits replaced by what has been stored. */
  function Joined(reset: Word, writable: Word, persisted: Word): Word {
    (reset & !writable) | (persisted & writable)
  }

  function Materialized(wordAddr: nat, persisted: Word): Word {
    Joined(ResetValue(wordAddr), WritableMask(wordAddr), persisted)
  }

  function Low16(v: Word): Word {
    v & 0xFFFF
  }

  function LowByte(v: Word): Word {
    v & 0xFF
  }

  function BitZero(v: Word): Word {
    v & 0x1
  }

  predicate Flagged(bits: Word) {
    BitZero(bits) != 0
  }

  predicate NamesCommand(bits: Word) {
    LowByte(bits) != 0
  }

  function SmpcAnswer(bits: Word): Word {
    0xA500_0000 | LowByte(bits)
  }

  function Bumped(counter: Word): Word {
    counter + 1
  }

  function Raised(latch: Word, bits: Word): Word {
    latch | Low16(bits)
  }

  function Lowered(latch: Word, bits: Word): Word {
    latch & !Low16(bits)
  }

  /** The source latch with the VDP1 interrupt bit raised or dropped. */
  function WithVdp1Irq(source: Word, level: bool): Word {
    if level then source | VDP1_SCU_IRQ else source & !VDP1_SCU_IRQ
  }

  /** `previous` with the masked bits replaced. */
  function Merged(previous: Word, bits: Word, mask: Word): Word {
    (previous & !mask) | (bits & mask)
  }

  // ----- the hub as a value -----

  datatype WriteLog = WriteLog(t: Tick, cpu: int, addr: nat, value: Word)

  /** SCU interrupt latches: software-set bits and source-set bits. */
  datatype Scu = Scu(pending: Word, source: Word)

  datatype Smpc = Smpc(lastCommand: Word, result: Word)

  datatype Vdp1 = Vdp1(irqLevel: Word, eventCounter: Word, lastCommand: Word, completedCounter: Word, busy: bool)

  datatype Dev = Dev(writes: seq<WriteLog>, regs: map<nat, Word>, scu: Scu, smpc: Smpc, vdp: Vdp1)

  const RESET_DEV := Dev([], map[], Scu(0, 0), Smpc(0, 0), Vdp1(0, 0, 0, 0, false))

  function Persisted(regs: map<nat, Word>, wordAddr: nat): Word {
    if wordAddr in regs then regs[wordAddr] else 0
  }

  /** Words answered from interrupt, SMPC or VDP1 state rather than from the register map. */
  predicate ReadsLatch(wordAddr: nat) {
    || wordAddr == SCU_IST || wordAddr == SCU_SOURCE_SET || wordAddr == SMPC_COMMAND || wordAddr == SMPC_RESULT
    || wordAddr == VDP1_IRQ_BRIDGE || wordAddr == VDP1_EVENT_STATUS
    || wordAddr == VDP1_COMMAND || wordAddr == VDP1_COMMAND_STATUS
  }

  function LatchValue(d: Dev, wordAddr: nat): Word
    requires ReadsLatch(wordAddr)
  {
    if wordAddr == SCU_IST then (d.scu.pending | d.scu.source) & !Materialized(SCU_IMS, Persisted(d.regs, SCU_IMS))
    else if wordAddr == SCU_SOURCE_SET then Low16(d.scu.source)
    else if wordAddr == SMPC_COMMAND then LowByte(d.smpc.lastCommand)
    else if wordAddr == SMPC_RESULT then d.smpc.result
    else if wordAddr == VDP1_IRQ_BRIDGE then BitZero(d.vdp.irqLevel)
    else if wordAddr == VDP1_EVENT_STATUS then EventStatus(d.vdp)
    else if wordAddr == VDP1_COMMAND then LowByte(d.vdp.lastCommand)
    else CommandStatus(d.vdp)
  }

  function EventStatus(v: Vdp1): Word {
    LowByte(v.eventCounter) | (BitZero(v.irqLevel) << 8)
  }

  function CommandStatus(v: Vdp1): Word {
    (if v.busy then 1 else 0) | (LowByte(v.completedCounter) << 8) | (LowByte(v.lastCommand) << 16)
  }

  /** The 32-bit value a read of this word selects its lanes from. */
  function WordValue(d: Dev, wordAddr: nat): Word {
    if ReadsLatch(wordAddr) then LatchValue(d, wordAddr)
    else Materialized(wordAddr, Persisted(d.regs, wordAddr))
  }

  function ReadDevice(d: Dev, addr: nat, size: nat): Word {
    Extract(WordValue(d, WordAddr(addr)), addr, size)
  }

  predicate InterruptWord(wordAddr: nat) {
    wordAddr == SCU_IST || wordAddr == SCU_IST_CLEAR || wordAddr == SCU_SOURCE_SET || wordAddr == SCU_SOURCE_CLEAR
  }

  predicate Vdp1Word(wordAddr: nat) {
    || wordAddr == VDP1_IRQ_BRIDGE || wordAddr == VDP1_COMMAND
    || wordAddr == VDP1_EVENT_TRIGGER || wordAddr == VDP1_COMMAND_COMPLETE
  }

  /** Words whose writes act on interrupt, SMPC or VDP1 state and never reach the register map. */
  predicate WritesLatch(wordAddr: nat) {
    InterruptWord(wordAddr) || Vdp1Word(wordAddr) || wordAddr == SMPC_COMMAND
  }

  /** A write that makes VDP1 signal the completion of a command. */
  predicate Completes(busy: bool, wordAddr: nat, bits: Word) {
    Flagged(bits) && (wordAddr == VDP1_EVENT_TRIGGER || (wordAddr == VDP1_COMMAND_COMPLETE && busy))
  }

  // How one write of already-positioned bits changes each part of the hub.

  function NextPending(pending: Word, wordAddr: nat, bits: Word): Word {
    if wordAddr == SCU_IST then Raised(pending, bits)
    else if wordAddr == SCU_IST_CLEAR then Lowered(pending, bits)
    else pending
  }

  function NextSource(source: Word, busy: bool, wordAddr: nat, bits: Word): Word {
    if wordAddr == SCU_SOURCE_SET then Raised(source, bits)
    else if wordAddr == SCU_SOURCE_CLEAR || wordAddr == SCU_IST_CLEAR then Lowered(source, bits)
    else if wordAddr == VDP1_IRQ_BRIDGE then WithVdp1Irq(source, Flagged(bits))
    else if Completes(busy, wordAddr, bits) then WithVdp1Irq(source, true)
    else source
  }

  function NextScu(s: Scu, busy: bool, wordAddr: nat, bits: Word): Scu {
    if InterruptWord(wordAddr) || Vdp1Word(wordAddr) then
      Scu(NextPending(s.pending, wordAddr, bits), NextSource(s.source, busy, wordAddr, bits))
    else s
  }

  function NextVdp1(v: Vdp1, wordAddr: nat, bits: Word): Vdp1 {
    if wordAddr == VDP1_IRQ_BRIDGE then v.(irqLevel := BitZero(bits))
    else if wordAddr == VDP1_COMMAND then v.(lastCommand := LowByte(bits), busy := NamesCommand(bits))
    else if Completes(v.busy, wordAddr, bits) then
      Vdp1(1, Bumped(v.eventCounter), v.lastCommand, Bumped(v.completedCounter), false)
    else v
  }

  function WriteRegister(regs: map<nat, Word>, wordAddr: nat, laneMask: Word, bits: Word): map<nat, Word> {
    var masked := laneMask & WritableMask(wordAddr);
    if masked == 0 then regs
    else regs[wordAddr := Merged(Persisted(regs, wordAddr), bits, masked)]
  }

  /** Effect of writing bits already moved onto their lanes. */
  function WriteWord(d: Dev, wordAddr: nat, laneMask: Word, bits: Word): Dev {
    Dev(d.writes,
        if WritesLatch(wordAddr) then d.regs else WriteRegister(d.regs, wordAddr, laneMask, bits),
        NextScu(d.scu, d.vdp.busy, wordAddr, bits),
        if wordAddr == SMPC_COMMAND then Smpc(LowByte(bits), SmpcAnswer(bits)) else d.smpc,
        NextVdp1(d.vdp, wordAddr, bits))
  }

  function WriteDevice(d: Dev, t: Tick, cpu: int, addr: nat, size: nat, value: Word): Dev {
    WriteWord(d.(writes := d.writes + [WriteLog(t, cpu, addr, value)]),
              WordAddr(addr), LaneMask(addr, size), WriteBits(addr, size, value))
  }

  class DeviceHub {
    var writes: seq<WriteLog>
    var mmioRegs: map<nat, Word>
    var scu: Scu
    var smpc: Smpc
    var vdp1: Vdp1

    ghost function State(): Dev
      reads this
    {
      Dev(writes, mmioRegs, scu, smpc, vdp1)
    }

    constructor ()
      ensures State() == RESET_DEV
    {
      writes, mmioRegs := [], map[];
      scu, smpc, vdp1 := Scu(0, 0), Smpc(0, 0), Vdp1(0, 0, 0, 0, false);
    }

    method ReadLatch(wordAddr: nat) returns (value: Word)
      requires ReadsLatch(wordAddr)
      ensures value == LatchValue(State(), wordAddr)
    {
      if wordAddr == SCU_IST {
        var ims := Materialized(SCU_IMS, Persisted(mmioRegs, SCU_IMS));
        value := (scu.pending | scu.source) & !ims;
      } else if wordAddr == SCU_SOURCE_SET {
        value := Low16(scu.source);
      } else if wordAddr == SMPC_COMMAND {
        value := LowByte(smpc.lastCommand);
      } else if wordAddr == SMPC_RESULT {
        value := smpc.result;
      } else if wordAddr == VDP1_IRQ_BRIDGE {
        value := BitZero(vdp1.irqLevel);
      } else if wordAddr == VDP1_EVENT_STATUS {
        value := EventStatus(vdp1);
      } else if wordAddr == VDP1_COMMAND {
        value := LowByte(vdp1.lastCommand);
      } else {
        value := CommandStatus(vdp1);
      }
    }

    method Read(addr: nat, size: nat) returns (r: Word)
      ensures r == ReadDevice(State(), addr, size)
    {
      var wordAddr := WordAddr(addr);
      var value: Word;
      if ReadsLatch(wordAddr) {
        value := ReadLatch(wordAddr);
      } else {
        value := Materialized(wordAddr, Persisted(mmioRegs, wordAddr));
      }
      r := Extract(value, addr, size);
    }

    method Write(t: Tick, cpu: int, addr: nat, size: nat, value: Word)
      modifies this
      ensures State() == WriteDevice(old(State()), t, cpu, addr, size, value)
    {
      writes := writes + [WriteLog(t, cpu, addr, value)];
      WriteLanes(WordAddr(addr), LaneMask(addr, size), WriteBits(addr, size, value));
    }

    method WriteLanes(wordAddr: nat, laneMask: Word, bits: Word)
      modifies this
      ensures State() == WriteWord(old(State()), wordAddr, laneMask, bits)
    {
      if InterruptWord(wordAddr) {
        WriteInterrupt(wordAddr, bits);
      } else if Vdp1Word(wordAddr) {
        WriteVdp1(wordAddr, bits);
      } else if wordAddr == SMPC_COMMAND {
        smpc := Smpc(LowByte(bits), SmpcAnswer(bits));
      } else {
        mmioRegs := WriteRegister(mmioRegs, wordAddr, laneMask, bits);
      }
    }

    method WriteInterrupt(wordAddr: nat, bits: Word)
      requires InterruptWord(wordAddr)
      modifies `scu
      ensures scu == NextScu(old(scu), vdp1.busy, wordAddr, bits)
    {
      if wordAddr == SCU_IST {
        scu := scu.(pending := Raised(scu.pending, bits));
      } else if wordAddr == SCU_IST_CLEAR {
        scu := Scu(Lowered(scu.pending, bits), Lowered(scu.source, bits));
      } else if wordAddr == SCU_SOURCE_SET {
        scu := scu.(source := Raised(scu.source, bits));
      } else {
        scu := scu.(source := Lowered(scu.source, bits));
      }
    }

    method WriteVdp1(wordAddr: nat, bits: Word)
      requires Vdp1Word(wordAddr)
      modifies `scu, `vdp1
      ensures scu == NextScu(old(scu), old(vdp1.busy), wordAddr, bits)
      ensures vdp1 == NextVdp1(old(vdp1), wordAddr, bits)
    {
      if wordAddr == VDP1_IRQ_BRIDGE {
        vdp1 := vdp1.(irqLevel := BitZero(bits));
        scu := scu.(source := WithVdp1Irq(scu.source, Flagged(bits)));
      } else if wordAddr == VDP1_COMMAND {
        vdp1 := vdp1.(lastCommand := LowByte(bits), busy := NamesCommand(bits));
      } else if Flagged(bits) && (wordAddr == VDP1_EVENT_TRIGGER || vdp1.busy) {
        SignalVdp1Completion();
      }
    }

    method SignalVdp1Completion()
      modifies `vdp1, `scu
      ensures vdp1 == Vdp1(1, Bumped(old(vdp1).eventCounter), old(vdp1).lastCommand, Bumped(old(vdp1).completedCounter), false)
      ensures scu == old(scu).(source := WithVdp1Irq(old(scu).source, true))
    {
      vdp1 := vdp1.(eventCounter := Bumped(vdp1.eventCounter), completedCounter := Bumped(vdp1.completedCounter));
      vdp1 := vdp1.(irqLevel := 1);
      scu := scu.(source := WithVdp1Irq(scu.source, true));
      vdp1 := vdp1.(busy := false);
    }
  }
}
