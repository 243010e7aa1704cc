/** A data access of the SH-2 core on the bus: loads, stores and read-modify-write. */
module Sh2Accesses {
  import opened Prelude
  import opened Memory
  import opened Bus
  import opened Sh2Cores
  import opened Sh2Exceptions
  import opened Sh2Loads

  /** An access the bus accepts, to memory, outside a delay slot. */
  predicate Accessing(m: Machine, p: PendingMem) {
    && m.core.pending == Some(p) && m.core.exceptionVector.None? && m.core.branch.None? && Clear(m.bus, m.core)
    && p.size in {1, 2, 4} && p.addr + p.size <= |m.bus.ram| && !IsMmio(p.addr)
  }

  predicate SameRegisters(c: CoreState, d: CoreState) {
    d.rest == c.rest && d.sr == c.sr && d.vbr == c.vbr && d.r15 == c.r15
  }

  lemma AccessCommitted(cfg: Config, b: BusState, c: CoreState, p: PendingMem, sequence: nat)
    requires Clear(b, c) && p.size in {1, 2, 4} && p.addr + p.size <= |b.ram| && !IsMmio(p.addr)
    ensures var done := CommitOne(cfg, b, OpOf(c, p, sequence));
            && done.bus.ram == (if Writes(p.kind) then Store(b.ram, p.addr, p.size, p.value) else b.ram)
            && (!Writes(p.kind) ==> done.response.value == Load(b.ram, p.addr, p.size))
  {
    hide ToPhys, Load, Store, DevAfter, LatencyOf, FillsLine;
  }

  lemma AccessStep(cfg: Config, m: Machine, p: PendingMem, sequence: nat)
    requires Accessing(m, p)
    ensures Busy(m.core)
    ensures var r, done := BusStep(cfg, m, sequence), CommitOne(cfg, m.bus, OpOf(m.core, p, sequence));
            && r == Machine(Applied(m.core, p, done.response), done.bus) && Clear(r.bus, r.core)
            && r.bus.ram == (if Writes(p.kind) then Store(m.bus.ram, p.addr, p.size, p.value) else m.bus.ram)
            && (!Writes(p.kind) ==> done.response.value == Load(m.bus.ram, p.addr, p.size))
  {
    hide CommitOne, OpOf, Clear, Applied, Writes, Load, Store, IsMmio;
    EnteringIsNoOp(m.core);
    StepAccepted(cfg, m, sequence);
    AccessCommitted(cfg, m.bus, m.core, p, sequence);
  }

  lemma SameRest(c: CoreState, d: CoreState, n: nat, v: Word)
    requires SameRegisters(c, d)
    ensures SameRegisters(WithRest(c, n, v), WithRest(d, n, v))
  {
  }

  lemma SameRegister(c: CoreState, d: CoreState, n: nat, v: Word)
    requires SameRegisters(c, d)
    ensures SameRegisters(WithRegister(c, n, v), WithRegister(d, n, v))
  {
    hide WithRest, AddressOf;
    SameRest(c, d, n, v);
  }

  lemma SameSystem(c: CoreState, d: CoreState, v: Word)
    requires SameRegisters(c, d)
    ensures SameRegisters(c.(sr := v), d.(sr := v)) && SameRegisters(c.(vbr := AddressOf(v)), d.(vbr := AddressOf(v)))
  {
    hide AddressOf;
  }

  lemma SameLoad(c: CoreState, d: CoreState, p: PendingMem, value: Word)
    requires SameRegisters(c, d) && p.kind.DataRead?
    ensures SameRegisters(Loaded(c, p, value), Loaded(d, p, value))
  {
    hide SameRegisters, WithRest, WithRegister, Extended, AddressOf;
    match p.kind.load
    case General => SameRegister(c, d, p.kind.dst, Extended(p.size, value));
    case ToPr => SameRest(c, d, 15, value);
    case ToGbr => SameRest(c, d, 16, value);
    case ToMach => SameRest(c, d, 17, value);
    case ToMacl => SameRest(c, d, 18, value);
    case _ => SameSystem(c, d, value);
  }

  lemma SameBump(c: CoreState, d: CoreState, n: nat, size: nat)
    requires SameRegisters(c, d)
    ensures SameRegisters(Bumped(c, n, size), Bumped(d, n, size))
  {
    hide WithRest, Raised, Around;
    if n < |c.rest| {
      SameRest(c, d, n, Raised(c.rest[n], size));
    }
  }

  lemma SameWriteBack(c: CoreState, d: CoreState, p: PendingMem, value: Word)
    requires SameRegisters(c, d) && p.kind.DataRead?
    ensures SameRegisters(WrittenBack(c, p, value), WrittenBack(d, p, value))
  {
    hide Loaded, Bumped, SameRegisters;
    SameLoad(c, d, p, value);
    if PostIncrements(p.kind) {
      SameBump(Loaded(c, p, value), Loaded(d, p, value), p.kind.postInc.value, p.size);
    }
  }

  lemma AppliedLoad(c: CoreState, p: PendingMem, r: Response)
    requires p.kind.DataRead? && c.branch.None?
    ensures var d := Applied(c, p, r);
            d.pc == c.pc + 2 && d.pending.None? && SameRegisters(WrittenBack(c, p, r.value), d)
  {
    hide WrittenBack;
    var d := c.(time := c.time + r.stall, pending := None);
    SameWriteBack(c, d, p, r.value);
    WriteBackKeeps(d, p, r.value);
  }

  /** Pushes and stores write; every other pending operation reads. The access is one of the devices by its address. */
  lemma IssuedKind(c: CoreState, p: PendingMem, sequence: nat)
    ensures var op, device := OpOf(c, p, sequence), 0x05C0_0000 <= p.addr < 0x05E0_0000 || 0x05F0_0000 <= p.addr < 0x0600_0000;
            && op.cpuId == c.id && op.reqTime == c.time && op.sequence == sequence && op.producer == AutoProducer && !op.fillLine
            && op.addr == p.addr && op.size == p.size && op.data == p.value
            && if p.kind in {ExceptionPushSr, ExceptionPushPc, TrapaPushSr, TrapaPushPc, DataWrite}
               then op.kind == (if device then MmioWrite else Write) else op.kind == (if device then MmioRead else Read)
  {
  }

  /** A load leaves memory alone, puts what memory holds there into its register, and goes on past its instruction. */
  lemma LoadStep(cfg: Config, m: Machine, p: PendingMem, sequence: nat)
    requires Accessing(m, p) && p.kind.DataRead?
    ensures Busy(m.core)
    ensures var r := BusStep(cfg, m, sequence);
            && r.bus.ram == m.bus.ram && r.core.pc == m.core.pc + 2 && r.core.pending.None?
            && SameRegisters(WrittenBack(m.core, p, Load(m.bus.ram, p.addr, p.size)), r.core)
  {
    hide CommitOne, OpOf, Clear, Applied, WrittenBack, Load, Store, IsMmio, SameRegisters;
    AccessStep(cfg, m, p, sequence);
    AppliedLoad(m.core, p, CommitOne(cfg, m.bus, OpOf(m.core, p, sequence)).response);
  }

  lemma AppliedStore(c: CoreState, p: PendingMem, r: Response)
    requires p.kind == DataWrite && c.branch.None?
    ensures var d := Applied(c, p, r); d.pc == c.pc + 2 && d.pending.None? && SameRegisters(c, d)
  {
  }

  /** A store changes exactly its bytes of memory and no register. */
  lemma StoreStep(cfg: Config, m: Machine, p: PendingMem, sequence: nat)
    requires Accessing(m, p) && p.kind == DataWrite
    ensures Busy(m.core)
    ensures var r := BusStep(cfg, m, sequence);
            && r.bus.ram == Store(m.bus.ram, p.addr, p.size, p.value)
            && r.core.pc == m.core.pc + 2 && r.core.pending.None? && SameRegisters(m.core, r.core)
  {
    hide CommitOne, OpOf, Clear, Applied, Load, Store, IsMmio, SameRegisters;
    AccessStep(cfg, m, p, sequence);
    AppliedStore(m.core, p, CommitOne(cfg, m.bus, OpOf(m.core, p, sequence)).response);
  }

  lemma AppliedRmw(c: CoreState, p: PendingMem, r: Response)
    requires p.kind.RmwRead? && c.branch.None?
    ensures var d := Applied(c, p, r);
            && d.pending == Some(PendingMem(DataWrite, p.addr, 1, Combined(p.kind.how, p.kind.imm, r.value), 0))
            && d.pc == c.pc && d.branch.None? && d.exceptionVector == c.exceptionVector && SameRegisters(c, d)
  {
    hide Combined;
  }

  lemma OneByteLoaded(ram: seq<Byte>, a: nat)
    requires a < |ram|
    ensures Load(ram, a, 1) == ram[a] as Word
  {
    GatherStep(ram, a, 1, 1, ram[a]);
    LaneShifts(ram[a]);
    ZeroOr(ram[a] as Word);
  }

  lemma ZeroOr(v: Word)
    ensures 0 | v == v
  {
  }

  lemma LowestOf(v: Byte)
    ensures ((v as Word) & 0xFF) as Byte == v
  {
  }

  lemma OneByteStored(ram: seq<Byte>, a: nat, v: Byte)
    requires a < |ram|
    ensures Store(ram, a, 1, v as Word) == ram[a := v]
  {
    ByteShifts(v as Word);
    LowestOf(v);
    hide ByteOf;
    var after, updated := Store(ram, a, 1, v as Word), ram[a := v];
    assert forall i :: 0 <= i < |ram| ==> after[i] == updated[i];
  }

  /** A read-modify-write takes two operations and changes exactly the byte it reads, in the way it names, and no register. */
  lemma RmwSteps(cfg: Config, m: Machine, p: PendingMem, s: seq<nat>)
    requires Accessing(m, p) && p.kind.RmwRead? && p.size == 1 && |s| >= 2
    ensures Busy(m.core) && Busy(BusStep(cfg, m, s[0]).core)
    ensures var r := BusStep(cfg, BusStep(cfg, m, s[0]), s[1]);
            && r.bus.ram == m.bus.ram[p.addr := ByteResult(p.kind.how, p.kind.imm, m.bus.ram[p.addr])]
            && r.core.pc == m.core.pc + 2 && r.core.pending.None? && SameRegisters(m.core, r.core)
  {
    hide CommitOne, OpOf, Clear, Applied, Load, Store, IsMmio, Combined, ByteResult, BusStep;
    AccessStep(cfg, m, p, s[0]);
    var m1 := BusStep(cfg, m, s[0]);
    AppliedRmw(m.core, p, CommitOne(cfg, m.bus, OpOf(m.core, p, s[0])).response);
    OneByteLoaded(m.bus.ram, p.addr);
    CombinesBytes(p.kind.how, p.kind.imm, m.bus.ram[p.addr]);
    StoreStep(cfg, m1, m1.core.pending.value, s[1]);
    OneByteStored(m.bus.ram, p.addr, ByteResult(p.kind.how, p.kind.imm, m.bus.ram[p.addr]));
  }
}
