/** Exception and TRAPA entry and RTE of the SH-2 core bring back what they saved. */
module Sh2Exceptions {
  import opened Prelude
  import opened Memory
  import opened Bus
  import opened BusBatch
  import opened Sh2Cores

  // ----- what loading a register leaves alone -----

  /** Only SR, VBR, R15 and the other registers may differ. */
  predicate OnlyRegisters(c: CoreState, d: CoreState) {
    d == c.(sr := d.sr, vbr := d.vbr, r15 := d.r15, rest := d.rest)
  }

  predicate LoadsR15(k: Kind) {
    k.DataRead? && ((k.load == General && k.dst == 15) || (PostIncrements(k) && k.postInc.value == 15))
  }

  lemma WithRestKeeps(c: CoreState, n: nat, v: Word)
    ensures OnlyRegisters(c, WithRest(c, n, v)) && WithRest(c, n, v).r15 == c.r15
  {
  }

  lemma LoadedKeeps(c: CoreState, p: PendingMem, value: Word)
    requires p.kind.DataRead?
    ensures OnlyRegisters(c, Loaded(c, p, value))
    ensures !(p.kind.load == General && p.kind.dst == 15) ==> Loaded(c, p, value).r15 == c.r15
  {
    hide WithRest, AddressOf, Extended;
    match p.kind.load
    case General => WithRestKeeps(c, p.kind.dst, Extended(p.size, value));
    case ToPr => WithRestKeeps(c, 15, value);
    case ToGbr => WithRestKeeps(c, 16, value);
    case ToMach => WithRestKeeps(c, 17, value);
    case ToMacl => WithRestKeeps(c, 18, value);
    case _ =>
  }

  lemma BumpedKeeps(c: CoreState, n: nat, size: nat)
    ensures OnlyRegisters(c, Bumped(c, n, size)) && (n != 15 ==> Bumped(c, n, size).r15 == c.r15)
  {
    hide WithRest, Raised, Around;
    if n < |c.rest| {
      WithRestKeeps(c, n, Raised(c.rest[n], size));
    }
  }

  lemma WriteBackKeeps(c: CoreState, p: PendingMem, value: Word)
    requires p.kind.DataRead?
    ensures OnlyRegisters(c, WrittenBack(c, p, value))
    ensures !LoadsR15(p.kind) ==> WrittenBack(c, p, value).r15 == c.r15
  {
    hide Loaded, Bumped;
    LoadedKeeps(c, p, value);
    if PostIncrements(p.kind) {
      BumpedKeeps(Loaded(c, p, value), p.kind.postInc.value, p.size);
    }
  }

  lemma CompletedKeeps(d: CoreState)
    ensures Completed(d).id == d.id && Completed(d).time == d.time
  {
    hide PlusTwo;
  }

  // ----- what a bus step leaves behind -----

  /** RAM, so that a pushed word can be popped again. */
  predicate InRam(b: BusState, phys: nat) {
    phys + 4 <= |b.ram| && !IsMmio(phys)
  }

  /** The arbiter has seen nothing from this CPU later than its clock and has not halted. */
  predicate Clear(b: BusState, c: CoreState) {
    && IsCpu(c.id) && NeverHalts(b)
    && (var last := b.lastReq.Get(SlotFor(c.id)); last.None? || last.value <= c.time)
    && (var last := b.lastEnqueued.Get(SlotFor(c.id)); last.None? || last.value <= c.time)
  }

  /** Any operation, refused or not, leaves the way clear for the next; one that writes nothing leaves memory alone. */
  lemma CommitClear(cfg: Config, b: BusState, c: CoreState, p: PendingMem, sequence: nat)
    requires Clear(b, c)
    ensures var done := CommitOne(cfg, b, OpOf(c, p, sequence));
            Clear(done.bus, c) && (!Writes(p.kind) ==> done.bus.ram == b.ram)
  {
    hide ToPhys, Load, Store, ValueOf, DevAfter, LatencyOf, FillsLine;
  }

  /** A word in RAM is written and read as asked. */
  lemma CommitAccepted(cfg: Config, b: BusState, c: CoreState, p: PendingMem, sequence: nat)
    requires Clear(b, c) && InRam(b, p.addr) && p.size == 4
    ensures var done := CommitOne(cfg, b, OpOf(c, p, sequence));
            && done.bus.ram == (if Writes(p.kind) then Store(b.ram, p.addr, 4, p.value) else b.ram)
            && (!Writes(p.kind) ==> done.response.value == Load(b.ram, p.addr, 4))
  {
    hide ToPhys, Load, Store, DevAfter, LatencyOf, FillsLine;
  }

  /** The same for a whole step: the memory it leaves and the answer it applies. */
  lemma StepAccepted(cfg: Config, m: Machine, sequence: nat)
    requires Busy(m.core) && Clear(m.bus, m.core)
    ensures var c := Entering(m.core);
            && c.pending.Some?
            && var p, done := c.pending.value, CommitOne(cfg, m.bus, OpOf(c, c.pending.value, sequence));
            && BusStep(cfg, m, sequence) == Machine(Applied(c, p, done.response), done.bus)
            && Clear(done.bus, Applied(c, p, done.response))
            && (!Writes(p.kind) ==> done.bus.ram == m.bus.ram)
            && (InRam(m.bus, p.addr) && p.size == 4 ==>
                 && done.bus.ram == (if Writes(p.kind) then Store(m.bus.ram, p.addr, 4, p.value) else m.bus.ram)
                 && (!Writes(p.kind) ==> done.response.value == Load(m.bus.ram, p.addr, 4)))
  {
    hide ToPhys, Load, Store, CommitOne, OpOf, Clear, InRam, Applied, Entering, Writes;
    var c := Entering(m.core);
    EnteringFacts(m.core);
    ClearLater(m.bus, m.core, c);
    CommitClear(cfg, m.bus, c, c.pending.value, sequence);
    if InRam(m.bus, c.pending.value.addr) && c.pending.value.size == 4 {
      CommitAccepted(cfg, m.bus, c, c.pending.value, sequence);
    }
    var done := CommitOne(cfg, m.bus, OpOf(c, c.pending.value, sequence));
    AppliedFacts(c, c.pending.value, done.response);
    ClearLater(done.bus, c, Applied(c, c.pending.value, done.response));
  }

  lemma EnteringFacts(c: CoreState)
    requires Busy(c)
    ensures Entering(c).pending.Some? && Entering(c).id == c.id && Entering(c).time == c.time
  {
  }

  lemma ContinuedFacts(d: CoreState, p: PendingMem, value: Word)
    ensures Continued(d, p, value).id == d.id && Continued(d, p, value).time == d.time
  {
    hide ToPhys, Down, Up, Vector, PlusTwo, Combined, WrittenBack, Completed, Returning, LoadsR15;
    match p.kind
    case DataRead(_, _, _) =>
      WriteBackKeeps(d, p, value);
      CompletedKeeps(WrittenBack(d, p, value));
    case DataWrite => CompletedKeeps(d);
    case RtePopSr => ReturningKeeps(d, value);
    case _ =>
  }

  lemma ReturningKeeps(d: CoreState, value: Word)
    ensures Returning(d, value).id == d.id && Returning(d, value).time == d.time
  {
    hide Up;
  }

  lemma AppliedFacts(c: CoreState, p: PendingMem, r: Response)
    ensures Applied(c, p, r).id == c.id && Applied(c, p, r).time >= c.time
  {
    hide Continued;
    ContinuedFacts(c.(time := c.time + r.stall, pending := None), p, r.value);
  }

  lemma ClearLater(b: BusState, c: CoreState, d: CoreState)
    requires Clear(b, c) && d.id == c.id && d.time >= c.time
    ensures Clear(b, d)
  {
  }

  // ----- the frame -----

  /** Between instructions, with nothing pending. */
  predicate Boundary(c: CoreState) {
    c.pending.None? && c.branch.None? && c.exceptionVector.None? && !c.restoring
  }

  /** Where the two words of the exception frame go: 4 and 8 bytes below the stack pointer, at the low 29 bits. */
  function SrSlot(r15: nat): nat {
    (r15 + 0x1_0000_0000 - 4) % 0x2000_0000
  }

  function PcSlot(r15: nat): nat {
    (r15 + 0x1_0000_0000 - 8) % 0x2000_0000
  }

  /** The stack pointer below the frame. */
  function FrameTop(r15: nat): nat {
    (r15 + 0x1_0000_0000 - 8) % 0x1_0000_0000
  }

  lemma LowBitsOfWrapped(x: nat)
    ensures x % 0x1_0000_0000 % 0x2000_0000 == x % 0x2000_0000
  {
  }

  lemma DownTwice(r15: nat)
    requires r15 < ADDRESSES
    ensures Down(r15) == (r15 + 0x1_0000_0000 - 4) % 0x1_0000_0000
    ensures Down(Down(r15)) == FrameTop(r15) && Up(FrameTop(r15)) == Down(r15)
  {
  }

  lemma PhysIs(a: nat)
    ensures ToPhys(a) == a % 0x2000_0000
  {
  }

  lemma FrameAddresses(r15: nat)
    requires r15 < ADDRESSES
    ensures ToPhys(Down(r15)) == SrSlot(r15) && ToPhys(Down(Down(r15))) == PcSlot(r15) && Down(Down(r15)) == FrameTop(r15)
    ensures ToPhys(FrameTop(r15)) == PcSlot(r15) && Up(FrameTop(r15)) == Down(r15)
  {
    hide ToPhys, Down, Up;
    DownTwice(r15);
    PhysIs(Down(r15));
    PhysIs(FrameTop(r15));
    LowBitsOfWrapped(r15 + 0x1_0000_0000 - 4);
    LowBitsOfWrapped(r15 + 0x1_0000_0000 - 8);
  }

  /** Where the address of handler n is kept. */
  function HandlerAt(vbr: nat, n: nat): nat {
    (vbr + 4 * n) % 0x2000_0000
  }

  lemma VectorIs(vbr: nat, n: nat)
    ensures Vector(vbr, n) == HandlerAt(vbr, n)
  {
  }

  lemma HandlerAtIs(vbr: nat, n: nat)
    ensures HandlerAt(vbr, n) == (vbr + 4 * n) % 0x2000_0000
  {
  }

  lemma NextPc(pc: Word)
    ensures PlusTwo(pc) == pc + 2
  {
  }

  /** Both frame words are in RAM. */
  predicate FrameOk(b: BusState, r15: nat) {
    r15 < ADDRESSES && InRam(b, SrSlot(r15)) && InRam(b, PcSlot(r15))
  }

  predicate WordsApart(x: nat, y: nat) {
    x + 4 <= y || y + 4 <= x
  }

  /** The vector is in RAM too and not under the frame. */
  predicate VectorOk(b: BusState, r15: nat, vector: nat) {
    InRam(b, vector) && WordsApart(vector, SrSlot(r15)) && WordsApart(vector, PcSlot(r15))
  }

  /** The core inside a handler: the frame below the old stack pointer holds SR and the return address. */
  predicate InHandler(c: CoreState, b: BusState, r15: nat, sr: Word, returnPc: Word) {
    && Boundary(c) && c.hasContext && c.r15 == FrameTop(r15) && Clear(b, c)
    && InRam(b, SrSlot(r15)) && InRam(b, PcSlot(r15))
    && Load(b.ram, SrSlot(r15), 4) == sr && Load(b.ram, PcSlot(r15), 4) == returnPc
  }

  /** Stepping down from an aligned or unaligned address, also around zero, can be stepped up again. */
  lemma UpDown(r15: nat)
    requires r15 < ADDRESSES
    ensures Up(Down(r15)) == r15 && Down(r15) < ADDRESSES
  {
  }

  lemma FrameWordsApart(r15: nat)
    requires r15 < ADDRESSES
    ensures WordsApart(SrSlot(r15), PcSlot(r15))
  {
  }

  lemma WholeWord(v: Word)
    ensures Truncated(v, 4) == v
  {
  }

  /** Two pushes below the stack pointer; a word apart from both is left alone. */
  lemma FramePushed(ram: seq<Byte>, a: nat, x: Word, b: nat, y: Word)
    requires a + 4 <= |ram| && b + 4 <= |ram| && WordsApart(a, b)
    ensures var r := Store(Store(ram, a, 4, x), b, 4, y);
            && Load(r, a, 4) == x && Load(r, b, 4) == y
            && forall vector :: WordsApart(vector, a) && WordsApart(vector, b) ==> Load(r, vector, 4) == Load(ram, vector, 4)
  {
    hide Load, Store, Truncated;
    var r1 := Store(ram, a, 4, x);
    LoadStored(r1, b, 4, y, a, 4);
    LoadStored(ram, a, 4, x, a, 4);
    LoadStored(r1, b, 4, y, b, 4);
    forall vector | WordsApart(vector, a) && WordsApart(vector, b)
      ensures Load(Store(r1, b, 4, y), vector, 4) == Load(ram, vector, 4)
    {
      LoadStored(ram, a, 4, x, vector, 4);
      LoadStored(r1, b, 4, y, vector, 4);
    }
    WholeWord(x);
    WholeWord(y);
  }

  // ----- entry -----

  /** What the steps of an entry leave alone. */
  predicate SameContext(c: CoreState, d: CoreState) {
    && d.id == c.id && d.pc == c.pc && d.sr == c.sr && d.vbr == c.vbr && d.rest == c.rest
    && d.branch == c.branch && d.exceptionVector.None? && d.restoring == c.restoring
  }

  predicate PushesSr(k: Kind) {
    k == ExceptionPushSr || k == TrapaPushSr
  }

  predicate PushesPc(k: Kind) {
    k == ExceptionPushPc || k == TrapaPushPc
  }

  predicate ReadsVector(k: Kind) {
    k == ExceptionVectorRead || k == TrapaVectorRead
  }

  /** The core is about to push SR for the exception or TRAPA numbered n, going back to returnPc. */
  predicate AboutToPushSr(c: CoreState, r15: nat, n: nat, returnPc: Word) {
    && c.pending.Some? && PushesSr(c.pending.value.kind) && c.r15 == Down(r15) && c.exceptionVector.None?
    && c.pending.value.addr == SrSlot(r15) && c.pending.value.size == 4 && c.pending.value.value == c.sr
    && if c.pending.value.kind == ExceptionPushSr then c.pending.value.aux == n && returnPc == c.pc
       else c.trapaImm == Some(n) && returnPc == PlusTwo(c.pc)
  }

  predicate AboutToPushPc(c: CoreState, r15: nat, n: nat, returnPc: Word) {
    && c.pending.Some? && PushesPc(c.pending.value.kind) && c.r15 == FrameTop(r15) && c.exceptionVector.None?
    && c.pending.value.addr == PcSlot(r15) && c.pending.value.size == 4 && c.pending.value.value == returnPc
    && if c.pending.value.kind == ExceptionPushPc then c.pending.value.aux == n else c.trapaImm == Some(n)
  }

  lemma AfterPushSr(c: CoreState, r15: nat, n: nat, returnPc: Word, r: Response)
    requires AboutToPushSr(c, r15, n, returnPc) && r15 < ADDRESSES
    ensures AboutToPushPc(Applied(c, c.pending.value, r), r15, n, returnPc) && SameContext(c, Applied(c, c.pending.value, r))
  {
    FrameAddresses(r15);
    hide ToPhys, Down, Up, Vector, PlusTwo, Completed, WrittenBack, Combined, SrSlot, PcSlot, FrameTop;
  }

  lemma AfterPushPc(c: CoreState, r15: nat, n: nat, returnPc: Word, r: Response)
    requires AboutToPushPc(c, r15, n, returnPc)
    ensures var d := Applied(c, c.pending.value, r);
            && SameContext(c, d) && d.r15 == c.r15 && d.pending.Some? && ReadsVector(d.pending.value.kind)
            && d.pending.value.addr == Vector(c.vbr, n) && d.pending.value.size == 4
  {
    hide ToPhys, Down, Up, Vector, PlusTwo, Completed, WrittenBack, Combined;
  }

  lemma AfterVectorRead(c: CoreState, r: Response)
    requires c.pending.Some? && ReadsVector(c.pending.value.kind) && c.exceptionVector.None?
    ensures var d := Applied(c, c.pending.value, r);
            SameContext(c.(pc := r.value), d) && d.r15 == c.r15 && d.hasContext && d.pending.None?
  {
    hide ToPhys, Down, Up, Vector, PlusTwo, Completed, WrittenBack, Combined;
  }

  lemma KindsWrite(k: Kind)
    ensures PushesSr(k) || PushesPc(k) ==> Writes(k)
    ensures ReadsVector(k) ==> !Writes(k)
  {
  }

  lemma EnteringIsNoOp(c: CoreState)
    requires c.exceptionVector.None?
    ensures Entering(c) == c
  {
  }

  /** Three bus steps in a row, if the core has that much to do. */
  function Entered(cfg: Config, m: Machine, s: seq<nat>): Option<Machine>
    requires |s| >= 3
  {
    if !Busy(m.core) then None
    else
      var m1 := BusStep(cfg, m, s[0]);
      if !Busy(m1.core) then None
      else
        var m2 := BusStep(cfg, m1, s[1]);
        if !Busy(m2.core) then None else Some(BusStep(cfg, m2, s[2]))
  }

  lemma PushSrStep(cfg: Config, m: Machine, c: CoreState, r15: nat, n: nat, returnPc: Word, sequence: nat)
    requires Busy(m.core) && c == Entering(m.core) && AboutToPushSr(c, r15, n, returnPc) && Clear(m.bus, m.core) && FrameOk(m.bus, r15)
    ensures var m1 := BusStep(cfg, m, sequence);
            && AboutToPushPc(m1.core, r15, n, returnPc) && SameContext(c, m1.core) && Busy(m1.core) && Clear(m1.bus, m1.core)
            && m1.bus.ram == Store(m.bus.ram, SrSlot(r15), 4, c.sr)
  {
    hide ToPhys, IsMmio, Load, Store, CommitOne, OpOf, Down, Vector, PlusTwo, BusStep, Clear, Applied, Entering, Writes, PushesSr, PushesPc, SrSlot, PcSlot, FrameTop;
    KindsWrite(c.pending.value.kind);
    StepAccepted(cfg, m, sequence);
    AfterPushSr(c, r15, n, returnPc, CommitOne(cfg, m.bus, OpOf(c, c.pending.value, sequence)).response);
  }

  lemma PushPcStep(cfg: Config, m: Machine, r15: nat, n: nat, returnPc: Word, sequence: nat)
    requires Busy(m.core) && AboutToPushPc(m.core, r15, n, returnPc) && Clear(m.bus, m.core) && FrameOk(m.bus, r15)
    ensures var m1 := BusStep(cfg, m, sequence);
            && SameContext(m.core, m1.core) && m1.core.r15 == m.core.r15 && Busy(m1.core) && Clear(m1.bus, m1.core)
            && m1.core.pending.Some? && ReadsVector(m1.core.pending.value.kind)
            && m1.core.pending.value.addr == Vector(m.core.vbr, n) && m1.core.pending.value.size == 4
            && m1.bus.ram == Store(m.bus.ram, PcSlot(r15), 4, returnPc)
  {
    hide ToPhys, IsMmio, Load, Store, CommitOne, OpOf, Down, Vector, PlusTwo, BusStep, Clear, Applied, Entering, Writes, PushesSr, PushesPc, SrSlot, PcSlot, FrameTop,
         ReadsVector;
    EnteringIsNoOp(m.core);
    KindsWrite(m.core.pending.value.kind);
    StepAccepted(cfg, m, sequence);
    AfterPushPc(m.core, r15, n, returnPc, CommitOne(cfg, m.bus, OpOf(m.core, m.core.pending.value, sequence)).response);
  }

  lemma VectorStep(cfg: Config, m: Machine, sequence: nat)
    requires Busy(m.core) && m.core.pending.Some? && ReadsVector(m.core.pending.value.kind) && m.core.exceptionVector.None? && Clear(m.bus, m.core)
    requires m.core.pending.value.size == 4
    ensures var h := BusStep(cfg, m, sequence);
            && SameContext(m.core.(pc := h.core.pc), h.core) && h.core.r15 == m.core.r15 && h.core.hasContext && h.core.pending.None?
            && Clear(h.bus, h.core) && h.bus.ram == m.bus.ram
            && (InRam(m.bus, m.core.pending.value.addr) ==> h.core.pc == Load(m.bus.ram, m.core.pending.value.addr, 4))
  {
    hide Load, Store, CommitOne, OpOf, BusStep, Clear, Applied, Entering, Writes, InRam, ReadsVector;
    EnteringIsNoOp(m.core);
    KindsWrite(m.core.pending.value.kind);
    StepAccepted(cfg, m, sequence);
    AfterVectorRead(m.core, CommitOne(cfg, m.bus, OpOf(m.core, m.core.pending.value, sequence)).response);
  }

  /** From the push of SR, three steps lead into the handler, with SR and the return address on the stack, wherever the
      vector points; if it can be read, to the address it holds. */
  lemma EntrySteps(cfg: Config, m: Machine, c: CoreState, r15: nat, n: nat, returnPc: Word, s: seq<nat>)
    requires Busy(m.core) && c == Entering(m.core) && AboutToPushSr(c, r15, n, returnPc) && |s| >= 3
    requires c.branch.None? && !c.restoring && Clear(m.bus, m.core) && FrameOk(m.bus, r15)
    ensures Entered(cfg, m, s).Some?
    ensures var h := Entered(cfg, m, s).value;
            && InHandler(h.core, h.bus, r15, c.sr, returnPc)
            && (VectorOk(m.bus, r15, HandlerAt(c.vbr, n)) ==> h.core.pc == Load(m.bus.ram, HandlerAt(c.vbr, n), 4))
            && h.core.rest == c.rest && h.core.vbr == c.vbr && h.core.sr == c.sr
  {
    FrameWordsApart(r15);
    VectorIs(c.vbr, n);
    hide ToPhys, IsMmio, Load, Store, Vector, BusStep, Clear, Entering, AboutToPushSr, PushesPc, ReadsVector, WordsApart,
         SrSlot, PcSlot, FrameTop, HandlerAt;
    FramePushed(m.bus.ram, SrSlot(r15), c.sr, PcSlot(r15), returnPc);
    PushSrStep(cfg, m, c, r15, n, returnPc, s[0]);
    var m1 := BusStep(cfg, m, s[0]);
    PushPcStep(cfg, m1, r15, n, returnPc, s[1]);
    VectorStep(cfg, BusStep(cfg, m1, s[1]), s[2]);
  }

  /** An exception has been requested and the core is between instructions. */
  predicate AtException(c: CoreState, vector: nat) {
    c.pending.None? && c.branch.None? && !c.restoring && c.exceptionVector == Some(vector)
  }

  lemma ExceptionEnters(cfg: Config, m: Machine, vector: nat, s: seq<nat>)
    requires AtException(m.core, vector) && Clear(m.bus, m.core) && FrameOk(m.bus, m.core.r15) && |s| >= 3
    ensures Entered(cfg, m, s).Some?
    ensures var h := Entered(cfg, m, s).value;
            && InHandler(h.core, h.bus, m.core.r15, m.core.sr, m.core.pc)
            && (VectorOk(m.bus, m.core.r15, HandlerAt(m.core.vbr, vector)) ==> h.core.pc == Load(m.bus.ram, HandlerAt(m.core.vbr, vector), 4))
            && h.core.rest == m.core.rest && h.core.vbr == m.core.vbr && h.core.sr == m.core.sr
  {
    FrameRange(m.bus, m.core.r15);
    FrameAddresses(m.core.r15);
    hide ToPhys, FrameOk, VectorOk, Load, Down, Vector, PlusTwo, BusStep, Clear, InHandler, Entered, SrSlot, PcSlot, FrameTop, HandlerAt;
    EntrySteps(cfg, m, Entering(m.core), m.core.r15, vector, m.core.pc, s);
  }

  lemma TrapaEnters(cfg: Config, m: Machine, imm: nat, returnPc: Word, s: seq<nat>)
    requires Boundary(m.core) && Clear(m.bus, m.core) && FrameOk(m.bus, m.core.r15) && |s| >= 3 && returnPc == PlusTwo(m.core.pc)
    ensures Entered(cfg, Machine(AfterInstr(m.core, Trapa(imm)), m.bus), s).Some?
    ensures var h := Entered(cfg, Machine(AfterInstr(m.core, Trapa(imm)), m.bus), s).value;
            && InHandler(h.core, h.bus, m.core.r15, m.core.sr, returnPc)
            && (VectorOk(m.bus, m.core.r15, HandlerAt(m.core.vbr, imm)) ==> h.core.pc == Load(m.bus.ram, HandlerAt(m.core.vbr, imm), 4))
            && h.core.rest == m.core.rest && h.core.vbr == m.core.vbr && h.core.sr == m.core.sr
  {
    FrameRange(m.bus, m.core.r15);
    FrameAddresses(m.core.r15);
    hide ToPhys, FrameOk, VectorOk, Load, Down, Vector, PlusTwo, BusStep, Clear, InHandler, Entered, SrSlot, PcSlot, FrameTop, HandlerAt;
    var m0 := Machine(AfterInstr(m.core, Trapa(imm)), m.bus);
    EnteringIsNoOp(m0.core);
    ClearLater(m.bus, m.core, m0.core);
    EntrySteps(cfg, m0, m0.core, m.core.r15, imm, returnPc, s);
  }

  /** Three steps take an accepted exception into its handler, with SR and PC on the stack and at the address kept for it. */
  lemma ExceptionEntry(cfg: Config, m: Machine, vector: nat, s: seq<nat>)
    requires AtException(m.core, vector) && Clear(m.bus, m.core) && FrameOk(m.bus, m.core.r15) && |s| >= 3
    ensures Entered(cfg, m, s).Some?
    ensures var h := Entered(cfg, m, s).value;
            && InHandler(h.core, h.bus, m.core.r15, m.core.sr, m.core.pc)
            && (VectorOk(m.bus, m.core.r15, (m.core.vbr + 4 * vector) % 0x2000_0000) ==>
                 h.core.pc == Load(m.bus.ram, (m.core.vbr + 4 * vector) % 0x2000_0000, 4))
            && h.core.rest == m.core.rest && h.core.vbr == m.core.vbr && h.core.sr == m.core.sr
  {
    hide *;
    ExceptionEnters(cfg, m, vector, s);
    HandlerAtIs(m.core.vbr, vector);
  }

  /** TRAPA and three steps do the same, with the address after TRAPA on the stack. */
  lemma TrapaEntry(cfg: Config, m: Machine, imm: nat, s: seq<nat>)
    requires Boundary(m.core) && Clear(m.bus, m.core) && FrameOk(m.bus, m.core.r15) && |s| >= 3
    ensures Entered(cfg, Machine(AfterInstr(m.core, Trapa(imm)), m.bus), s).Some?
    ensures var h := Entered(cfg, Machine(AfterInstr(m.core, Trapa(imm)), m.bus), s).value;
            && InHandler(h.core, h.bus, m.core.r15, m.core.sr, m.core.pc + 2)
            && (VectorOk(m.bus, m.core.r15, (m.core.vbr + 4 * imm) % 0x2000_0000) ==>
                 h.core.pc == Load(m.bus.ram, (m.core.vbr + 4 * imm) % 0x2000_0000, 4))
            && h.core.rest == m.core.rest && h.core.vbr == m.core.vbr && h.core.sr == m.core.sr
  {
    hide *;
    NextPc(m.core.pc);
    TrapaEnters(cfg, m, imm, m.core.pc + 2, s);
    HandlerAtIs(m.core.vbr, imm);
  }

  // ----- return: RTE and its two pops -----

  /** RTE and two bus steps, up to the delay slot. */
  function Popped(cfg: Config, left: Machine, s: seq<nat>): Option<Machine>
    requires |s| >= 5
  {
    var m0 := Machine(AfterInstr(left.core, Rte), left.bus);
    if !Busy(m0.core) then None
    else
      var m1 := BusStep(cfg, m0, s[3]);
      if !Busy(m1.core) then None
      else
        var m2 := BusStep(cfg, m1, s[4]);
        if Busy(m2.core) then None else Some(m2)
  }

  /** In the delay slot of RTE, with the return address and SR waiting. */
  predicate InSlot(c: CoreState, sr: Word, returnPc: Word) {
    && c.pending.None? && c.exceptionVector.None? && c.branch == Some(returnPc)
    && c.restoring && c.newSr == sr && !c.hasContext
  }

  lemma AfterPopPc(c: CoreState, r: Response)
    requires c.pending.Some? && c.pending.value.kind == RtePopPc && c.exceptionVector.None?
    ensures var d := Applied(c, c.pending.value, r);
            && d.id == c.id && d.newPc == r.value && d.r15 == Up(c.r15) && d.exceptionVector.None?
            && d.pending == Some(PendingMem(RtePopSr, ToPhys(Up(c.r15)), 4, 0, 0))
  {
    hide ToPhys, Down, Up, Vector, PlusTwo, Completed, WrittenBack, Combined;
  }

  lemma AfterPopSr(c: CoreState, r: Response)
    requires c.pending.Some? && c.pending.value.kind == RtePopSr && c.exceptionVector.None?
    ensures var d := Applied(c, c.pending.value, r); InSlot(d, r.value, c.newPc) && d.r15 == Up(c.r15)
  {
    hide ToPhys, Down, Up, Vector, PlusTwo, Completed, WrittenBack, Combined;
  }

  /** RTE starts a return exactly when there is a return context, and the return uses it up. */
  lemma PopsWithContext(cfg: Config, left: Machine, s: seq<nat>)
    requires Boundary(left.core) && |s| >= 5
    ensures Popped(cfg, left, s).Some? <==> left.core.hasContext
    ensures Popped(cfg, left, s).Some? ==> !Popped(cfg, left, s).value.core.hasContext
    ensures !left.core.hasContext ==> AfterInstr(left.core, Rte) == left.core.(pc := left.core.pc + 2, time := left.core.time + 1, executed := left.core.executed + 1)
  {
    hide ToPhys, Down, Up, Vector, PlusTwo, CommitOne, OpOf, Applied;
    NextPc(left.core.pc);
    var m0 := Machine(AfterInstr(left.core, Rte), left.bus);
    if left.core.hasContext {
      EnteringIsNoOp(m0.core);
      AfterPopPc(m0.core, CommitOne(cfg, m0.bus, OpOf(m0.core, m0.core.pending.value, s[3])).response);
      var m1 := BusStep(cfg, m0, s[3]);
      EnteringIsNoOp(m1.core);
      AfterPopSr(m1.core, CommitOne(cfg, m1.bus, OpOf(m1.core, m1.core.pending.value, s[4])).response);
    }
  }

  lemma RteStarts(c: CoreState)
    requires Boundary(c) && c.hasContext
    ensures var d := AfterInstr(c, Rte);
            && d.id == c.id && d.time >= c.time && d.r15 == c.r15 && d.exceptionVector.None?
            && d.pending == Some(PendingMem(RtePopPc, ToPhys(c.r15), 4, 0, 0))
  {
    hide ToPhys, PlusTwo;
  }

  lemma PopsRead()
    ensures !Writes(RtePopPc) && !Writes(RtePopSr)
  {
  }

  /** From a handler, the pops reach the delay slot with the stack pointer back and SR and the return address in hand. */
  lemma PopsFrame(cfg: Config, h: Machine, r15: nat, sr: Word, returnPc: Word, s: seq<nat>)
    requires InHandler(h.core, h.bus, r15, sr, returnPc) && r15 < ADDRESSES && |s| >= 5
    ensures Popped(cfg, h, s).Some?
    ensures var m := Popped(cfg, h, s).value; InSlot(m.core, sr, returnPc) && m.core.r15 == r15 && m.bus.ram == h.bus.ram && Clear(m.bus, m.core)
  {
    FrameAddresses(r15);
    UpDown(r15);
    RteStarts(h.core);
    PopsRead();
    hide ToPhys, IsMmio, Load, Store, CommitOne, OpOf, Down, Up, Vector, PlusTwo, BusStep, Clear, Applied, Entering, WordsApart, SrSlot, PcSlot,
         FrameTop, Body, Landed, Retire, Writes, AfterInstr, InSlot;
    var m0 := Machine(AfterInstr(h.core, Rte), h.bus);
    ClearLater(h.bus, h.core, m0.core);
    EnteringIsNoOp(m0.core);
    StepAccepted(cfg, m0, s[3]);
    AfterPopPc(m0.core, CommitOne(cfg, m0.bus, OpOf(m0.core, m0.core.pending.value, s[3])).response);
    var m1 := BusStep(cfg, m0, s[3]);
    EnteringIsNoOp(m1.core);
    StepAccepted(cfg, m1, s[4]);
    AfterPopSr(m1.core, CommitOne(cfg, m1.bus, OpOf(m1.core, m1.core.pending.value, s[4])).response);
    SlotNotBusy(BusStep(cfg, m1, s[4]).core, sr, returnPc);
  }

  lemma SlotNotBusy(c: CoreState, sr: Word, returnPc: Word)
    requires InSlot(c, sr, returnPc)
    ensures !Busy(c)
  {
  }

  // ----- the delay slot -----

  predicate IsData(k: Kind) {
    k.DataRead? || k.DataWrite?
  }

  /** What may stand in a delay slot here: anything but TRAPA and RTE. An access over the bus is one of the system-register
      stack forms, since those are the only accesses executed from a fetch. */
  predicate SlotOk(slot: Instr) {
    || slot.Plain?
    || (slot.Access? && (IsData(slot.op.kind) || (slot.cached && slot.op.kind.RmwRead?)))
  }

  /** The slot and the bus steps its access needs. */
  function RunSlot(cfg: Config, m: Machine, slot: Instr, s: seq<nat>): Machine
    requires |s| >= 7
  {
    if slot.Plain? || !slot.Access? then Machine(AfterInstr(m.core, slot), m.bus)
    else
      var m0 := Machine(if slot.cached then Issued(m.core, slot) else AfterInstr(m.core, slot), m.bus);
      if !Busy(m0.core) then m0
      else
        var m1 := BusStep(cfg, m0, s[5]);
        if !Busy(m1.core) then m1 else BusStep(cfg, m1, s[6])
  }

  /** Every delay slot but an access fetched over the bus. */
  predicate Lands(slot: Instr) {
    !slot.Access? || slot.cached
  }

  predicate SetsR15(slot: Instr) {
    match slot
    case Plain(_, _, _, r15, _, _) => r15.Some?
    case Access(op, r15, _, _) => r15.Some? || LoadsR15(op.kind)
    case _ => true
  }

  /** Issued in the delay slot: the access is under way and the return still waits. */
  predicate SlotWaits(c: CoreState, sr: Word, returnPc: Word) {
    && c.pending.Some? && c.exceptionVector.None? && c.branch == Some(returnPc)
    && c.restoring && c.newSr == sr && !c.hasContext
  }


  /** The answer to the slot's access restores SR and goes to the return address, whatever it loaded. */
  lemma DataLands(c: CoreState, sr: Word, returnPc: Word, r: Response)
    requires SlotWaits(c, sr, returnPc) && IsData(c.pending.value.kind)
    ensures var d := Applied(c, c.pending.value, r);
            && Boundary(d) && d.sr == sr && d.pc == returnPc && !d.hasContext
            && (!LoadsR15(c.pending.value.kind) ==> d.r15 == c.r15)
  {
    hide ToPhys, Down, Up, Vector, PlusTwo, WrittenBack, Combined, LoadsR15;
    if c.pending.value.kind.DataRead? {
      WriteBackKeeps(c.(time := c.time + r.stall, pending := None), c.pending.value, r.value);
    }
  }

  lemma RmwLeads(c: CoreState, sr: Word, returnPc: Word, r: Response)
    requires SlotWaits(c, sr, returnPc) && c.pending.value.kind.RmwRead?
    ensures var d := Applied(c, c.pending.value, r);
            SlotWaits(d, sr, returnPc) && d.pending.value.kind == DataWrite && d.r15 == c.r15
  {
    hide ToPhys, Down, Up, Vector, PlusTwo, WrittenBack, Combined;
  }

  /** An access that was executed from a fetch has already gone to the return address when it completes. */
  lemma LateDataSkips(c: CoreState, r: Response)
    requires c.pending.Some? && IsData(c.pending.value.kind) && c.branch.None? && c.exceptionVector.None? && !c.restoring
    ensures var d := Applied(c, c.pending.value, r);
            Boundary(d) && d.pc == PlusTwo(c.pc) && d.hasContext == c.hasContext
  {
    hide ToPhys, Down, Up, Vector, PlusTwo, WrittenBack, Combined, LoadsR15;
    if c.pending.value.kind.DataRead? {
      WriteBackKeeps(c.(time := c.time + r.stall, pending := None), c.pending.value, r.value);
    }
  }

  lemma AnswerOf(cfg: Config, m: Machine, sequence: nat) returns (r: Response)
    requires m.core.pending.Some? && m.core.exceptionVector.None?
    ensures BusStep(cfg, m, sequence).core == Applied(m.core, m.core.pending.value, r)
  {
    hide Applied, CommitOne, OpOf;
    r := CommitOne(cfg, m.bus, OpOf(m.core, m.core.pending.value, sequence)).response;
  }

  lemma NeverTwoLater(pc: Word)
    ensures PlusTwo(pc) != pc
  {
  }

  /** Any slot ends at a boundary without a return context. It ends at the return address with SR restored exactly when
      it is not an access fetched over the bus; such an access ends one instruction further. */
  lemma SlotLands(cfg: Config, m: Machine, sr: Word, returnPc: Word, slot: Instr, s: seq<nat>)
    requires InSlot(m.core, sr, returnPc) && SlotOk(slot) && |s| >= 7
    ensures var end := RunSlot(cfg, m, slot, s).core;
            && Boundary(end) && !end.hasContext
            && (Lands(slot) ==> end.sr == sr && (!SetsR15(slot) ==> end.r15 == m.core.r15))
            && end.pc == (if Lands(slot) then returnPc else returnPc + 2)
            && (end.pc == returnPc <==> Lands(slot))
  {
    hide ToPhys, Down, PlusTwo, BusStep, Applied;
    NeverTwoLater(returnPc);
    NextPc(returnPc);
    if slot.Access? {
      var m0 := Machine(if slot.cached then Issued(m.core, slot) else AfterInstr(m.core, slot), m.bus);
      var r0 := AnswerOf(cfg, m0, s[5]);
      if !slot.cached {
        LateDataSkips(m0.core, r0);
      } else if IsData(slot.op.kind) {
        DataLands(m0.core, sr, returnPc, r0);
      } else {
        RmwLeads(m0.core, sr, returnPc, r0);
        var m1 := BusStep(cfg, m0, s[5]);
        var r1 := AnswerOf(cfg, m1, s[6]);
        DataLands(m1.core, sr, returnPc, r1);
      }
    }
  }

  // ----- the round trips -----

  /** RTE, its two pops and the delay slot. */
  function Returned(cfg: Config, left: Machine, slot: Instr, s: seq<nat>): Option<Machine>
    requires |s| >= 7
  {
    var m := Popped(cfg, left, s);
    if m.None? then None else Some(RunSlot(cfg, m.value, slot, s))
  }

  /** A return brings back SR, the stack pointer and the return address, whatever the slot itself does to SR or to where it
      would have gone, unless the slot is an access fetched over the bus. */
  lemma ReturnRestores(cfg: Config, h: Machine, r15: nat, sr: Word, returnPc: Word, slot: Instr, s: seq<nat>)
    requires InHandler(h.core, h.bus, r15, sr, returnPc) && r15 < ADDRESSES && SlotOk(slot) && |s| >= 7
    ensures Popped(cfg, h, s).Some? && Popped(cfg, h, s).value.core.r15 == r15 && Popped(cfg, h, s).value.bus.ram == h.bus.ram
    ensures Returned(cfg, h, slot, s).Some?
    ensures var end := Returned(cfg, h, slot, s).value.core;
            && Boundary(end) && !end.hasContext
            && (Lands(slot) ==> end.sr == sr && (!SetsR15(slot) ==> end.r15 == r15))
            && end.pc == (if Lands(slot) then returnPc else returnPc + 2)
            && (end.pc == returnPc <==> Lands(slot))
  {
    hide InHandler, InSlot, Popped, RunSlot, Boundary, Lands, SetsR15, SlotOk, PlusTwo;
    PopsFrame(cfg, h, r15, sr, returnPc, s);
    SlotLands(cfg, Popped(cfg, h, s).value, sr, returnPc, slot, s);
  }

  /** What a handler must give back: a clean boundary, the stack pointer and the two frame words it was entered with, and
      a return context. Everything else, the rest of memory and the devices included, it may change. */
  predicate HandlerKept(entered: Machine, left: Machine, r15: nat) {
    && Boundary(left.core) && left.core.hasContext && left.core.r15 == entered.core.r15 && Clear(left.bus, left.core)
    && |left.bus.ram| == |entered.bus.ram|
    && Load(left.bus.ram, SrSlot(r15), 4) == Load(entered.bus.ram, SrSlot(r15), 4)
    && Load(left.bus.ram, PcSlot(r15), 4) == Load(entered.bus.ram, PcSlot(r15), 4)
  }

  lemma HandlerReturns(entered: Machine, left: Machine, r15: nat, sr: Word, returnPc: Word)
    requires InHandler(entered.core, entered.bus, r15, sr, returnPc) && HandlerKept(entered, left, r15)
    ensures InHandler(left.core, left.bus, r15, sr, returnPc)
  {
    hide ToPhys, IsMmio, Load, Down, Clear;
  }

  /** The interrupted program goes on as it stood. */
  predicate Resumes(end: CoreState, r15: nat, sr: Word, pc: Word, slot: Instr) {
    && Boundary(end) && !end.hasContext
    && (Lands(slot) ==> end.sr == sr && (!SetsR15(slot) ==> end.r15 == r15))
    && (end.pc == pc <==> Lands(slot))
  }

  /** After any handler that keeps its frame, the state an accepted exception returns to. */
  lemma ExceptionRoundTrip(cfg: Config, m: Machine, vector: nat, left: Machine, slot: Instr, s: seq<nat>)
    requires |s| >= 7 && SlotOk(slot)
    requires AtException(m.core, vector) && Clear(m.bus, m.core) && FrameOk(m.bus, m.core.r15)
    requires Entered(cfg, m, s).Some? && HandlerKept(Entered(cfg, m, s).value, left, m.core.r15)
    ensures Returned(cfg, left, slot, s).Some?
    ensures Resumes(Returned(cfg, left, slot, s).value.core, m.core.r15, m.core.sr, m.core.pc, slot)
  {
    hide InHandler, HandlerKept, FrameOk, Clear, Boundary, Vector, AfterInstr, Busy, Entered, Returned, Lands, SetsR15, SlotOk, AtException;
    ExceptionEntry(cfg, m, vector, s);
    FrameRange(m.bus, m.core.r15);
    HandlerReturns(Entered(cfg, m, s).value, left, m.core.r15, m.core.sr, m.core.pc);
    ReturnRestores(cfg, left, m.core.r15, m.core.sr, m.core.pc, slot, s);
  }

  /** The same for TRAPA: execution goes on after it. */
  lemma TrapaRoundTrip(cfg: Config, m: Machine, imm: nat, left: Machine, slot: Instr, s: seq<nat>)
    requires |s| >= 7 && SlotOk(slot)
    requires Boundary(m.core) && Clear(m.bus, m.core) && FrameOk(m.bus, m.core.r15)
    requires var m0 := Machine(AfterInstr(m.core, Trapa(imm)), m.bus);
             Entered(cfg, m0, s).Some? && HandlerKept(Entered(cfg, m0, s).value, left, m.core.r15)
    ensures Returned(cfg, left, slot, s).Some?
    ensures Resumes(Returned(cfg, left, slot, s).value.core, m.core.r15, m.core.sr, m.core.pc + 2, slot)
  {
    hide InHandler, HandlerKept, FrameOk, Clear, Boundary, Vector, AfterInstr, Busy, Entered, Returned, Lands, SetsR15, SlotOk, PlusTwo;
    TrapaEntry(cfg, m, imm, s);
    FrameRange(m.bus, m.core.r15);
    var m0 := Machine(AfterInstr(m.core, Trapa(imm)), m.bus);
    HandlerReturns(Entered(cfg, m0, s).value, left, m.core.r15, m.core.sr, m.core.pc + 2);
    ReturnRestores(cfg, left, m.core.r15, m.core.sr, m.core.pc + 2, slot, s);
  }

  lemma FrameRange(b: BusState, r15: nat)
    requires FrameOk(b, r15)
    ensures r15 < ADDRESSES
  {
  }

  // ----- one return context -----

  /** What goes on after a nested return: the handler runs to its own RTE without being entered again. */
  predicate RunsOn(inner: Machine, left: Machine) {
    Boundary(left.core) && left.core.hasContext == inner.core.hasContext
  }

  /** The core keeps a single return context. A handler that is itself interrupted is resumed properly by the inner return,
      but that return uses the context up: the outer RTE is refused, pops nothing and falls through to the next
      instruction. A return happens exactly when the context is there. */
  lemma NestedReturnRefused(cfg: Config, h: Machine, vector: nat, innerLeft: Machine, slot: Instr, s: seq<nat>, outerLeft: Machine, t: seq<nat>)
    requires |s| >= 7 && |t| >= 7 && SlotOk(slot) && Lands(slot)
    requires AtException(h.core, vector) && h.core.hasContext && Clear(h.bus, h.core) && FrameOk(h.bus, h.core.r15)
    requires Entered(cfg, h, s).Some? && HandlerKept(Entered(cfg, h, s).value, innerLeft, h.core.r15)
    requires Returned(cfg, innerLeft, slot, s).Some? && RunsOn(Returned(cfg, innerLeft, slot, s).value, outerLeft)
    ensures var inner := Returned(cfg, innerLeft, slot, s).value.core; inner.sr == h.core.sr && inner.pc == h.core.pc
    ensures Returned(cfg, outerLeft, slot, t).None?
    ensures AfterInstr(outerLeft.core, Rte) == outerLeft.core.(pc := outerLeft.core.pc + 2, time := outerLeft.core.time + 1, executed := outerLeft.core.executed + 1)
  {
    hide InHandler, HandlerKept, FrameOk, Clear, Boundary, AfterInstr, Entered, Popped, RunSlot, SetsR15, SlotOk, PlusTwo, Retire, AtException;
    ExceptionRoundTrip(cfg, h, vector, innerLeft, slot, s);
    PopsWithContext(cfg, outerLeft, t);
  }

  /** RTE starts a return exactly when a return context is there. */
  lemma ContextIsSingle(cfg: Config, left: Machine, slot: Instr, s: seq<nat>)
    requires Boundary(left.core) && SlotOk(slot) && |s| >= 7
    ensures Returned(cfg, left, slot, s).Some? <==> left.core.hasContext
    ensures Returned(cfg, left, slot, s).Some? ==> !Returned(cfg, left, slot, s).value.core.hasContext
    ensures !left.core.hasContext ==> AfterInstr(left.core, Rte) == left.core.(pc := left.core.pc + 2, time := left.core.time + 1, executed := left.core.executed + 1)
  {
    hide Boundary, AfterInstr, Popped, RunSlot, SlotOk, PlusTwo, Retire;
    PopsWithContext(cfg, left, s);
    if Popped(cfg, left, s).Some? {
      PopsToSlot(cfg, left, s);
      var m := Popped(cfg, left, s).value;
      SlotLands(cfg, m, m.core.newSr, m.core.branch.value, slot, s);
    }
  }

  lemma PopsToSlot(cfg: Config, left: Machine, s: seq<nat>)
    requires Boundary(left.core) && |s| >= 5 && Popped(cfg, left, s).Some?
    ensures var c := Popped(cfg, left, s).value.core; c.branch.Some? && InSlot(c, c.newSr, c.branch.value)
  {
    hide ToPhys, Down, Up, Vector, PlusTwo, CommitOne, OpOf, Applied;
    var m0 := Machine(AfterInstr(left.core, Rte), left.bus);
    EnteringIsNoOp(m0.core);
    AfterPopPc(m0.core, CommitOne(cfg, m0.bus, OpOf(m0.core, m0.core.pending.value, s[3])).response);
    var m1 := BusStep(cfg, m0, s[3]);
    EnteringIsNoOp(m1.core);
    AfterPopSr(m1.core, CommitOne(cfg, m1.bus, OpOf(m1.core, m1.core.pending.value, s[4])).response);
  }

  // ----- time -----

  lemma CommitClock(cfg: Config, b: BusState, c: CoreState, p: PendingMem, sequence: nat)
    requires Clear(b, c) && InRam(b, p.addr) && p.size == 4
    ensures var done := CommitOne(cfg, b, OpOf(c, p, sequence)); c.time + done.response.stall == done.bus.freeTime
  {
    hide ToPhys, Load, Store, DevAfter, LatencyOf, FillsLine, ValueOf, RamAfter;
  }

  /** An accepted operation takes the core's clock one tick past the moment the bus finished it. */
  lemma StepTakesClock(cfg: Config, m: Machine, sequence: nat)
    requires Busy(m.core) && Clear(m.bus, m.core) && InRam(m.bus, Entering(m.core).pending.value.addr) && Entering(m.core).pending.value.size == 4
    ensures var r := BusStep(cfg, m, sequence); r.core.time == r.bus.freeTime + 1 && r.core.executed == m.core.executed + 1
  {
    hide CommitOne, OpOf, InRam, Continued, Clear;
    var c := Entering(m.core);
    var p := c.pending.value;
    ClearLater(m.bus, m.core, c);
    CommitClock(cfg, m.bus, c, p, sequence);
    var r := CommitOne(cfg, m.bus, OpOf(c, p, sequence)).response;
    ContinuedClock(c.(time := c.time + r.stall, pending := None), p, r.value);
  }

  lemma ContinuedClock(d: CoreState, p: PendingMem, value: Word)
    ensures Continued(d, p, value).time == d.time && Continued(d, p, value).executed == d.executed
  {
    hide ToPhys, Down, Up, Vector, PlusTwo, Combined, WrittenBack, Completed, Returning, LoadsR15;
    match p.kind
    case DataRead(_, _, _) =>
      WriteBackKeeps(d, p, value);
      CompletedClock(WrittenBack(d, p, value));
    case DataWrite => CompletedClock(d);
    case RtePopSr => ReturningClock(d, value);
    case _ =>
  }

  lemma CompletedClock(d: CoreState)
    ensures Completed(d).time == d.time && Completed(d).executed == d.executed
  {
    hide PlusTwo;
  }

  lemma ReturningClock(d: CoreState, value: Word)
    ensures Returning(d, value).time == d.time && Returning(d, value).executed == d.executed
  {
    hide Up;
  }
}
