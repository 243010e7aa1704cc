/** The SH-2 core around an exception: its pending bus operation, the stack and vector sequences and the delay slot. */
module Sh2Cores {
  import opened Prelude
  import opened Memory
  import opened Bus
  import opened BusArbiters

  const ADDRESSES := 0x1_0000_0000

  /** Where a 32-bit load puts its word. */
  datatype Destination = General | ToPr | ToSr | ToGbr | ToVbr | ToMach | ToMacl

  datatype ByteUpdate = AndByte | XorByte | OrByte

  datatype Kind =
    | ExceptionPushSr | ExceptionPushPc | ExceptionVectorRead
    | TrapaPushSr | TrapaPushPc | TrapaVectorRead
    | RtePopPc | RtePopSr
    | DataRead(load: Destination, dst: nat, postInc: Option<nat>)
    | DataWrite
    | RmwRead(how: ByteUpdate, imm: Byte)

  datatype PendingMem = PendingMem(kind: Kind, addr: nat, size: nat, value: Word, aux: nat)

  /** The core. R15 and VBR are addresses; `rest` holds R0 to R14 and then PR, GBR, MACH and MACL. */
  datatype CoreState = CoreState(
    id: int,
    pc: Word,
    sr: Word,
    vbr: nat,
    r15: nat,
    rest: seq<Word>,
    time: Tick,
    executed: nat,
    pending: Option<PendingMem>,
    branch: Option<Word>,
    exceptionVector: Option<nat>,
    hasContext: bool,
    newPc: Word,
    newSr: Word,
    restoring: bool,
    trapaImm: Option<nat>)

  /** A decoded instruction. One that accesses memory is described by the access it makes and what it leaves in the
      registers when it is issued; it is issued at once if it came from the instruction cache. Any other is described by
      what it leaves in the registers it may write; `r15` is None if it leaves R15 alone. */
  datatype Instr =
    | Trapa(imm: nat)
    | Rte
    | Plain(pc: Word, sr: Word, vbr: nat, r15: Option<nat>, rest: seq<Word>, target: Option<Word>)
    | Access(op: PendingMem, r15: Option<nat>, rest: seq<Word>, cached: bool)

  // ----- arithmetic -----

  function Down(a: nat): nat {
    (a + ADDRESSES - 4) % ADDRESSES
  }

  function Up(a: nat): nat {
    (a + 4) % ADDRESSES
  }

  function Around(a: nat, size: nat): nat {
    (a + size) % ADDRESSES
  }

  function PlusTwo(pc: Word): Word {
    pc + 2
  }

  function Vector(vbr: nat, n: nat): nat {
    ToPhys((vbr + n * 4) % ADDRESSES)
  }

  function AddressOf(v: Word): nat {
    v as nat
  }

  function Extended(size: nat, v: Word): Word {
    if size == 1 then ((v & 0xFF) ^ 0x80) - 0x80
    else if size == 2 then ((v & 0xFFFF) ^ 0x8000) - 0x8000
    else v
  }

  function Widened(size: nat): Word {
    if size == 1 then 1 else if size == 2 then 2 else 4
  }

  function Combined(how: ByteUpdate, imm: Byte, v: Word): Word {
    var before, mask := v & 0xFF, imm as Word;
    match how case AndByte => before & mask case XorByte => before ^ mask case OrByte => before | mask
  }

  // ----- registers -----

  function WithRest(c: CoreState, n: nat, v: Word): CoreState {
    if n < |c.rest| then c.(rest := c.rest[n := v]) else c
  }

  function WithRegister(c: CoreState, n: nat, v: Word): CoreState {
    if n == 15 then c.(r15 := AddressOf(v)) else WithRest(c, n, v)
  }

  function Raised(v: Word, size: nat): Word {
    v + Widened(size)
  }

  function Bumped(c: CoreState, n: nat, size: nat): CoreState {
    if n == 15 then c.(r15 := Around(c.r15, size))
    else if n < |c.rest| then WithRest(c, n, Raised(c.rest[n], size))
    else c
  }

  function Loaded(c: CoreState, p: PendingMem, value: Word): CoreState
    requires p.kind.DataRead?
  {
    match p.kind.load
    case General => WithRegister(c, p.kind.dst, Extended(p.size, value))
    case ToPr => WithRest(c, 15, value)
    case ToSr => c.(sr := value)
    case ToGbr => WithRest(c, 16, value)
    case ToVbr => c.(vbr := AddressOf(value))
    case ToMach => WithRest(c, 17, value)
    case ToMacl => WithRest(c, 18, value)
  }

  predicate PostIncrements(k: Kind)
    requires k.DataRead?
  {
    k.postInc.Some? && k.postInc.value != k.dst
  }

  /** A loaded value goes to its register, and the address register is advanced unless it is the one that was loaded. */
  function WrittenBack(c: CoreState, p: PendingMem, value: Word): CoreState
    requires p.kind.DataRead?
  {
    var d := Loaded(c, p, value);
    if PostIncrements(p.kind) then Bumped(d, p.kind.postInc.value, p.size) else d
  }

  // ----- the pending operation -----

  predicate Pushes(k: Kind) {
    k == ExceptionPushSr || k == ExceptionPushPc || k == TrapaPushSr || k == TrapaPushPc
  }

  predicate Writes(k: Kind) {
    Pushes(k) || k == DataWrite
  }

  function AccessKind(phys: nat, isWrite: bool): BusKind {
    if IsMmio(phys) then (if isWrite then MmioWrite else MmioRead) else if isWrite then Write else Read
  }

  function OpOf(c: CoreState, p: PendingMem, sequence: nat): BusOp {
    BusOp(c.id, c.time, sequence, AccessKind(p.addr, Writes(p.kind)), p.addr, p.size, p.value, false, 0, AutoProducer, 0)
  }

  function Retire(c: CoreState): CoreState {
    c.(time := c.time + 1, executed := c.executed + 1)
  }

  /** An accepted exception starts by pushing SR. */
  function Entering(c: CoreState): CoreState {
    if c.exceptionVector.Some? then
      c.(r15 := Down(c.r15), exceptionVector := None,
         pending := Some(PendingMem(ExceptionPushSr, ToPhys(Down(c.r15)), 4, c.sr, c.exceptionVector.value)))
    else c
  }

  /** Where execution goes on: a delay slot lands on the pending target, restoring SR after RTE; otherwise a branch
      decoded here becomes pending. */
  function Landed(d: CoreState, slotTarget: Option<Word>, nextTarget: Option<Word>): CoreState {
    if slotTarget.None? then d.(branch := nextTarget)
    else if d.restoring then d.(pc := slotTarget.value, sr := d.newSr, restoring := false)
    else d.(pc := slotTarget.value)
  }

  /** A completed data access goes on to the pending branch target, or past its instruction. */
  function Completed(d: CoreState): CoreState {
    if d.branch.Some? then Landed(d.(branch := None), d.branch, None) else d.(pc := PlusTwo(d.pc))
  }

  /** Both words are popped: the return address is the branch of the delay slot to come, and SR waits for its end. */
  function Returning(d: CoreState, value: Word): CoreState {
    d.(newSr := value, r15 := Up(d.r15), restoring := true, branch := Some(d.newPc), hasContext := false)
  }

  lemma PoppedSrContinues(d: CoreState, p: PendingMem, value: Word)
    requires p.kind == RtePopSr
    ensures Continued(d, p, value) == Returning(d, value)
  {
  }

  /** What the answer to one pending operation does next. */
  function Continued(d: CoreState, p: PendingMem, value: Word): CoreState {
    match p.kind
    case ExceptionPushSr => d.(r15 := Down(d.r15), pending := Some(PendingMem(ExceptionPushPc, ToPhys(Down(d.r15)), 4, d.pc, p.aux)))
    case ExceptionPushPc => d.(pending := Some(PendingMem(ExceptionVectorRead, Vector(d.vbr, p.aux), 4, 0, 0)))
    case ExceptionVectorRead => d.(pc := value, hasContext := true)
    case TrapaPushSr => d.(r15 := Down(d.r15), pending := Some(PendingMem(TrapaPushPc, ToPhys(Down(d.r15)), 4, PlusTwo(d.pc), 0)))
    case TrapaPushPc =>
      d.(pending := Some(PendingMem(TrapaVectorRead, Vector(d.vbr, if d.trapaImm.Some? then d.trapaImm.value else 0), 4, 0, 0)))
    case TrapaVectorRead => d.(pc := value, hasContext := true, trapaImm := None)
    case RtePopPc => d.(newPc := value, r15 := Up(d.r15), pending := Some(PendingMem(RtePopSr, ToPhys(Up(d.r15)), 4, 0, 0)))
    case RtePopSr => Returning(d, value)
    case DataRead(_, _, _) => Completed(WrittenBack(d, p, value))
    case DataWrite => Completed(d)
    case RmwRead(how, imm) => d.(pending := Some(PendingMem(DataWrite, p.addr, 1, Combined(how, imm, value), 0)))
  }

  /** The core when the bus has answered its pending operation. */
  function Applied(c: CoreState, p: PendingMem, r: Response): CoreState {
    Retire(Continued(c.(time := c.time + r.stall, pending := None), p, r.value))
  }

  datatype Machine = Machine(core: CoreState, bus: BusState)

  predicate Busy(c: CoreState) {
    c.pending.Some? || c.exceptionVector.Some?
  }

  /** One step of a core with a bus operation to do: issue it, commit it, apply the answer. */
  function BusStep(cfg: Config, m: Machine, sequence: nat): Machine
    requires Busy(m.core)
  {
    var c := Entering(m.core);
    var p := c.pending.value;
    var done := CommitOne(cfg, m.bus, OpOf(c, p, sequence));
    Machine(Applied(c, p, done.response), done.bus)
  }

  // ----- instructions -----

  function ValueOr(x: Option<nat>, otherwise: nat): nat {
    if x.Some? then x.value else otherwise
  }

  /** The body of an instruction, before any delayed branch takes effect. */
  function Body(c: CoreState, instr: Instr): CoreState {
    match instr
    case Trapa(imm) =>
      c.(trapaImm := Some(imm), r15 := Down(c.r15), pending := Some(PendingMem(TrapaPushSr, ToPhys(Down(c.r15)), 4, c.sr, 0)))
    case Rte =>
      if c.hasContext then c.(pc := PlusTwo(c.pc), pending := Some(PendingMem(RtePopPc, ToPhys(c.r15), 4, 0, 0)))
      else c.(pc := PlusTwo(c.pc))
    case Plain(pc, sr, vbr, r15, rest, _) => c.(pc := pc, sr := sr, vbr := vbr, r15 := ValueOr(r15, c.r15), rest := rest)
    case Access(op, r15, rest, _) => c.(pc := PlusTwo(c.pc), r15 := ValueOr(r15, c.r15), rest := rest, pending := Some(op))
  }

  function TargetOf(instr: Instr): Option<Word> {
    if instr.Plain? then instr.target else None
  }

  /** Executing an instruction fetched over the bus, or one from the cache that makes no access, in a delay slot or not. */
  function AfterInstr(c: CoreState, instr: Instr): CoreState {
    Retire(Landed(Body(c.(branch := None), instr), c.branch, TargetOf(instr)))
  }

  /** Issuing the access of an instruction found in the cache: nothing else happens until it is answered. */
  function Issued(c: CoreState, instr: Instr): CoreState
    requires instr.Access?
  {
    c.(r15 := ValueOr(instr.r15, c.r15), rest := instr.rest, pending := Some(instr.op))
  }

  // ----- the core as an object -----

  class SH2Core {
    const id: int
    var pc: Word
    var sr: Word
    var vbr: nat
    var r15: nat
    var rest: seq<Word>
    var time: Tick
    var executed: nat
    var pendingMemOp: Option<PendingMem>
    var pendingBranchTarget: Option<Word>
    var pendingExceptionVector: Option<nat>
    var hasExceptionReturnContext: bool
    var pendingNewPc: Word
    var pendingNewSr: Word
    var pendingRteRestore: bool
    var pendingTrapaImm: Option<nat>

    ghost function State(): CoreState
      reads this
    {
      CoreState(id, pc, sr, vbr, r15, rest, time, executed, pendingMemOp, pendingBranchTarget, pendingExceptionVector,
                hasExceptionReturnContext, pendingNewPc, pendingNewSr, pendingRteRestore, pendingTrapaImm)
    }

    method RequestException(vector: nat)
      modifies this
      ensures State() == old(State()).(exceptionVector := Some(vector))
    {
      pendingExceptionVector := Some(vector);
    }

    /** The bus operation of the exception sequence or of an access under way, if there is one. */
    method ProducePending(sequence: nat) returns (op: Option<BusOp>)
      modifies this
      ensures State() == Entering(old(State()))
      ensures Busy(old(State())) <==> op.Some?
      ensures op.Some? ==> State().pending.Some? && op.value == OpOf(State(), State().pending.value, sequence)
    {
      hide ToPhys, AccessKind, Down;
      if pendingExceptionVector.Some? {
        r15 := Down(r15);
        pendingMemOp := Some(PendingMem(ExceptionPushSr, ToPhys(r15), 4, sr, pendingExceptionVector.value));
        pendingExceptionVector := None;
      }
      if pendingMemOp.None? {
        return None;
      }
      var p := pendingMemOp.value;
      op := Some(BusOp(id, time, sequence, AccessKind(p.addr, Writes(p.kind)), p.addr, p.size, p.value, false, 0, AutoProducer, 0));
    }

    /** An access found in the instruction cache is issued as it stands; pc and a pending branch wait for the answer. */
    method ProduceAccess(instr: Instr, sequence: nat) returns (op: BusOp)
      requires instr.Access? && instr.cached && !Busy(State())
      modifies `r15, `rest, `pendingMemOp
      ensures State() == Issued(old(State()), instr)
      ensures op == OpOf(State(), instr.op, sequence)
    {
      hide AccessKind;
      r15, rest, pendingMemOp := ValueOr(instr.r15, r15), instr.rest, Some(instr.op);
      var p := instr.op;
      op := BusOp(id, time, sequence, AccessKind(p.addr, Writes(p.kind)), p.addr, p.size, p.value, false, 0, AutoProducer, 0);
    }

    method ApplyPending(response: Response)
      requires pendingMemOp.Some?
      modifies this
      ensures State() == Applied(old(State()), old(pendingMemOp).value, response)
    {
      hide Continued, Retire;
      time := time + response.stall;
      var p := pendingMemOp.value;
      pendingMemOp := None;
      ContinuePending(p, response);
      RetireOne();
    }

    method RetireOne()
      modifies `time, `executed
      ensures State() == Retire(old(State()))
    {
      time := time + 1;
      executed := executed + 1;
    }

    method ContinuePending(p: PendingMem, response: Response)
      modifies this
      ensures State() == Continued(old(State()), p, response.value)
    {
      hide Continued, Returning;
      if Pushes(p.kind) {
        AfterPush(p);
      } else if p.kind == ExceptionVectorRead || p.kind == TrapaVectorRead {
        AfterVector(p, response);
      } else if p.kind == RtePopPc {
        AfterPopPc(p, response);
      } else if p.kind == RtePopSr {
        PoppedSrContinues(State(), p, response.value);
        AfterPopSr(response);
      } else {
        AfterData(p, response);
      }
    }

    method AfterPush(p: PendingMem)
      requires Pushes(p.kind)
      modifies `r15, `pendingMemOp
      ensures forall value :: State() == Continued(old(State()), p, value)
    {
      hide ToPhys, Down, Vector, PlusTwo;
      match p.kind {
        case ExceptionPushSr =>
          r15 := Down(r15);
          pendingMemOp := Some(PendingMem(ExceptionPushPc, ToPhys(r15), 4, pc, p.aux));
        case ExceptionPushPc =>
          pendingMemOp := Some(PendingMem(ExceptionVectorRead, Vector(vbr, p.aux), 4, 0, 0));
        case TrapaPushSr =>
          r15 := Down(r15);
          pendingMemOp := Some(PendingMem(TrapaPushPc, ToPhys(r15), 4, PlusTwo(pc), 0));
        case TrapaPushPc =>
          pendingMemOp := Some(PendingMem(TrapaVectorRead,
            Vector(vbr, if pendingTrapaImm.Some? then pendingTrapaImm.value else 0), 4, 0, 0));
        case _ =>
      }
    }

    method AfterVector(p: PendingMem, response: Response)
      requires p.kind == ExceptionVectorRead || p.kind == TrapaVectorRead
      modifies `pc, `hasExceptionReturnContext, `pendingTrapaImm
      ensures State() == Continued(old(State()), p, response.value)
    {
      pc := response.value;
      hasExceptionReturnContext := true;
      if p.kind == TrapaVectorRead {
        pendingTrapaImm := None;
      }
    }

    method AfterPopPc(p: PendingMem, response: Response)
      requires p.kind == RtePopPc
      modifies `pendingNewPc, `r15, `pendingMemOp
      ensures State() == Continued(old(State()), p, response.value)
    {
      hide ToPhys, Up;
      pendingNewPc := response.value;
      r15 := Up(r15);
      pendingMemOp := Some(PendingMem(RtePopSr, ToPhys(r15), 4, 0, 0));
    }

    method AfterPopSr(response: Response)
      modifies `pendingNewSr, `r15, `pendingRteRestore, `pendingBranchTarget, `hasExceptionReturnContext
      ensures State() == Returning(old(State()), response.value)
    {
      hide Up;
      pendingNewSr := response.value;
      r15 := Up(r15);
      pendingRteRestore := true;
      pendingBranchTarget := Some(pendingNewPc);
      hasExceptionReturnContext := false;
    }

    method AfterData(p: PendingMem, response: Response)
      requires p.kind.DataRead? || p.kind.DataWrite? || p.kind.RmwRead?
      modifies `pc, `sr, `vbr, `r15, `rest, `pendingMemOp, `pendingBranchTarget, `pendingRteRestore
      ensures State() == Continued(old(State()), p, response.value)
    {
      hide Completed, WrittenBack, Combined;
      if p.kind.RmwRead? {
        pendingMemOp := Some(PendingMem(DataWrite, p.addr, 1, Combined(p.kind.how, p.kind.imm, response.value), 0));
      } else {
        if p.kind.DataRead? {
          WriteBack(p, response.value);
        }
        Complete();
      }
    }

    method WriteBack(p: PendingMem, value: Word)
      requires p.kind.DataRead?
      modifies `sr, `vbr, `r15, `rest
      ensures State() == WrittenBack(old(State()), p, value)
    {
      hide WithRegister, WithRest, AddressOf, Bumped, Extended;
      match p.kind.load {
        case General => SetRegister(p.kind.dst, Extended(p.size, value));
        case ToPr => SetRest(15, value);
        case ToSr => sr := value;
        case ToGbr => SetRest(16, value);
        case ToVbr => vbr := AddressOf(value);
        case ToMach => SetRest(17, value);
        case ToMacl => SetRest(18, value);
      }
      if PostIncrements(p.kind) {
        Bump(p.kind.postInc.value, p.size);
      }
    }

    method SetRest(n: nat, v: Word)
      modifies `rest
      ensures State() == WithRest(old(State()), n, v)
    {
      if n < |rest| {
        rest := rest[n := v];
      }
    }

    method SetRegister(n: nat, v: Word)
      modifies `r15, `rest
      ensures State() == WithRegister(old(State()), n, v)
    {
      hide WithRest, AddressOf;
      if n == 15 {
        r15 := AddressOf(v);
      } else {
        SetRest(n, v);
      }
    }

    method Bump(n: nat, size: nat)
      modifies `r15, `rest
      ensures State() == Bumped(old(State()), n, size)
    {
      hide WithRest, Raised, Around;
      if n == 15 {
        r15 := Around(r15, size);
      } else if n < |rest| {
        SetRest(n, Raised(rest[n], size));
      }
    }

    method Complete()
      modifies `pc, `sr, `pendingBranchTarget, `pendingRteRestore
      ensures State() == Completed(old(State()))
    {
      hide PlusTwo;
      if pendingBranchTarget.Some? {
        if pendingRteRestore {
          sr := pendingNewSr;
          pendingRteRestore := false;
        }
        pc := pendingBranchTarget.value;
        pendingBranchTarget := None;
      } else {
        pc := PlusTwo(pc);
      }
    }

    /** One step of a core with a bus operation to do. */
    method StepPending(arbiter: BusArbiter, sequence: nat)
      requires Busy(State())
      modifies this, arbiter, arbiter.memory.bytes, arbiter.devices, arbiter.trace
      ensures Machine(State(), arbiter.State()) == BusStep(arbiter.Cfg(), old(Machine(State(), arbiter.State())), sequence)
    {
      hide Entering, Applied, CommitOne, OpOf;
      var op := ProducePending(sequence);
      var response := arbiter.Commit(op.value);
      ApplyPending(response);
    }

    /** The body of an instruction; hands back the branch target it decodes, if any. */
    method ExecuteBody(instr: Instr) returns (nextBranchTarget: Option<Word>)
      modifies `pc, `sr, `vbr, `r15, `rest, `pendingMemOp, `pendingTrapaImm
      ensures State() == Body(old(State()), instr)
      ensures nextBranchTarget == TargetOf(instr)
    {
      hide Body;
      nextBranchTarget := TargetOf(instr);
      match instr {
        case Trapa(_) => EnterTrapa(instr);
        case Rte => StartReturn();
        case Plain(_, _, _, _, _, _) => WriteRegisters(instr);
        case Access(_, _, _, _) => StartAccess(instr);
      }
    }

    method EnterTrapa(instr: Instr)
      requires instr.Trapa?
      modifies `pendingTrapaImm, `r15, `pendingMemOp
      ensures State() == Body(old(State()), instr)
    {
      hide ToPhys, Down;
      pendingTrapaImm := Some(instr.imm);
      r15 := Down(r15);
      pendingMemOp := Some(PendingMem(TrapaPushSr, ToPhys(r15), 4, sr, 0));
    }

    method StartReturn()
      modifies `pc, `pendingMemOp
      ensures State() == Body(old(State()), Rte)
    {
      hide ToPhys, PlusTwo;
      if hasExceptionReturnContext {
        pendingMemOp := Some(PendingMem(RtePopPc, ToPhys(r15), 4, 0, 0));
      }
      pc := PlusTwo(pc);
    }

    method WriteRegisters(instr: Instr)
      requires instr.Plain?
      modifies `pc, `sr, `vbr, `r15, `rest
      ensures State() == Body(old(State()), instr)
    {
      hide ValueOr;
      pc, sr, vbr, r15, rest := instr.pc, instr.sr, instr.vbr, ValueOr(instr.r15, r15), instr.rest;
    }

    method StartAccess(instr: Instr)
      requires instr.Access?
      modifies `pc, `r15, `rest, `pendingMemOp
      ensures State() == Body(old(State()), instr)
    {
      hide PlusTwo, ValueOr;
      pc, r15, rest, pendingMemOp := PlusTwo(pc), ValueOr(instr.r15, r15), instr.rest, Some(instr.op);
    }

    method Execute(instr: Instr)
      modifies this
      ensures State() == AfterInstr(old(State()), instr)
    {
      hide Body, Landed, TargetOf, Retire;
      var delaySlotTarget := pendingBranchTarget;
      pendingBranchTarget := None;
      var nextBranchTarget := ExecuteBody(instr);
      Land(delaySlotTarget, nextBranchTarget);
      RetireOne();
    }

    /** A delay slot goes to the pending target, and after RTE restores SR; a branch decoded outside one becomes pending. */
    method Land(delaySlotTarget: Option<Word>, nextBranchTarget: Option<Word>)
      requires pendingBranchTarget.None?
      modifies `pc, `sr, `pendingBranchTarget, `pendingRteRestore
      ensures State() == Landed(old(State()), delaySlotTarget, nextBranchTarget)
    {
      if delaySlotTarget.Some? {
        if pendingRteRestore {
          sr := pendingNewSr;
          pendingRteRestore := false;
        }
        pc := delaySlotTarget.value;
      } else if nextBranchTarget.Some? {
        pendingBranchTarget := nextBranchTarget;
      }
    }
  }
}
