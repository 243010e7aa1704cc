/** Bus operations and what the arbiter does with them, as functions on values. */
module Bus {
  import opened Prelude
  import opened Memory
  import opened Devices

  // ----- operations -----

  datatype BusKind = IFetch | Read | Write | MmioRead | MmioWrite | Barrier

  datatype BusProducer = AutoProducer | CpuProducer | DmaProducer

  datatype BusOp = BusOp(
    cpuId: int,
    reqTime: Tick,
    sequence: nat,
    kind: BusKind,
    addr: nat,
    size: nat,
    data: Word,
    fillLine: bool,
    lineSize: nat,
    producer: BusProducer,
    token: nat)

  datatype Slot = Cpu0Slot | Cpu1Slot | DmaSlot

  function SlotOf(op: BusOp): Slot {
    if op.producer == DmaProducer || (op.producer == AutoProducer && op.cpuId < 0) then DmaSlot
    else if op.cpuId == 1 then Cpu1Slot
    else Cpu0Slot
  }

  function SlotFor(i: int): Slot {
    if i == 0 then Cpu0Slot else Cpu1Slot
  }

  predicate IsCpu(cpuId: int) {
    cpuId == 0 || cpuId == 1
  }

  /** A remembered time for each producer slot. */
  datatype PerSlot = PerSlot(cpu0: Option<Tick>, cpu1: Option<Tick>, dma: Option<Tick>) {
    function Get(s: Slot): Option<Tick> {
      match s case Cpu0Slot => cpu0 case Cpu1Slot => cpu1 case DmaSlot => dma
    }

    function Set(s: Slot, v: Option<Tick>): PerSlot {
      match s case Cpu0Slot => this.(cpu0 := v) case Cpu1Slot => this.(cpu1 := v) case DmaSlot => this.(dma := v)
    }
  }

  // ----- validation, priority and latency -----

  datatype FaultReason = InvalidSize | InvalidAlignment | NonMonotonicReqTime | EnqueueNonMonotonicReqTime | CacheFillMismatch

  function Validate(op: BusOp): Option<FaultReason> {
    if op.kind == Barrier then None
    else if op.size != 1 && op.size != 2 && op.size != 4 then Some(InvalidSize)
    else if (op.kind in {MmioRead, MmioWrite, IFetch} || IsMmio(op.addr)) && op.addr % op.size != 0 then Some(InvalidAlignment)
    else None
  }

  datatype LatencyModel = LatencyModel(
    ramRead: nat, ramWrite: nat, ifetch: nat, mmioRead: nat, mmioWrite: nat, barrier: nat,
    sameAddressContention: nat, tieTurnaround: nat)

  const DEFAULT_LATENCY := LatencyModel(4, 3, 5, 12, 10, 1, 2, 1)

  /** Everything fixed when an arbiter is built. */
  datatype Config = Config(policy: BusOp -> nat, latency: LatencyModel)

  function DefaultPolicy(op: BusOp): nat {
    if op.cpuId < 0 then 2
    else if op.kind == MmioRead || op.kind == MmioWrite || IsMmio(op.addr) then 1
    else 0
  }

  function BaseLatency(m: LatencyModel, op: BusOp): nat {
    if op.kind == Barrier then m.barrier
    else if op.kind == IFetch then m.ifetch
    else if op.kind == MmioRead || (op.kind == Read && IsMmio(op.addr)) then m.mmioRead
    else if op.kind == MmioWrite || (op.kind == Write && IsMmio(op.addr)) then m.mmioWrite
    else if op.kind == Write then m.ramWrite
    else m.ramRead
  }

  // ----- arbiter state -----

  datatype Event =
    | Committed(tStart: Tick, tEnd: Tick, op: BusOp, stall: nat, value: Word)
    | Faulted(t: Tick, cpu: int, reason: FaultReason)

  datatype Trace = Trace(events: seq<Event>, haltOnFault: bool, shouldHalt: bool) {
    function Add(e: Event): Trace {
      Trace(events + [e], haltOnFault, shouldHalt || (haltOnFault && e.Faulted?))
    }
  }

  /** The arbiter and the memory, devices and trace it drives, apart from the progress watermarks. */
  datatype BusState = BusState(
    freeTime: Tick,
    lastGrantCpu: int,
    lastAddr: Option<nat>,
    lastReq: PerSlot,
    lastEnqueued: PerSlot,
    ram: seq<Byte>,
    dev: Dev,
    trace: Trace)

  datatype Response = Response(value: Word, stall: nat, startTime: Tick, commitTime: Tick, lineBase: nat, lineData: seq<Byte>)

  datatype CommitResult = CommitResult(inputIndex: nat, op: BusOp, response: Response)

  /** What one operation does: the state it leaves and the reply. */
  datatype Executed = Executed(bus: BusState, response: Response)

  /** What a batch does: the state it leaves and the commits in order. */
  datatype BatchOutcome = BatchOutcome(bus: BusState, results: seq<CommitResult>)

  const INVALID_VALUE: Word := 0xBAD0_BAD0

  function StartOf(b: BusState, op: BusOp): Tick {
    Max(op.reqTime, b.freeTime)
  }

  function ContentionExtra(m: LatencyModel, lastAddr: Option<nat>, op: BusOp, hadTie: bool): nat {
    (if op.kind != Barrier && lastAddr == Some(op.addr) then m.sameAddressContention else 0)
    + (if hadTie then m.tieTurnaround else 0)
  }

  function LatencyOf(m: LatencyModel, lastAddr: Option<nat>, op: BusOp, hadTie: bool): nat {
    BaseLatency(m, op) + ContentionExtra(m, lastAddr, op, hadTie)
  }

  /** A refused operation: two trace events, no time on the bus and no other effect. */
  function Refused(b: BusState, op: BusOp, reason: FaultReason): Executed {
    var start := StartOf(b, op);
    Executed(b.(trace := b.trace.Add(Faulted(start, op.cpuId, reason)).Add(Committed(start, start, op, 0, INVALID_VALUE))),
             Response(INVALID_VALUE, 0, start, start, 0, []))
  }

  // ----- side effects of an accepted operation -----

  predicate TouchesDevice(op: BusOp) {
    IsMmio(op.addr) || op.kind == MmioRead || op.kind == MmioWrite
  }

  function RamAfter(ram: seq<Byte>, op: BusOp): (r: seq<Byte>)
    requires Validate(op) == None
    ensures |r| == |ram|
  {
    if op.kind == Write && !IsMmio(op.addr) then Store(ram, op.addr, op.size, op.data) else ram
  }

  function DevAfter(dev: Dev, op: BusOp, finish: Tick): Dev {
    if op.kind == MmioWrite || (op.kind == Write && IsMmio(op.addr))
    then WriteDevice(dev, finish, op.cpuId, op.addr, op.size, op.data)
    else dev
  }

  function ValueOf(ram: seq<Byte>, dev: Dev, op: BusOp): Word
    requires Validate(op) == None
  {
    if op.kind in {Barrier, Write, MmioWrite} then op.data
    else if TouchesDevice(op) then ReadDevice(dev, op.addr, op.size)
    else Load(ram, op.addr, op.size)
  }

  predicate FillsLine(op: BusOp) {
    op.kind in {IFetch, Read} && !IsMmio(op.addr) && op.fillLine && op.lineSize > 0
  }

  function Execute(cfg: Config, b: BusState, op: BusOp, hadTie: bool): Executed {
    var error := Validate(op);
    if error.Some? then Refused(b, op, error.value)
    else
      var previous := b.lastReq.Get(SlotOf(op));
      if previous.Some? && op.reqTime < previous.value then Refused(b, op, NonMonotonicReqTime)
      else
        var start := StartOf(b, op);
        var finish := start + LatencyOf(cfg.latency, b.lastAddr, op, hadTie);
        var stall := finish - op.reqTime;
        var value := ValueOf(b.ram, b.dev, op);
        Executed(BusState(
           finish,
           if hadTie && IsCpu(op.cpuId) then op.cpuId else b.lastGrantCpu,
           if op.kind == Barrier then b.lastAddr else Some(op.addr),
           b.lastReq.Set(SlotOf(op), Some(op.reqTime)),
           b.lastEnqueued,
           RamAfter(b.ram, op),
           DevAfter(b.dev, op, finish),
           b.trace.Add(Committed(start, finish, op, stall, value))),
         Response(value, stall, start, finish,
           if FillsLine(op) then op.addr / op.lineSize else 0,
           if FillsLine(op) then Block(b.ram, op.addr / op.lineSize * op.lineSize, op.lineSize) else []))
  }

  // ----- watermarks -----

  /** What each CPU has promised: it will issue nothing earlier than its watermark. */
  datatype Progress = Progress(enabled: bool, cpu0: Option<Tick>, cpu1: Option<Tick>)

  const NO_PROGRESS := Progress(false, None, None)

  function Advanced(w: Option<Tick>, upTo: Tick): Option<Tick> {
    if w.None? || upTo > w.value then Some(upTo) else w
  }

  function UpdateProgress(p: Progress, cpuId: int, upTo: Tick): Progress {
    if cpuId == 0 then Progress(true, Advanced(p.cpu0, upTo), p.cpu1)
    else if cpuId == 1 then Progress(true, p.cpu0, Advanced(p.cpu1, upTo))
    else p
  }

  /** An operation may be committed once both CPUs are known to be past its request time. */
  predicate Committable(p: Progress, op: BusOp) {
    !p.enabled || (p.cpu0.Some? && p.cpu1.Some? && op.reqTime < Min(p.cpu0.value, p.cpu1.value))
  }

  // ----- batches -----

  datatype Pending = Pending(index: nat, op: BusOp)

  predicate EnqueueOk(b: BusState, op: BusOp) {
    var last := b.lastEnqueued.Get(SlotOf(op));
    last.None? || op.reqTime >= last.value
  }

  function Enqueue(b: BusState, op: BusOp): BusState {
    if EnqueueOk(b, op) then b.(lastEnqueued := b.lastEnqueued.Set(SlotOf(op), Some(op.reqTime)))
    else Refused(b, op, EnqueueNonMonotonicReqTime).bus
  }

  datatype Queue = Queue(bus: BusState, pending: seq<Pending>)

  function EnqueueFrom(b: BusState, ops: seq<BusOp>, i: nat): Queue
    requires i <= |ops|
    decreases |ops| - i
  {
    if i == |ops| || b.trace.shouldHalt then Queue(b, [])
    else
      var rest := EnqueueFrom(Enqueue(b, ops[i]), ops, i + 1);
      if EnqueueOk(b, ops[i]) then rest.(pending := [Pending(i, ops[i])] + rest.pending) else rest
  }

  /** Positions of the committable entries, in order. */
  function CommittableFrom(p: Progress, pending: seq<Pending>, i: nat): (r: seq<nat>)
    requires i <= |pending|
    ensures forall k :: 0 <= k < |r| ==> i <= r[k] < |pending|
    decreases |pending| - i
  {
    if i == |pending| then []
    else if Committable(p, pending[i].op) then [i] + CommittableFrom(p, pending, i + 1)
    else CommittableFrom(p, pending, i + 1)
  }

  function Preferred(b: BusState): int {
    if b.lastGrantCpu == 0 then 1 else 0
  }

  /** The candidate replaces the current best. */
  predicate Beats(cfg: Config, b: BusState, cand: BusOp, cur: BusOp) {
    if StartOf(b, cand) != StartOf(b, cur) then StartOf(b, cand) < StartOf(b, cur)
    else if SlotOf(cand) == SlotOf(cur) then
      cand.sequence < cur.sequence || (cand.sequence == cur.sequence && cand.reqTime < cur.reqTime)
    else if cfg.policy(cand) != cfg.policy(cur) then cfg.policy(cand) > cfg.policy(cur)
    else if cand.cpuId != cur.cpuId then
      if IsCpu(cand.cpuId) && IsCpu(cur.cpuId) then cand.cpuId == Preferred(b) else cand.cpuId < cur.cpuId
    else cand.sequence < cur.sequence
  }

  /** The scan that keeps the best entry seen so far. */
  function PickFrom(cfg: Config, b: BusState, pending: seq<Pending>, idxs: seq<nat>, k: nat, best: nat): (r: nat)
    requires k <= |idxs| && best < |pending|
    requires forall j :: 0 <= j < |idxs| ==> idxs[j] < |pending|
    ensures r == best || r in idxs[k..]
    decreases |idxs| - k
  {
    if k == |idxs| then best
    else PickFrom(cfg, b, pending, idxs, k + 1, if Beats(cfg, b, pending[idxs[k]].op, pending[best].op) then idxs[k] else best)
  }

  predicate Ties(cfg: Config, b: BusState, op: BusOp, chosen: BusOp) {
    StartOf(b, op) == StartOf(b, chosen) && cfg.policy(op) == cfg.policy(chosen)
  }

  predicate HadTie(cfg: Config, b: BusState, pending: seq<Pending>, idxs: seq<nat>, next: nat)
    requires next < |pending|
    requires forall j :: 0 <= j < |idxs| ==> idxs[j] < |pending|
  {
    exists j :: 0 <= j < |idxs| && idxs[j] != next && Ties(cfg, b, pending[idxs[j]].op, pending[next].op)
  }

  /** Position of the entry the next round of the batch commits. */
  function PickNext(cfg: Config, b: BusState, pending: seq<Pending>, idxs: seq<nat>): (r: nat)
    requires |idxs| > 0
    requires forall j :: 0 <= j < |idxs| ==> idxs[j] < |pending|
    ensures r in idxs
  {
    PickFrom(cfg, b, pending, idxs, 0, idxs[0])
  }

  function Drain(cfg: Config, b: BusState, p: Progress, pending: seq<Pending>): BatchOutcome
    decreases |pending|
  {
    var idxs := CommittableFrom(p, pending, 0);
    if b.trace.shouldHalt || idxs == [] then BatchOutcome(b, [])
    else
      var next := PickNext(cfg, b, pending, idxs);
      var op := pending[next].op;
      var done := Execute(cfg, b, op, HadTie(cfg, b, pending, idxs, next));
      var rest := Drain(cfg, done.bus, p, Without(pending, next));
      rest.(results := [CommitResult(pending[next].index, op, done.response)] + rest.results)
  }

  const NOTHING_ENQUEUED: PerSlot := PerSlot(None, None, None)

  function CommitBatch(cfg: Config, b: BusState, p: Progress, ops: seq<BusOp>): BatchOutcome {
    var queue := EnqueueFrom(b.(lastEnqueued := NOTHING_ENQUEUED), ops, 0);
    Drain(cfg, queue.bus, p, queue.pending)
  }

  /** A single commit outside any batch, subject to the enqueue contract of the batch before it. */
  function CommitOne(cfg: Config, b: BusState, op: BusOp): Executed {
    if b.trace.shouldHalt || !EnqueueOk(b, op) then
      Executed(if b.trace.shouldHalt then b else Enqueue(b, op), Response(INVALID_VALUE, 0, b.freeTime, b.freeTime, 0, []))
    else Execute(cfg, Enqueue(b, op), op, false)
  }

  function AsDma(op: BusOp): BusOp {
    op.(cpuId := -1, producer := DmaProducer)
  }
}
