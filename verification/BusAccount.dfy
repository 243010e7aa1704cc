/** A run of the arbiter told from its trace alone: what each operation was granted, what it read, and the bus, memory
    and devices it leaves. */
module BusAccounts {
  import opened Prelude
  import opened Memory
  import opened Devices
  import DeviceHistory
  import opened Bus
  import opened BusBatch
  import opened BusTiming

  // ----- kinds of operation, by kind and address range -----

  predicate DeviceAddress(a: nat) {
    0x05C0_0000 <= a < 0x05E0_0000 || 0x05F0_0000 <= a < 0x0600_0000
  }

  predicate DeviceWrite(op: BusOp) {
    op.kind == MmioWrite || (op.kind == Write && DeviceAddress(op.addr))
  }

  predicate RamWrite(op: BusOp) {
    op.kind == Write && !DeviceAddress(op.addr)
  }

  predicate DeviceRead(op: BusOp) {
    op.kind == MmioRead || ((op.kind == Read || op.kind == IFetch) && DeviceAddress(op.addr))
  }

  predicate RamRead(op: BusOp) {
    (op.kind == Read || op.kind == IFetch) && !DeviceAddress(op.addr)
  }

  /** One, two or four bytes, and aligned if it is a fetch or goes to a device; a barrier has no access. */
  predicate Sound(op: BusOp) {
    op.kind == Barrier
    || (op.size in {1, 2, 4} && (op.kind == IFetch || DeviceRead(op) || DeviceWrite(op) ==> op.addr % op.size == 0))
  }

  predicate FromDma(op: BusOp) {
    op.producer == DmaProducer || (op.producer == AutoProducer && op.cpuId < 0)
  }

  /** DMA, CPU 1, and everything else. */
  predicate SameProducer(x: BusOp, y: BusOp) {
    FromDma(x) == FromDma(y) && (!FromDma(x) ==> (x.cpuId == 1 <==> y.cpuId == 1))
  }

  // ----- the trace -----

  /** The k-th event is a commit; a refused operation records a fault first. */
  predicate AcceptedAt(events: seq<Event>, k: nat) {
    k < |events| && events[k].Committed? && (k == 0 || events[k - 1].Committed?)
  }

  predicate RefusedAt(events: seq<Event>, k: nat) {
    k + 1 < |events| && events[k].Faulted? && events[k + 1].Committed?
  }

  /** Not in the middle of recording a refusal. */
  predicate Whole(events: seq<Event>) {
    events == [] || events[|events| - 1].Committed?
  }

  predicate LastAccepted(events: seq<Event>) {
    |events| > 0 && AcceptedAt(events, |events| - 1)
  }

  /** When the last accepted operation leaves the bus. */
  function EndOf(events: seq<Event>): Tick {
    if events == [] then 0
    else if LastAccepted(events) then events[|events| - 1].tEnd
    else EndOf(events[..|events| - 1])
  }

  /** The address of the last accepted operation, barriers aside. */
  function LastAddrOf(events: seq<Event>): Option<nat> {
    if events == [] then None
    else if LastAccepted(events) && events[|events| - 1].op.kind != Barrier then Some(events[|events| - 1].op.addr)
    else LastAddrOf(events[..|events| - 1])
  }

  /** When the producer of this operation last had one accepted. */
  function LastRequestOf(events: seq<Event>, op: BusOp): Option<Tick> {
    if events == [] then None
    else if LastAccepted(events) && SameProducer(events[|events| - 1].op, op) then Some(events[|events| - 1].op.reqTime)
    else LastRequestOf(events[..|events| - 1], op)
  }

  /** The device writes a trace records, oldest first. */
  function DeviceWrites(events: seq<Event>): seq<DeviceHistory.Write> {
    if events == [] then []
    else
      var e, before := events[|events| - 1], DeviceWrites(events[..|events| - 1]);
      if LastAccepted(events) && DeviceWrite(e.op) then before + [DeviceHistory.Write(e.tEnd, e.op.cpuId, e.op.addr, e.op.size, e.op.data)]
      else before
  }

  /** The memory a trace leaves. */
  function RamOf(ram: seq<Byte>, events: seq<Event>): (r: seq<Byte>)
    ensures |r| == |ram|
  {
    if events == [] then ram
    else
      var e, before := events[|events| - 1], RamOf(ram, events[..|events| - 1]);
      if LastAccepted(events) && RamWrite(e.op) && e.op.size <= 4 then Store(before, e.op.addr, e.op.size, e.op.data) else before
  }

  // ----- what each event records -----

  /** Base time by kind of operation, more if it goes back to the address of the one before, more after a tie. */
  predicate Held(m: LatencyModel, before: seq<Event>, op: BusOp, tied: bool, ticks: int) {
    var again := if op.kind != Barrier && LastAddrOf(before) == Some(op.addr) then m.sameAddressContention else 0;
    var turn := if tied then m.tieTurnaround else 0;
    var base := ticks - again - turn;
    && (op.kind == Barrier ==> base == m.barrier)
    && (op.kind == IFetch ==> base == m.ifetch)
    && (op.kind.Read? && !DeviceAddress(op.addr) ==> base == m.ramRead)
    && (op.kind.Write? && !DeviceAddress(op.addr) ==> base == m.ramWrite)
    && (op.kind == MmioRead || (op.kind.Read? && DeviceAddress(op.addr)) ==> base == m.mmioRead)
    && (op.kind == MmioWrite || (op.kind.Write? && DeviceAddress(op.addr)) ==> base == m.mmioWrite)
  }

  /** The ticks the default model holds the bus for. */
  lemma DefaultTimes(before: seq<Event>, op: BusOp, tied: bool, ticks: int)
    requires Held(DEFAULT_LATENCY, before, op, tied, ticks)
    ensures var base := ticks - (if op.kind != Barrier && LastAddrOf(before) == Some(op.addr) then 2 else 0) - (if tied then 1 else 0);
            && (RamRead(op) && op.kind == Read ==> base == 4) && (RamWrite(op) ==> base == 3) && (op.kind == IFetch ==> base == 5)
            && (DeviceRead(op) && op.kind != IFetch ==> base == 12) && (DeviceWrite(op) ==> base == 10) && (op.kind == Barrier ==> base == 1)
  {
    hide LastAddrOf;
  }

  /** A read is answered from the devices or the memory as the trace before it leaves them; anything else by its own data. */
  function AnswerTo(ram: seq<Byte>, before: seq<Event>, op: BusOp): Word {
    if DeviceRead(op) then ReadDevice(DeviceHistory.After(DeviceWrites(before)), op.addr, op.size)
    else if RamRead(op) && op.size <= 4 then Load(RamOf(ram, before), op.addr, op.size)
    else op.data
  }

  predicate Timely(before: seq<Event>, op: BusOp) {
    LastRequestOf(before, op).None? || LastRequestOf(before, op).value <= op.reqTime
  }

  /** An accepted operation is sound and in order for its producer, starts when it is asked for and the bus is free, is
      held for what the model charges, and is answered from what the trace has left. */
  predicate AcceptedRight(m: LatencyModel, ram: seq<Byte>, before: seq<Event>, e: Event)
    requires e.Committed?
  {
    && Sound(e.op) && Timely(before, e.op)
    && e.tStart == Max(e.op.reqTime, EndOf(before))
    && (Held(m, before, e.op, false, e.tEnd - e.tStart) || Held(m, before, e.op, true, e.tEnd - e.tStart))
    && e.stall == e.tEnd - e.op.reqTime
    && e.value == AnswerTo(ram, before, e.op)
  }

  /** A refused operation takes no time and is answered by a fixed word; the reason given is the reason there is. */
  predicate RefusedRight(before: seq<Event>, f: Event, e: Event)
    requires f.Faulted? && e.Committed?
  {
    && f.t == e.tStart == e.tEnd == Max(e.op.reqTime, EndOf(before)) && f.cpu == e.op.cpuId && e.stall == 0 && e.value == 0xBAD0_BAD0
    && match f.reason
       case InvalidSize => e.op.kind != Barrier && e.op.size !in {1, 2, 4}
       case InvalidAlignment => e.op.size in {1, 2, 4} && !Sound(e.op)
       case NonMonotonicReqTime => Sound(e.op) && !Timely(before, e.op)
       case EnqueueNonMonotonicReqTime => true
       case CacheFillMismatch => false
  }

  predicate EventsRight(m: LatencyModel, ram: seq<Byte>, events: seq<Event>) {
    && (forall k :: 0 <= k < |events| && AcceptedAt(events, k) ==> AcceptedRight(m, ram, events[..k], events[k]))
    && (forall k :: 0 <= k < |events| && events[k].Faulted? ==> RefusedAt(events, k) && RefusedRight(events[..k], events[k], events[k + 1]))
  }

  ghost predicate Remembered(b: BusState, events: seq<Event>) {
    forall op :: b.lastReq.Get(SlotOf(op)) == LastRequestOf(events, op)
  }

  /** The whole bus can be read off the trace. */
  ghost predicate Accounted(m: LatencyModel, ram: seq<Byte>, b: BusState) {
    var events := b.trace.events;
    && Whole(events) && EventsRight(m, ram, events)
    && b.freeTime == EndOf(events) && b.lastAddr == LastAddrOf(events) && Remembered(b, events)
    && b.ram == RamOf(ram, events) && b.dev == DeviceHistory.After(DeviceWrites(events))
  }

  // ----- one more event -----

  lemma Snoc(events: seq<Event>, e: Event)
    ensures (events + [e])[..|events + [e]| - 1] == events && (events + [e])[|events|] == e
  {
  }

  /** What an accepted commit adds to each reading of the trace. */
  lemma AcceptedAdds(ram: seq<Byte>, events: seq<Event>, e: Event)
    requires Whole(events) && e.Committed?
    ensures var all := events + [e];
            && Whole(all) && AcceptedAt(all, |events|)
            && EndOf(all) == e.tEnd
            && LastAddrOf(all) == (if e.op.kind != Barrier then Some(e.op.addr) else LastAddrOf(events))
            && (forall op :: LastRequestOf(all, op) == if SameProducer(e.op, op) then Some(e.op.reqTime) else LastRequestOf(events, op))
            && DeviceWrites(all) == (if DeviceWrite(e.op) then DeviceWrites(events) + [DeviceHistory.Write(e.tEnd, e.op.cpuId, e.op.addr, e.op.size, e.op.data)]
                                     else DeviceWrites(events))
            && RamOf(ram, all) == (if RamWrite(e.op) && e.op.size <= 4 then Store(RamOf(ram, events), e.op.addr, e.op.size, e.op.data)
                                   else RamOf(ram, events))
  {
    hide SameProducer, DeviceWrite, RamWrite, Store;
    Snoc(events, e);
  }

  /** A refusal adds nothing to any of them. */
  lemma RefusalAdds(ram: seq<Byte>, events: seq<Event>, f: Event, e: Event)
    requires Whole(events) && f.Faulted? && e.Committed?
    ensures var all := events + [f] + [e];
            && Whole(all) && EndOf(all) == EndOf(events) && LastAddrOf(all) == LastAddrOf(events)
            && (forall op :: LastRequestOf(all, op) == LastRequestOf(events, op))
            && DeviceWrites(all) == DeviceWrites(events) && RamOf(ram, all) == RamOf(ram, events)
  {
    hide SameProducer, DeviceWrite, RamWrite, Store;
    Snoc(events, f);
    Snoc(events + [f], e);
  }

  lemma OldEventsRight(m: LatencyModel, ram: seq<Byte>, events: seq<Event>, more: seq<Event>)
    requires EventsRight(m, ram, events) && Whole(events)
    ensures var all := events + more;
            && (forall k :: 0 <= k < |events| && AcceptedAt(all, k) ==> AcceptedRight(m, ram, all[..k], all[k]))
            && (forall k :: 0 <= k < |events| && all[k].Faulted? ==> RefusedAt(all, k) && RefusedRight(all[..k], all[k], all[k + 1]))
  {
    hide AcceptedRight, RefusedRight;
    var all := events + more;
    forall k | 0 <= k < |events| && AcceptedAt(all, k)
      ensures AcceptedRight(m, ram, all[..k], all[k])
    {
      assert AcceptedAt(events, k) && all[..k] == events[..k];
    }
    forall k | 0 <= k < |events| && all[k].Faulted?
      ensures RefusedAt(all, k) && RefusedRight(all[..k], all[k], all[k + 1])
    {
      assert RefusedAt(events, k) && all[..k] == events[..k];
    }
  }

  lemma AcceptedKeepsRight(m: LatencyModel, ram: seq<Byte>, events: seq<Event>, e: Event)
    requires EventsRight(m, ram, events) && Whole(events) && e.Committed? && AcceptedRight(m, ram, events, e)
    ensures EventsRight(m, ram, events + [e])
  {
    hide AcceptedRight, RefusedRight;
    OldEventsRight(m, ram, events, [e]);
    Snoc(events, e);
  }

  lemma RefusalKeepsRight(m: LatencyModel, ram: seq<Byte>, events: seq<Event>, f: Event, e: Event)
    requires EventsRight(m, ram, events) && Whole(events) && f.Faulted? && e.Committed? && RefusedRight(events, f, e)
    ensures EventsRight(m, ram, events + [f] + [e])
  {
    hide AcceptedRight, RefusedRight;
    OldEventsRight(m, ram, events, [f] + [e]);
    var all := events + [f] + [e];
    assert all == events + ([f] + [e]);
    assert all[..|events|] == events;
  }

  // ----- the arbiter's own terms -----

  lemma KindsAgree(op: BusOp)
    ensures IsMmio(op.addr) == DeviceAddress(op.addr)
    ensures Validate(op).None? <==> Sound(op)
    ensures Validate(op) == Some(InvalidSize) <==> op.kind != Barrier && op.size !in {1, 2, 4}
    ensures Validate(op) == Some(InvalidAlignment) <==> op.size in {1, 2, 4} && !Sound(op)
    ensures Validate(op).Some? ==> Validate(op).value == InvalidSize || Validate(op).value == InvalidAlignment
  {
  }

  lemma SlotsAgree(x: BusOp, y: BusOp)
    ensures SlotOf(x) == SlotOf(y) <==> SameProducer(x, y)
  {
  }

  lemma LatencyAgrees(m: LatencyModel, before: seq<Event>, op: BusOp, tied: bool)
    ensures Held(m, before, op, tied, LatencyOf(m, LastAddrOf(before), op, tied))
  {
    hide LastAddrOf;
  }

  lemma EffectsAgree(ram: seq<Byte>, dev: Dev, op: BusOp, finish: Tick)
    requires Validate(op) == None
    ensures ValueOf(ram, dev, op) == (if DeviceRead(op) then ReadDevice(dev, op.addr, op.size)
                                      else if RamRead(op) && op.size <= 4 then Load(ram, op.addr, op.size) else op.data)
    ensures RamAfter(ram, op) == (if RamWrite(op) && op.size <= 4 then Store(ram, op.addr, op.size, op.data) else ram)
    ensures DevAfter(dev, op, finish) == (if DeviceWrite(op) then WriteDevice(dev, finish, op.cpuId, op.addr, op.size, op.data) else dev)
  {
    hide ReadDevice, WriteDevice, Load, Store;
  }

  // ----- every step keeps the account -----

  lemma RefusedAccounted(m: LatencyModel, ram: seq<Byte>, b: BusState, op: BusOp, reason: FaultReason)
    requires Accounted(m, ram, b)
    requires match reason
             case InvalidSize => op.kind != Barrier && op.size !in {1, 2, 4}
             case InvalidAlignment => op.size in {1, 2, 4} && !Sound(op)
             case NonMonotonicReqTime => Sound(op) && !Timely(b.trace.events, op)
             case EnqueueNonMonotonicReqTime => true
             case CacheFillMismatch => false
    ensures Accounted(m, ram, Refused(b, op, reason).bus)
  {
    hide EventsRight, Sound, Timely, EndOf, LastAddrOf, LastRequestOf, DeviceWrites, RamOf, Whole, DeviceHistory.After;
    var start, events := StartOf(b, op), b.trace.events;
    var f, e := Faulted(start, op.cpuId, reason), Committed(start, start, op, 0, INVALID_VALUE);
    assert Refused(b, op, reason).bus.trace.events == events + [f] + [e];
    RefusalAdds(ram, events, f, e);
    RefusalKeepsRight(m, ram, events, f, e);
  }

  lemma ExecuteAccounted(cfg: Config, ram: seq<Byte>, b: BusState, op: BusOp, hadTie: bool)
    requires Accounted(cfg.latency, ram, b)
    ensures Accounted(cfg.latency, ram, Execute(cfg, b, op, hadTie).bus)
  {
    hide EventsRight, Sound, EndOf, LastAddrOf, LastRequestOf, DeviceWrites, RamOf, Whole, DeviceHistory.After, SlotOf, Validate,
         ValueOf, RamAfter, DevAfter, LatencyOf, Held, Refused, SameProducer;
    var events, previous := b.trace.events, b.lastReq.Get(SlotOf(op));
    KindsAgree(op);
    assert previous == LastRequestOf(events, op);
    if Validate(op).Some? {
      RefusedAccounted(cfg.latency, ram, b, op, Validate(op).value);
    } else if previous.Some? && op.reqTime < previous.value {
      RefusedAccounted(cfg.latency, ram, b, op, NonMonotonicReqTime);
    } else {
      AcceptAccounted(cfg, ram, b, op, hadTie);
    }
  }

  lemma AcceptAccounted(cfg: Config, ram: seq<Byte>, b: BusState, op: BusOp, hadTie: bool)
    requires Accounted(cfg.latency, ram, b) && Validate(op) == None && Timely(b.trace.events, op)
    ensures Accounted(cfg.latency, ram, Execute(cfg, b, op, hadTie).bus)
  {
    hide EventsRight, Sound, EndOf, LastAddrOf, LastRequestOf, DeviceWrites, RamOf, Whole, SlotOf, Validate,
         ValueOf, RamAfter, DevAfter, LatencyOf, Held, Refused, SameProducer, DeviceRead, DeviceWrite, RamRead, RamWrite, Load, Store, ReadDevice, WriteDevice;
    var events := b.trace.events;
    var start := StartOf(b, op);
    var finish := start + LatencyOf(cfg.latency, b.lastAddr, op, hadTie);
    var e := Committed(start, finish, op, finish - op.reqTime, ValueOf(b.ram, b.dev, op));
    var done := Execute(cfg, b, op, hadTie).bus;
    KindsAgree(op);
    LatencyAgrees(cfg.latency, events, op, hadTie);
    EffectsAgree(b.ram, b.dev, op, finish);
    assert b.lastReq.Get(SlotOf(op)) == LastRequestOf(events, op);
    assert done.trace.events == events + [e];
    AcceptedKeepsRight(cfg.latency, ram, events, e);
    AcceptedAdds(ram, events, e);
    forall x
      ensures done.lastReq.Get(SlotOf(x)) == LastRequestOf(events + [e], x)
    {
      SlotsAgree(op, x);
      assert b.lastReq.Get(SlotOf(x)) == LastRequestOf(events, x);
    }
    if DeviceWrite(op) {
      DeviceHistory.AfterSnoc(DeviceWrites(events), DeviceHistory.Write(finish, op.cpuId, op.addr, op.size, op.data));
    }
  }

  lemma EnqueueAccounted(m: LatencyModel, ram: seq<Byte>, b: BusState, op: BusOp)
    requires Accounted(m, ram, b)
    ensures Accounted(m, ram, Enqueue(b, op))
  {
    hide EventsRight, EndOf, LastAddrOf, LastRequestOf, DeviceWrites, RamOf, Whole, DeviceHistory.After, SlotOf, Refused;
    if !EnqueueOk(b, op) {
      RefusedAccounted(m, ram, b, op, EnqueueNonMonotonicReqTime);
    }
  }

  lemma {:induction false} EnqueueFromAccounted(m: LatencyModel, ram: seq<Byte>, b: BusState, ops: seq<BusOp>, i: nat)
    requires Accounted(m, ram, b) && i <= |ops|
    ensures Accounted(m, ram, EnqueueFrom(b, ops, i).bus)
    decreases |ops| - i
  {
    hide Accounted, Enqueue, EnqueueOk;
    if i < |ops| && !b.trace.shouldHalt {
      EnqueueAccounted(m, ram, b, ops[i]);
      EnqueueFromAccounted(m, ram, Enqueue(b, ops[i]), ops, i + 1);
    }
  }

  lemma {:induction false} DrainAccounted(cfg: Config, ram: seq<Byte>, b: BusState, p: Progress, pending: seq<Pending>)
    requires Accounted(cfg.latency, ram, b)
    ensures Accounted(cfg.latency, ram, Drain(cfg, b, p, pending).bus)
    decreases |pending|
  {
    hide Drain, Execute, NextOf, TieOf, Committable, Accounted;
    DrainUnfolds(cfg, b, p, pending);
    if Continues(b, p, pending) {
      var next := NextOf(cfg, b, p, pending);
      ExecuteAccounted(cfg, ram, b, pending[next].op, TieOf(cfg, b, p, pending));
      DrainAccounted(cfg, ram, Stepped(cfg, b, p, pending).bus, p, Without(pending, next));
    }
  }

  lemma BatchAccounted(cfg: Config, ram: seq<Byte>, b: BusState, p: Progress, ops: seq<BusOp>)
    requires Accounted(cfg.latency, ram, b)
    ensures Accounted(cfg.latency, ram, CommitBatch(cfg, b, p, ops).bus)
  {
    hide Drain, EnqueueFrom, EventsRight, EndOf, LastAddrOf, LastRequestOf, DeviceWrites, RamOf, Whole, DeviceHistory.After;
    var b0 := b.(lastEnqueued := NOTHING_ENQUEUED);
    EnqueueFromAccounted(cfg.latency, ram, b0, ops, 0);
    var queue := EnqueueFrom(b0, ops, 0);
    DrainAccounted(cfg, ram, queue.bus, p, queue.pending);
  }

  lemma SingleAccounted(cfg: Config, ram: seq<Byte>, b: BusState, op: BusOp)
    requires Accounted(cfg.latency, ram, b)
    ensures Accounted(cfg.latency, ram, CommitOne(cfg, b, op).bus)
  {
    hide Accounted, Execute, Enqueue, EnqueueOk;
    EnqueueAccounted(cfg.latency, ram, b, op);
    ExecuteAccounted(cfg, ram, Enqueue(b, op), op, false);
  }

  lemma {:induction false} RunAccounted(cfg: Config, ram: seq<Byte>, m: ArbiterState, cs: seq<Command>)
    requires Accounted(cfg.latency, ram, m.bus)
    ensures Accounted(cfg.latency, ram, RunCommands(cfg, m, cs).bus)
  {
    hide Accounted, CommitBatch, CommitOne;
    if cs != [] {
      var before := RunCommands(cfg, m, cs[..|cs| - 1]);
      RunAccounted(cfg, ram, m, cs[..|cs| - 1]);
      match cs[|cs| - 1]
      case Batch(ops) => BatchAccounted(cfg, ram, before.bus, before.progress, ops);
      case Single(op) => SingleAccounted(cfg, ram, before.bus, op);
      case Dma(op) => SingleAccounted(cfg, ram, before.bus, AsDma(op));
      case Mark(_, _) =>
    }
  }

  /** A new arbiter, whatever its memory holds. */
  predicate AtReset(b: BusState) {
    && b.freeTime == 0 && b.lastAddr.None? && b.lastReq == PerSlot(None, None, None) && b.dev == RESET_DEV && b.trace.events == []
  }

  /** Over any run of commands from reset, the bus, memory and devices are what the trace says: the devices hold exactly the
      device writes accepted so far, each read was answered from what had been written before it, each operation started
      when it could and held the bus for what the latency model charges, and each refusal had the reason it gives. */
  lemma RunIsItsTrace(cfg: Config, m: ArbiterState, cs: seq<Command>)
    requires AtReset(m.bus)
    ensures Accounted(cfg.latency, m.bus.ram, RunCommands(cfg, m, cs).bus)
  {
    hide RunCommands;
    RunAccounted(cfg, m.bus.ram, m, cs);
  }

  // ----- conservation of bus time -----

  function BusyTicks(events: seq<Event>): int {
    if events == [] then 0
    else
      var e := events[|events| - 1];
      BusyTicks(events[..|events| - 1]) + if LastAccepted(events) then e.tEnd - e.tStart else 0
  }

  /** Ticks between the end of one accepted operation and the start of the next. */
  function IdleTicks(events: seq<Event>): int {
    if events == [] then 0
    else
      var e, before := events[|events| - 1], events[..|events| - 1];
      IdleTicks(before) + if LastAccepted(events) then e.tStart - EndOf(before) else 0
  }

  lemma {:induction false} BusyPlusIdle(events: seq<Event>)
    ensures BusyTicks(events) + IdleTicks(events) == EndOf(events)
  {
    if events != [] {
      BusyPlusIdle(events[..|events| - 1]);
    }
  }

  lemma HeldNotNegative(m: LatencyModel, before: seq<Event>, op: BusOp, tied: bool, ticks: int)
    requires Held(m, before, op, tied, ticks)
    ensures ticks >= 0
  {
  }

  lemma AcceptedLasts(m: LatencyModel, ram: seq<Byte>, before: seq<Event>, e: Event)
    requires e.Committed? && AcceptedRight(m, ram, before, e)
    ensures EndOf(before) <= e.tStart <= e.tEnd
  {
    hide Held, Sound, Timely, AnswerTo, EndOf;
    if Held(m, before, e.op, false, e.tEnd - e.tStart) {
      HeldNotNegative(m, before, e.op, false, e.tEnd - e.tStart);
    } else {
      HeldNotNegative(m, before, e.op, true, e.tEnd - e.tStart);
    }
  }

  lemma {:induction false} EndsGrow(m: LatencyModel, ram: seq<Byte>, events: seq<Event>, j: nat, k: nat)
    requires EventsRight(m, ram, events) && j <= k <= |events|
    ensures EndOf(events[..j]) <= EndOf(events[..k])
    decreases k
  {
    hide AcceptedRight, RefusedRight;
    if j < k {
      EndsGrow(m, ram, events, j, k - 1);
      assert events[..k][..k - 1] == events[..k - 1];
      if AcceptedAt(events, k - 1) {
        AcceptedLasts(m, ram, events[..k - 1], events[k - 1]);
      }
    }
  }

  /** Accepted operations never overlap on the bus and appear in the trace in time order. */
  lemma IntervalsDisjoint(m: LatencyModel, ram: seq<Byte>, events: seq<Event>, j: nat, k: nat)
    requires EventsRight(m, ram, events) && j < k && AcceptedAt(events, j) && AcceptedAt(events, k)
    ensures events[j].tEnd <= events[k].tStart
  {
    hide AcceptedRight, RefusedRight;
    assert events[..j + 1][..j] == events[..j];
    EndsGrow(m, ram, events, j + 1, k);
    AcceptedLasts(m, ram, events[..k], events[k]);
  }

  /** Conservation over any run of an arbiter from reset: the accepted operations tile the bus without overlap, each for the
      time the latency model charges it, and the time the bus becomes free is exactly what it spent busy plus what it spent
      idle. */
  lemma BusTimeConserved(cfg: Config, m: ArbiterState, cs: seq<Command>)
    requires AtReset(m.bus)
    ensures var b := RunCommands(cfg, m, cs).bus; var events := b.trace.events;
            && b.freeTime == BusyTicks(events) + IdleTicks(events) && EventsRight(cfg.latency, m.bus.ram, events)
            && (forall j, k :: 0 <= j < k < |events| && AcceptedAt(events, j) && AcceptedAt(events, k) ==> events[j].tEnd <= events[k].tStart)
  {
    hide EventsRight, BusyTicks, IdleTicks, EndOf, LastAddrOf, LastRequestOf, DeviceWrites, RamOf, RunCommands;
    RunIsItsTrace(cfg, m, cs);
    var events := RunCommands(cfg, m, cs).bus.trace.events;
    BusyPlusIdle(events);
    forall j, k | 0 <= j < k < |events| && AcceptedAt(events, j) && AcceptedAt(events, k)
      ensures events[j].tEnd <= events[k].tStart
    {
      IntervalsDisjoint(cfg.latency, m.bus.ram, events, j, k);
    }
  }
}
