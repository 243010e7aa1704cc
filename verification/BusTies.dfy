/** Where in the trace each commit of a batch stands, when it pays for a tie, what its reply carries, and what a halt stops. */
module BusTies {
  import opened Prelude
  import opened Bus
  import opened BusBatch
  import opened BusTiming
  import opened BusAccounts

  // ----- the trace only grows -----

  lemma ExecuteExtends(cfg: Config, b: BusState, op: BusOp, hadTie: bool)
    ensures b.trace.events <= Execute(cfg, b, op, hadTie).bus.trace.events
  {
    hide ValueOf, RamAfter, DevAfter, LatencyOf, Validate, FillsLine;
  }

  lemma {:induction false} DrainExtends(cfg: Config, b: BusState, p: Progress, pending: seq<Pending>)
    ensures b.trace.events <= Drain(cfg, b, p, pending).bus.trace.events
    decreases |pending|
  {
    hide Drain, Execute, NextOf, TieOf, Continues;
    DrainUnfolds(cfg, b, p, pending);
    if Continues(b, p, pending) {
      var next := NextOf(cfg, b, p, pending);
      ExecuteExtends(cfg, b, pending[next].op, TieOf(cfg, b, p, pending));
      DrainExtends(cfg, Stepped(cfg, b, p, pending).bus, p, Without(pending, next));
    }
  }

  // ----- the queue just before a commit -----

  function QueueBefore(cfg: Config, b: BusState, p: Progress, pending: seq<Pending>, k: nat): seq<Pending>
    requires k <= |Drain(cfg, b, p, pending).results|
    decreases k
  {
    DrainUnfolds(cfg, b, p, pending);
    if k == 0 then pending
    else
      var next := NextOf(cfg, b, p, pending);
      QueueBefore(cfg, Stepped(cfg, b, p, pending).bus, p, Without(pending, next), k - 1)
  }

  predicate Numbered(pending: seq<Pending>) {
    forall i, j :: 0 <= i < j < |pending| ==> pending[i].index < pending[j].index
  }

  /** Where what is left after taking entry n stood before. */
  lemma WithoutAt(pending: seq<Pending>, n: nat)
    requires n < |pending|
    ensures |Without(pending, n)| == |pending| - 1
    ensures forall i :: 0 <= i < |pending| - 1 ==> Without(pending, n)[i] == pending[if i < n then i else i + 1]
  {
  }

  lemma WithoutNumbered(pending: seq<Pending>, n: nat)
    requires Numbered(pending) && n < |pending|
    ensures Numbered(Without(pending, n))
  {
    hide Without;
    WithoutAt(pending, n);
  }

  lemma WithoutHolds(pending: seq<Pending>, n: nat, e: Pending)
    requires Numbered(pending) && n < |pending|
    ensures e in Without(pending, n) <==> e in pending && e.index != pending[n].index
  {
    hide Without;
    WithoutAt(pending, n);
    var rest := Without(pending, n);
    if e in pending && e.index != pending[n].index {
      var i :| 0 <= i < |pending| && pending[i] == e;
      assert rest[if i < n then i else i - 1] == e;
    }
    if e in rest {
      var i :| 0 <= i < |rest| && rest[i] == e;
      DifferentIndex(pending, if i < n then i else i + 1, n);
    }
  }

  lemma DifferentIndex(queue: seq<Pending>, i: nat, j: nat)
    requires Numbered(queue) && i < |queue| && j < |queue| && i != j
    ensures queue[i].index != queue[j].index
  {
  }

  predicate NotYet(results: seq<CommitResult>, k: nat, index: nat)
    requires k <= |results|
  {
    forall l :: 0 <= l < k ==> results[l].inputIndex != index
  }

  lemma NotYetMore(r: CommitResult, rest: seq<CommitResult>, k: nat, index: nat)
    requires 0 < k <= |rest| + 1
    ensures NotYet([r] + rest, k, index) <==> r.inputIndex != index && NotYet(rest, k - 1, index)
  {
    var all := [r] + rest;
    assert all[0] == r && forall l :: 0 < l < k ==> all[l] == rest[l - 1];
    if NotYet(all, k, index) {
      assert forall l :: 0 <= l < k - 1 ==> rest[l] == all[l + 1];
    }
  }

  /** What is still queued is what was queued and has not been committed. */
  lemma {:induction false} QueueBeforeIs(cfg: Config, b: BusState, p: Progress, pending: seq<Pending>, k: nat)
    requires Numbered(pending) && k <= |Drain(cfg, b, p, pending).results|
    ensures Numbered(QueueBefore(cfg, b, p, pending, k))
    ensures forall e :: e in QueueBefore(cfg, b, p, pending, k) <==> e in pending && NotYet(Drain(cfg, b, p, pending).results, k, e.index)
    decreases k
  {
    hide Drain, Execute, NextOf, TieOf, Continues, NotYet, Numbered;
    DrainUnfolds(cfg, b, p, pending);
    if k == 0 {
      NothingYet(Drain(cfg, b, p, pending).results);
    } else {
      var next := NextOf(cfg, b, p, pending);
      var rest := Without(pending, next);
      WithoutNumbered(pending, next);
      forall e: Pending
        ensures e in rest <==> e in pending && e.index != pending[next].index
      {
        WithoutHolds(pending, next, e);
      }
      QueueBeforeIs(cfg, Stepped(cfg, b, p, pending).bus, p, rest, k - 1);
      var more := Drain(cfg, Stepped(cfg, b, p, pending).bus, p, rest).results;
      forall e: Pending
        ensures NotYet(Drain(cfg, b, p, pending).results, k, e.index) <==> e.index != pending[next].index && NotYet(more, k - 1, e.index)
      {
        NotYetMore(ResultOf(cfg, b, p, pending), more, k, e.index);
      }
    }
  }

  lemma NothingYet(results: seq<CommitResult>)
    ensures forall index :: NotYet(results, 0, index)
  {
  }

  /** The k-th commit is the next one of the bus and queue before it. */
  lemma {:induction false} CommitOf(cfg: Config, b: BusState, p: Progress, pending: seq<Pending>, k: nat)
    requires k < |Drain(cfg, b, p, pending).results|
    ensures var bus, queue := BusBefore(cfg, b, p, pending, k), QueueBefore(cfg, b, p, pending, k);
            && Continues(bus, p, queue) && Drain(cfg, b, p, pending).results[k] == ResultOf(cfg, bus, p, queue)
            && Stepped(cfg, bus, p, queue).bus.trace.events <= Drain(cfg, b, p, pending).bus.trace.events
    decreases k
  {
    hide Drain, Execute, NextOf, TieOf, Continues;
    DrainUnfolds(cfg, b, p, pending);
    var next := NextOf(cfg, b, p, pending);
    var b1, rest := Stepped(cfg, b, p, pending).bus, Without(pending, next);
    if k == 0 {
      DrainExtends(cfg, b1, p, rest);
    } else {
      CommitOf(cfg, b1, p, rest, k - 1);
    }
  }

  lemma {:induction false} BusBeforeAccounted(cfg: Config, ram: seq<Byte>, b: BusState, p: Progress, pending: seq<Pending>, k: nat)
    requires k <= |Drain(cfg, b, p, pending).results| && Accounted(cfg.latency, ram, b)
    ensures Accounted(cfg.latency, ram, BusBefore(cfg, b, p, pending, k))
    decreases k
  {
    hide Drain, Execute, NextOf, TieOf, Continues, Accounted;
    DrainUnfolds(cfg, b, p, pending);
    if k > 0 {
      var next := NextOf(cfg, b, p, pending);
      ExecuteAccounted(cfg, ram, b, pending[next].op, TieOf(cfg, b, p, pending));
      BusBeforeAccounted(cfg, ram, Stepped(cfg, b, p, pending).bus, p, Without(pending, next), k - 1);
    }
  }

  // ----- a commit and its place in the trace -----

  /** The reply and the trace agree: an accepted operation is the event after `before`, held for what the model charges. */
  predicate Recorded(m: LatencyModel, before: seq<Event>, events: seq<Event>, op: BusOp, tied: bool, r: Response) {
    && before <= events && Whole(before) && r.startTime == Max(op.reqTime, EndOf(before))
    && if AcceptedAt(events, |before|)
       then events[|before|] == Committed(r.startTime, r.commitTime, op, r.stall, r.value) && Held(m, before, op, tied, r.commitTime - r.startTime)
       else RefusedAt(events, |before|) && events[|before| + 1] == Committed(r.startTime, r.startTime, op, 0, 0xBAD0_BAD0)
            && r.commitTime == r.startTime && r.stall == 0 && r.value == 0xBAD0_BAD0
  }

  lemma ExecuteRecorded(cfg: Config, ram: seq<Byte>, b: BusState, op: BusOp, hadTie: bool, events: seq<Event>)
    requires Accounted(cfg.latency, ram, b) && Execute(cfg, b, op, hadTie).bus.trace.events <= events
    ensures Recorded(cfg.latency, b.trace.events, events, op, hadTie, Execute(cfg, b, op, hadTie).response)
  {
    hide EventsRight, Remembered, EndOf, LastAddrOf, LastRequestOf, DeviceWrites, RamOf, DeviceHistory.After, SlotOf, Validate,
         ValueOf, RamAfter, DevAfter, LatencyOf, Held, FillsLine;
    LatencyAgrees(cfg.latency, b.trace.events, op, hadTie);
    var before, after := b.trace.events, Execute(cfg, b, op, hadTie).bus.trace.events;
    assert forall k :: 0 <= k < |after| ==> events[k] == after[k];
    assert before <= after;
  }

  /** Another operation the batch could have taken instead at this point: admitted, below the horizon, not committed yet,
      able to start at the same tick, and of the same class. */
  ghost predicate TiedAt(cfg: Config, p: Progress, ops: seq<BusOp>, results: seq<CommitResult>, k: nat, free: Tick)
    requires k < |results|
  {
    exists i :: 0 <= i < |ops| && Contends(cfg, p, ops, results, k, free, i)
  }

  ghost predicate Contends(cfg: Config, p: Progress, ops: seq<BusOp>, results: seq<CommitResult>, k: nat, free: Tick, i: nat)
    requires k < |results| && i < |ops|
  {
    && EnqueueValid(ops, i) && Committable(p, ops[i]) && NotYet(results, k + 1, i)
    && Max(ops[i].reqTime, free) == Max(results[k].op.reqTime, free) && cfg.policy(ops[i]) == cfg.policy(results[k].op)
  }

  /** Enqueueing that does not halt admits exactly the operations in order for their producers. */
  lemma {:induction false} EnqueueAdmitsUnhalted(b: BusState, ops: seq<BusOp>, i: nat)
    requires i <= |ops| && EnqueueTracks(b, ops, i) && !EnqueueFrom(b, ops, i).bus.trace.shouldHalt
    ensures EnqueueFrom(b, ops, i).pending == Admitted(ops, i)
    decreases |ops| - i
  {
    hide Enqueue, EnqueueOk, EnqueueValid, EnqueueTracks;
    if i < |ops| {
      EnqueueStep(b, ops, i);
      EnqueueAdmitsUnhalted(Enqueue(b, ops[i]), ops, i + 1);
    }
  }

  lemma TieIs(cfg: Config, p: Progress, ops: seq<BusOp>, results: seq<CommitResult>, k: nat, bus: BusState, queue: seq<Pending>)
    requires k < |results| && Continues(bus, p, queue) && Numbered(queue) && results[k] == ResultOf(cfg, bus, p, queue)
    requires forall e :: e in queue <==> e in Admitted(ops, 0) && NotYet(results, k, e.index)
    ensures TieOf(cfg, bus, p, queue) <==> TiedAt(cfg, p, ops, results, k, bus.freeTime)
  {
    hide Execute, NextOf, Committable, EnqueueValid;
    var next, idxs := NextOf(cfg, bus, p, queue), CommittableFrom(p, queue, 0);
    CommittableFacts(p, queue, 0);
    if TieOf(cfg, bus, p, queue) {
      var j :| 0 <= j < |idxs| && idxs[j] != next && Ties(cfg, bus, queue[idxs[j]].op, queue[next].op);
      var e := queue[idxs[j]];
      assert e in queue && e in Admitted(ops, 0);
      DifferentIndex(queue, idxs[j], next);
      assert Contends(cfg, p, ops, results, k, bus.freeTime, e.index);
    }
    if TiedAt(cfg, p, ops, results, k, bus.freeTime) {
      var i :| 0 <= i < |ops| && Contends(cfg, p, ops, results, k, bus.freeTime, i);
      var e := Pending(i, ops[i]);
      assert e in Admitted(ops, 0) && e in queue;
      var n :| 0 <= n < |queue| && queue[n] == e;
      assert n in idxs && n != next;
      var j :| 0 <= j < |idxs| && idxs[j] == n;
      assert Ties(cfg, bus, queue[idxs[j]].op, queue[next].op);
    }
  }

  /** Each commit of a batch stands in the trace after what came before it, starts and ends as its reply says, and pays the
      tie turnaround exactly when another operation of the batch contends with it there. */
  lemma BatchRecorded(cfg: Config, ram: seq<Byte>, b: BusState, p: Progress, ops: seq<BusOp>, k: nat) returns (before: seq<Event>)
    requires Accounted(cfg.latency, ram, b) && k < |CommitBatch(cfg, b, p, ops).results|
    ensures var out := CommitBatch(cfg, b, p, ops); var r := out.results[k];
            Recorded(cfg.latency, before, out.bus.trace.events, r.op, TiedAt(cfg, p, ops, out.results, k, EndOf(before)), r.response)
  {
    hide Drain, EnqueueFrom, Accounted, EnqueueTracks, Admitted, Recorded, TiedAt, Execute, NextOf, TieOf, Continues, QueueBefore, BusBefore, Numbered;
    var b0 := b.(lastEnqueued := NOTHING_ENQUEUED);
    ForgetsEnqueued(cfg.latency, ram, b);
    EnqueueFromAccounted(cfg.latency, ram, b0, ops, 0);
    var queue := EnqueueFrom(b0, ops, 0);
    QueueIsAdmitted(cfg, b0, p, ops);
    AdmittedNumbered(ops);
    BusBeforeAccounted(cfg, ram, queue.bus, p, queue.pending, k);
    CommitOf(cfg, queue.bus, p, queue.pending, k);
    QueueBeforeIs(cfg, queue.bus, p, queue.pending, k);
    var bus, left := BusBefore(cfg, queue.bus, p, queue.pending, k), QueueBefore(cfg, queue.bus, p, queue.pending, k);
    TieIs(cfg, p, ops, CommitBatch(cfg, b, p, ops).results, k, bus, left);
    ExecuteRecorded(cfg, ram, bus, left[NextOf(cfg, bus, p, left)].op, TieOf(cfg, bus, p, left), CommitBatch(cfg, b, p, ops).bus.trace.events);
    FreeIsEnd(cfg.latency, ram, bus);
    before := bus.trace.events;
  }

  lemma ForgetsEnqueued(m: LatencyModel, ram: seq<Byte>, b: BusState)
    requires Accounted(m, ram, b)
    ensures Accounted(m, ram, b.(lastEnqueued := NOTHING_ENQUEUED))
  {
    hide EventsRight, EndOf, LastAddrOf, LastRequestOf, DeviceWrites, RamOf;
  }

  lemma FreeIsEnd(m: LatencyModel, ram: seq<Byte>, b: BusState)
    requires Accounted(m, ram, b)
    ensures b.freeTime == EndOf(b.trace.events)
  {
    hide EventsRight, EndOf;
  }

  lemma AdmittedNumbered(ops: seq<BusOp>)
    ensures Numbered(Admitted(ops, 0))
  {
  }

  lemma QueueIsAdmitted(cfg: Config, b: BusState, p: Progress, ops: seq<BusOp>)
    requires b.lastEnqueued == NOTHING_ENQUEUED
    requires Drain(cfg, EnqueueFrom(b, ops, 0).bus, p, EnqueueFrom(b, ops, 0).pending).results != []
    ensures EnqueueFrom(b, ops, 0).pending == Admitted(ops, 0)
  {
    hide EnqueueFrom, Admitted, EnqueueTracks;
    NothingEnqueuedTracks(b, ops);
    EnqueueAdmitsUnhalted(b, ops, 0);
  }

  /** A single commit that is carried out never pays for a tie. */
  lemma SingleRecorded(cfg: Config, ram: seq<Byte>, b: BusState, op: BusOp)
    requires Accounted(cfg.latency, ram, b) && !b.trace.shouldHalt && EnqueueOk(b, op)
    ensures Recorded(cfg.latency, b.trace.events, CommitOne(cfg, b, op).bus.trace.events, op, false, CommitOne(cfg, b, op).response)
  {
    hide Accounted, Recorded, Execute;
    EnqueueAccounted(cfg.latency, ram, b, op);
    ExecuteRecorded(cfg, ram, Enqueue(b, op), op, false, CommitOne(cfg, b, op).bus.trace.events);
  }

  /** An operation handed to DMA is recorded as DMA's, and is otherwise what was handed over. */
  lemma DmaRecorded(cfg: Config, ram: seq<Byte>, b: BusState, op: BusOp) returns (dma: BusOp)
    requires Accounted(cfg.latency, ram, b) && !b.trace.shouldHalt && EnqueueOk(b, AsDma(op))
    ensures dma.cpuId == -1 && FromDma(dma) && dma.(cpuId := op.cpuId, producer := op.producer) == op
    ensures Recorded(cfg.latency, b.trace.events, CommitOne(cfg, b, AsDma(op)).bus.trace.events, dma, false, CommitOne(cfg, b, AsDma(op)).response)
  {
    hide Accounted, Recorded, CommitOne, EnqueueOk;
    SingleRecorded(cfg, ram, b, AsDma(op));
    dma := AsDma(op);
  }

  /** Byte j of the line that starts here; a line that does not lie in memory reads zero. */
  function LineByte(ram: seq<Byte>, start: nat, size: nat, j: nat): Byte {
    if start + size <= |ram| && start + j < |ram| then ram[start + j] else 0
  }

  /** The reply to an operation that asks for its line carries that line of the memory before it; any other carries none. */
  predicate LineOf(ram: seq<Byte>, op: BusOp, r: Response) {
    if RamRead(op) && op.fillLine && op.lineSize > 0 then
      && r.lineBase == op.addr / op.lineSize && |r.lineData| == op.lineSize
      && forall j :: 0 <= j < |r.lineData| ==> r.lineData[j] == LineByte(ram, r.lineBase * op.lineSize, op.lineSize, j)
    else r.lineData == [] && r.lineBase == 0
  }

  /** A read of memory that asks for its line is handed the bytes of the line it lies in; nothing else is handed a line. */
  lemma LineHandedOver(cfg: Config, ram: seq<Byte>, b: BusState, op: BusOp, hadTie: bool)
    requires Accounted(cfg.latency, ram, b) && Sound(op) && Timely(b.trace.events, op)
    ensures LineOf(b.ram, op, Execute(cfg, b, op, hadTie).response)
  {
    hide EventsRight, EndOf, LastAddrOf, LastRequestOf, DeviceWrites, RamOf, DeviceHistory.After, SlotOf, Validate, Sound,
         ValueOf, RamAfter, DevAfter, LatencyOf;
    KindsAgree(op);
    assert b.lastReq.Get(SlotOf(op)) == LastRequestOf(b.trace.events, op);
  }

  // ----- halting -----

  /** Halting on faults: nothing is recorded after the refusal that halts. */
  ghost predicate HaltsAtFault(t: Trace) {
    && t.haltOnFault && (t.shouldHalt <==> exists k :: 0 <= k < |t.events| && t.events[k].Faulted?)
    && forall k :: 0 <= k < |t.events| && t.events[k].Faulted? ==> |t.events| == k + 2
  }

  lemma ExecuteHalts(cfg: Config, b: BusState, op: BusOp, hadTie: bool)
    requires HaltsAtFault(b.trace) && !b.trace.shouldHalt
    ensures HaltsAtFault(Execute(cfg, b, op, hadTie).bus.trace)
  {
    hide ValueOf, RamAfter, DevAfter, LatencyOf, Validate, FillsLine, SlotOf;
    var t := Execute(cfg, b, op, hadTie).bus.trace;
    if t.shouldHalt {
      assert t.events[|b.trace.events|].Faulted?;
    }
  }

  lemma EnqueueHalts(b: BusState, op: BusOp)
    requires HaltsAtFault(b.trace) && !b.trace.shouldHalt
    ensures HaltsAtFault(Enqueue(b, op).trace) && (Enqueue(b, op).trace.shouldHalt <==> !EnqueueOk(b, op))
  {
    hide SlotOf;
    var t := Enqueue(b, op).trace;
    if !EnqueueOk(b, op) {
      assert t.events[|b.trace.events|].Faulted?;
    }
  }

  lemma {:induction false} EnqueueFromHalts(b: BusState, ops: seq<BusOp>, i: nat)
    requires HaltsAtFault(b.trace) && i <= |ops|
    ensures HaltsAtFault(EnqueueFrom(b, ops, i).bus.trace)
    decreases |ops| - i
  {
    hide HaltsAtFault, Enqueue, EnqueueOk;
    if i < |ops| && !b.trace.shouldHalt {
      EnqueueHalts(b, ops[i]);
      EnqueueFromHalts(Enqueue(b, ops[i]), ops, i + 1);
    }
  }

  lemma {:induction false} DrainHalts(cfg: Config, b: BusState, p: Progress, pending: seq<Pending>)
    requires HaltsAtFault(b.trace)
    ensures HaltsAtFault(Drain(cfg, b, p, pending).bus.trace)
    decreases |pending|
  {
    hide Drain, Execute, NextOf, TieOf, HaltsAtFault;
    DrainUnfolds(cfg, b, p, pending);
    if Continues(b, p, pending) {
      var next := NextOf(cfg, b, p, pending);
      ExecuteHalts(cfg, b, pending[next].op, TieOf(cfg, b, p, pending));
      DrainHalts(cfg, Stepped(cfg, b, p, pending).bus, p, Without(pending, next));
    }
  }

  lemma CommandHalts(cfg: Config, m: ArbiterState, c: Command)
    requires HaltsAtFault(m.bus.trace)
    ensures HaltsAtFault(Obey(cfg, m, c).bus.trace)
  {
    hide Drain, Execute, EnqueueFrom, HaltsAtFault, Enqueue, EnqueueOk;
    match c
    case Batch(ops) =>
      EnqueueFromHalts(m.bus.(lastEnqueued := NOTHING_ENQUEUED), ops, 0);
      var queue := EnqueueFrom(m.bus.(lastEnqueued := NOTHING_ENQUEUED), ops, 0);
      DrainHalts(cfg, queue.bus, m.progress, queue.pending);
    case Single(op) => SingleHalts(cfg, m.bus, op);
    case Dma(op) => SingleHalts(cfg, m.bus, AsDma(op));
    case Mark(_, _) =>
  }

  lemma SingleHalts(cfg: Config, b: BusState, op: BusOp)
    requires HaltsAtFault(b.trace)
    ensures HaltsAtFault(CommitOne(cfg, b, op).bus.trace)
  {
    hide Execute, HaltsAtFault, Enqueue, EnqueueOk;
    if !b.trace.shouldHalt {
      EnqueueHalts(b, op);
      if EnqueueOk(b, op) {
        ExecuteHalts(cfg, Enqueue(b, op), op, false);
      }
    }
  }

  /** A single commit that is not let through is answered by the fixed word at once, and a halted arbiter does nothing else. */
  lemma NotLetThrough(cfg: Config, b: BusState, op: BusOp)
    requires b.trace.shouldHalt || !EnqueueOk(b, op)
    ensures CommitOne(cfg, b, op).response == Response(0xBAD0_BAD0, 0, b.freeTime, b.freeTime, 0, [])
    ensures b.trace.shouldHalt ==> CommitOne(cfg, b, op).bus == b
  {
  }

  /** With halting on faults, over any run of commands nothing is committed after the first fault: the trace ends with the
      refusal that faulted, and goes on as long as there is none. */
  lemma {:induction false} NothingAfterFault(cfg: Config, m: ArbiterState, cs: seq<Command>)
    requires m.bus.trace == Trace([], true, false)
    ensures var t := RunCommands(cfg, m, cs).bus.trace;
            && (forall k :: 0 <= k < |t.events| && t.events[k].Faulted? ==> |t.events| == k + 2)
            && (t.shouldHalt <==> exists k :: 0 <= k < |t.events| && t.events[k].Faulted?)
  {
    hide RunCommands;
    RunHalts(cfg, m, cs);
  }

  lemma {:induction false} RunHalts(cfg: Config, m: ArbiterState, cs: seq<Command>)
    requires HaltsAtFault(m.bus.trace)
    ensures HaltsAtFault(RunCommands(cfg, m, cs).bus.trace)
  {
    hide HaltsAtFault, Obey;
    if cs != [] {
      RunHalts(cfg, m, cs[..|cs| - 1]);
      CommandHalts(cfg, RunCommands(cfg, m, cs[..|cs| - 1]), cs[|cs| - 1]);
    }
  }
}
