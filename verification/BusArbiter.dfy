/** The arbiter as an object: its fields, and methods that carry out the functions of module Bus in place. */
module BusArbiters {
  import opened Prelude
  import opened Memory
  import opened Devices
  import opened Bus
  import opened BusBatch

  class TraceLog {
    var events: seq<Event>
    var haltOnFault: bool
    var shouldHalt: bool

    ghost function Value(): Trace
      reads this
    {
      Trace(events, haltOnFault, shouldHalt)
    }

    constructor ()
      ensures Value() == Trace([], false, false)
    {
      events, haltOnFault, shouldHalt := [], false, false;
    }

    method SetHaltOnFault(enabled: bool)
      modifies this
      ensures Value() == Trace(old(events), enabled, enabled && old(shouldHalt))
    {
      haltOnFault := enabled;
      if !enabled {
        shouldHalt := false;
      }
    }

    method Add(e: Event)
      modifies this
      ensures Value() == old(Value()).Add(e)
    {
      events := events + [e];
      if e.Faulted? && haltOnFault {
        shouldHalt := true;
      }
    }
  }

  class BusArbiter {
    const memory: CommittedMemory
    const devices: DeviceHub
    const trace: TraceLog
    const policy: BusOp -> nat
    const latency: LatencyModel

    var busFreeTime: Tick
    var lastGrantCpu: int
    var lastAddr: Option<nat>
    var progress: Progress
    var producerLastReqTime: PerSlot
    var producerLastEnqueued: PerSlot

    ghost function Cfg(): Config {
      Config(policy, latency)
    }

    ghost function State(): BusState
      reads this, memory, memory.bytes, devices, trace
    {
      BusState(busFreeTime, lastGrantCpu, lastAddr, producerLastReqTime, producerLastEnqueued,
               memory.Contents(), devices.State(), trace.Value())
    }

    constructor (memory: CommittedMemory, devices: DeviceHub, trace: TraceLog, policy: BusOp -> nat, latency: LatencyModel)
      ensures this.memory == memory && this.devices == devices && this.trace == trace
      ensures Cfg() == Config(policy, latency)
      ensures State() == BusState(0, 1, None, NOTHING_ENQUEUED, NOTHING_ENQUEUED, memory.Contents(), devices.State(), trace.Value())
      ensures progress == NO_PROGRESS
    {
      this.memory, this.devices, this.trace := memory, devices, trace;
      this.policy, this.latency := policy, latency;
      busFreeTime, lastGrantCpu, lastAddr := 0, 1, None;
      progress := NO_PROGRESS;
      producerLastReqTime, producerLastEnqueued := NOTHING_ENQUEUED, NOTHING_ENQUEUED;
    }

    method UpdateProgress(cpuId: int, executedUpTo: Tick)
      modifies `progress
      ensures progress == Bus.UpdateProgress(old(progress), cpuId, executedUpTo)
    {
      if cpuId == 0 {
        progress := progress.(enabled := true);
        if progress.cpu0.None? || executedUpTo > progress.cpu0.value {
          progress := progress.(cpu0 := Some(executedUpTo));
        }
      } else if cpuId == 1 {
        progress := progress.(enabled := true);
        if progress.cpu1.None? || executedUpTo > progress.cpu1.value {
          progress := progress.(cpu1 := Some(executedUpTo));
        }
      }
    }

    method FaultResponse(op: BusOp, start: Tick, reason: FaultReason) returns (r: Response)
      requires start == StartOf(State(), op)
      modifies trace
      ensures State() == Refused(old(State()), op, reason).bus
      ensures r == Refused(old(State()), op, reason).response
    {
      trace.Add(Faulted(start, op.cpuId, reason));
      trace.Add(Committed(start, start, op, 0, INVALID_VALUE));
      r := Response(INVALID_VALUE, 0, start, start, 0, []);
    }

    method ValidateEnqueueContract(op: BusOp) returns (ok: bool)
      modifies `producerLastEnqueued, trace
      ensures ok == EnqueueOk(old(State()), op)
      ensures State() == Enqueue(old(State()), op)
    {
      var slot := SlotOf(op);
      var last := producerLastEnqueued.Get(slot);
      if last.Some? && op.reqTime < last.value {
        var _ := FaultResponse(op, Max(op.reqTime, busFreeTime), EnqueueNonMonotonicReqTime);
        return false;
      }
      producerLastEnqueued := producerLastEnqueued.Set(slot, Some(op.reqTime));
      return true;
    }

    method ExecuteCommit(op: BusOp, hadTie: bool) returns (r: Response)
      modifies this, memory.bytes, devices, trace
      ensures State() == Execute(Cfg(), old(State()), op, hadTie).bus
      ensures r == Execute(Cfg(), old(State()), op, hadTie).response
      ensures progress == old(progress)
    {
      hide RamAfter, DevAfter, ValueOf, Validate, SlotOf, FillsLine, LatencyOf;
      var start := Max(op.reqTime, busFreeTime);
      var error := Validate(op);
      if error.Some? {
        r := FaultResponse(op, start, error.value);
        return;
      }
      var slot := SlotOf(op);
      var previous := producerLastReqTime.Get(slot);
      if previous.Some? && op.reqTime < previous.value {
        r := FaultResponse(op, start, NonMonotonicReqTime);
        return;
      }
      r := Accept(op, hadTie, start);
    }

    /** An operation that is neither malformed nor late. */
    method Accept(op: BusOp, hadTie: bool, start: Tick) returns (r: Response)
      requires Validate(op) == None && start == StartOf(State(), op)
      requires var previous := producerLastReqTime.Get(SlotOf(op)); previous.None? || op.reqTime >= previous.value
      modifies this, memory.bytes, devices, trace
      ensures State() == Execute(Cfg(), old(State()), op, hadTie).bus
      ensures r == Execute(Cfg(), old(State()), op, hadTie).response
      ensures progress == old(progress)
    {
      hide ReadDevice, WriteDevice, Load, Store, Block, RamAfter, DevAfter, ValueOf, Validate, SlotOf, IsMmio, FillsLine, LatencyOf;
      producerLastReqTime := producerLastReqTime.Set(SlotOf(op), Some(op.reqTime));
      var latencyOfOp := LatencyFor(op, hadTie);
      var finish := start + latencyOfOp;
      var stall := finish - op.reqTime;
      var value, lineBase, lineData := PerformAccess(op, finish);
      TakeBus(op, hadTie, finish);
      trace.Add(Committed(start, finish, op, stall, value));
      r := Response(value, stall, start, finish, lineBase, lineData);
    }

    /** The address, the turn and the time the bus remembers. */
    method TakeBus(op: BusOp, hadTie: bool, finish: Tick)
      modifies `lastAddr, `lastGrantCpu, `busFreeTime
      ensures State() == old(State()).(
        freeTime := finish,
        lastGrantCpu := if hadTie && IsCpu(op.cpuId) then op.cpuId else old(lastGrantCpu),
        lastAddr := if op.kind == Barrier then old(lastAddr) else Some(op.addr))
    {
      if op.kind != Barrier {
        lastAddr := Some(op.addr);
      }
      if hadTie && IsCpu(op.cpuId) {
        lastGrantCpu := op.cpuId;
      }
      busFreeTime := finish;
    }

    /** The memory or device access itself. */
    method PerformAccess(op: BusOp, finish: Tick) returns (value: Word, lineBase: nat, lineData: seq<Byte>)
      requires Validate(op) == None
      modifies memory.bytes, devices
      ensures memory.Contents() == RamAfter(old(memory.Contents()), op)
      ensures devices.State() == DevAfter(old(devices.State()), op, finish)
      ensures value == ValueOf(old(memory.Contents()), old(devices.State()), op)
      ensures lineBase == if FillsLine(op) then op.addr / op.lineSize else 0
      ensures lineData == if FillsLine(op) then Block(old(memory.Contents()), op.addr / op.lineSize * op.lineSize, op.lineSize) else []
    {
      value := op.data;
      lineBase := 0;
      lineData := [];
      if op.kind == Barrier {
      } else if op.kind == Write || op.kind == MmioWrite {
        if IsMmio(op.addr) || op.kind == MmioWrite {
          devices.Write(finish, op.cpuId, op.addr, op.size, op.data);
        } else {
          memory.Write(op.addr, op.size, op.data);
        }
      } else if IsMmio(op.addr) || op.kind == MmioRead {
        value := devices.Read(op.addr, op.size);
      } else {
        value := memory.Read(op.addr, op.size);
        if op.fillLine && op.lineSize > 0 {
          lineBase := op.addr / op.lineSize;
          lineData := memory.ReadBlock(lineBase * op.lineSize, op.lineSize);
        }
      }
    }

    method LatencyFor(op: BusOp, hadTie: bool) returns (n: nat)
      ensures n == LatencyOf(latency, lastAddr, op, hadTie)
    {
      n := BaseLatency(latency, op);
      if op.kind != Barrier && lastAddr.Some? && op.addr == lastAddr.value {
        n := n + latency.sameAddressContention;
      }
      if hadTie {
        n := n + latency.tieTurnaround;
      }
    }

    method PickNext(pending: seq<Pending>, committable: seq<nat>) returns (best: nat)
      requires |committable| > 0
      requires forall j :: 0 <= j < |committable| ==> committable[j] < |pending|
      ensures best == Bus.PickNext(Cfg(), State(), pending, committable)
    {
      best := committable[0];
      var bestStart := Max(pending[best].op.reqTime, busFreeTime);
      var k := 0;
      while k < |committable|
        invariant 0 <= k <= |committable| && best < |pending|
        invariant bestStart == StartOf(State(), pending[best].op)
        invariant PickFrom(Cfg(), State(), pending, committable, k, best) == Bus.PickNext(Cfg(), State(), pending, committable)
      {
        var idx := committable[k];
        var candidate, cur := pending[idx].op, pending[best].op;
        var start := Max(candidate.reqTime, busFreeTime);
        if start < bestStart {
          best, bestStart := idx, start;
        } else if start > bestStart {
        } else if SlotOf(candidate) == SlotOf(cur) {
          if candidate.sequence < cur.sequence || (candidate.sequence == cur.sequence && candidate.reqTime < cur.reqTime) {
            best := idx;
          }
        } else if policy(candidate) > policy(cur) {
          best := idx;
        } else if policy(candidate) < policy(cur) {
        } else if IsCpu(candidate.cpuId) && IsCpu(cur.cpuId) && candidate.cpuId != cur.cpuId {
          var preferred := if lastGrantCpu == 0 then 1 else 0;
          if candidate.cpuId == preferred {
            best := idx;
          }
        } else if candidate.cpuId != cur.cpuId {
          if candidate.cpuId < cur.cpuId {
            best := idx;
          }
        } else if candidate.sequence < cur.sequence {
          best := idx;
        }
        k := k + 1;
      }
    }

    method DetectTie(pending: seq<Pending>, committable: seq<nat>, next: nat) returns (hadTie: bool)
      requires next < |pending|
      requires forall j :: 0 <= j < |committable| ==> committable[j] < |pending|
      ensures hadTie == HadTie(Cfg(), State(), pending, committable, next)
    {
      var chosen := pending[next].op;
      var nextStart := Max(chosen.reqTime, busFreeTime);
      for k := 0 to |committable|
        invariant forall j :: 0 <= j < k && committable[j] != next ==> !Ties(Cfg(), State(), pending[committable[j]].op, chosen)
      {
        var i := committable[k];
        if i != next {
          var candidate := pending[i].op;
          if Max(candidate.reqTime, busFreeTime) == nextStart && policy(candidate) == policy(chosen) {
            assert Ties(Cfg(), State(), candidate, chosen);
            return true;
          }
        }
      }
      return false;
    }

    method CommittableEntries(pending: seq<Pending>) returns (r: seq<nat>)
      ensures r == CommittableFrom(progress, pending, 0)
    {
      hide Committable;
      r := [];
      var p := progress;
      ghost var all := CommittableFrom(p, pending, 0);
      var i := 0;
      while i < |pending|
        invariant 0 <= i <= |pending|
        invariant r + CommittableFrom(p, pending, i) == all
      {
        ghost var rest := CommittableFrom(p, pending, i + 1);
        if Committable(p, pending[i].op) {
          assert r + ([i] + rest) == (r + [i]) + rest;
          r := r + [i];
        }
        i := i + 1;
      }
      assert r + [] == r;
    }

    method EnqueueAll(ops: seq<BusOp>) returns (pending: seq<Pending>)
      modifies `producerLastEnqueued, trace
      ensures State() == EnqueueFrom(old(State()), ops, 0).bus
      ensures pending == EnqueueFrom(old(State()), ops, 0).pending
    {
      pending := [];
      var i := 0;
      while i < |ops| && !trace.shouldHalt
        invariant 0 <= i <= |ops|
        invariant EnqueueFrom(State(), ops, i).bus == EnqueueFrom(old(State()), ops, 0).bus
        invariant pending + EnqueueFrom(State(), ops, i).pending == EnqueueFrom(old(State()), ops, 0).pending
      {
        var ok := ValidateEnqueueContract(ops[i]);
        if ok {
          pending := pending + [Pending(i, ops[i])];
        }
        i := i + 1;
      }
      assert pending + [] == pending;
    }

    /** One turn of the batch loop: commits the next committable entry, if the batch may go on. */
    method CommitNext(pending: seq<Pending>) returns (done: bool, result: CommitResult, rest: seq<Pending>)
      modifies this, memory.bytes, devices, trace
      ensures done <==> !Continues(old(State()), progress, pending)
      ensures done ==> State() == old(State())
      ensures !done ==>
        && State() == Stepped(Cfg(), old(State()), progress, pending).bus
        && result == ResultOf(Cfg(), old(State()), progress, pending)
        && rest == Without(pending, NextOf(Cfg(), old(State()), progress, pending))
      ensures progress == old(progress)
    {
      hide Execute, CommittableFrom, HadTie, Bus.PickNext;
      done, rest := true, pending;
      result := CommitResult(0, BusOp(0, 0, 0, Barrier, 0, 0, 0, false, 0, AutoProducer, 0), Response(0, 0, 0, 0, 0, []));
      if trace.shouldHalt {
        return;
      }
      var committable := CommittableEntries(pending);
      if |committable| == 0 {
        return;
      }
      var next := PickNext(pending, committable);
      var hadTie := DetectTie(pending, committable, next);
      var chosen := pending[next];
      var response := ExecuteCommit(chosen.op, hadTie);
      done := false;
      result := CommitResult(chosen.index, chosen.op, response);
      rest := Without(pending, next);
    }

    method CommitBatch(ops: seq<BusOp>) returns (committed: seq<CommitResult>)
      modifies this, memory.bytes, devices, trace
      ensures State() == Bus.CommitBatch(Cfg(), old(State()), progress, ops).bus
      ensures committed == Bus.CommitBatch(Cfg(), old(State()), progress, ops).results
      ensures progress == old(progress)
    {
      hide Stepped, ResultOf, NextOf, Continues, EnqueueFrom, Drain;
      producerLastEnqueued := NOTHING_ENQUEUED;
      var pending := EnqueueAll(ops);
      ghost var all := Drain(Cfg(), State(), progress, pending);
      committed := [];
      while |pending| > 0
        invariant Drain(Cfg(), State(), progress, pending).bus == all.bus
        invariant committed + Drain(Cfg(), State(), progress, pending).results == all.results
        invariant progress == old(progress)
        decreases |pending|
      {
        DrainUnfolds(Cfg(), State(), progress, pending);
        var done, result, rest := CommitNext(pending);
        if done {
          assert committed + [] == committed;
          return;
        }
        ghost var more := Drain(Cfg(), State(), progress, rest).results;
        assert committed + ([result] + more) == (committed + [result]) + more;
        committed := committed + [result];
        pending := rest;
      }
      DrainUnfolds(Cfg(), State(), progress, pending);
      NothingContinues(State(), progress, pending);
      assert committed + [] == committed;
    }

    /** Commits what it can from a queue and hands back the rest. */
    method CommitPending(pendingOps: seq<BusOp>) returns (committed: seq<CommitResult>, remaining: seq<BusOp>)
      modifies this, memory.bytes, devices, trace
      ensures State() == Bus.CommitBatch(Cfg(), old(State()), progress, pendingOps).bus
      ensures committed == Bus.CommitBatch(Cfg(), old(State()), progress, pendingOps).results
      ensures remaining == Remaining(pendingOps, CommittedIndices(committed), 0)
      ensures Splits(pendingOps, committed, remaining)
      ensures progress == old(progress)
    {
      hide Bus.CommitBatch, Splits, CommittedIndices, Remaining;
      PendingSplits(Cfg(), State(), progress, pendingOps);
      committed := CommitBatch(pendingOps);
      NoneCommitted(pendingOps);
      if |committed| == 0 {
        return committed, pendingOps;
      }
      var wasCommitted := seq(|pendingOps|, _ => false);
      for k := 0 to |committed|
        invariant |wasCommitted| == |pendingOps|
        invariant forall i :: 0 <= i < |pendingOps| ==> (wasCommitted[i] <==> i in CommittedIndices(committed[..k]))
        modifies {}
      {
        OneMoreCommitted(committed, k);
        if committed[k].inputIndex < |wasCommitted| {
          wasCommitted := wasCommitted[committed[k].inputIndex := true];
        }
      }
      assert committed[..|committed|] == committed;
      ghost var done := CommittedIndices(committed);
      remaining := [];
      assert [] + Remaining(pendingOps, done, 0) == Remaining(pendingOps, done, 0);
      for i := 0 to |pendingOps|
        invariant remaining + Remaining(pendingOps, done, i) == Remaining(pendingOps, done, 0)
        modifies {}
      {
        OneMoreRemaining(remaining, pendingOps, done, i);
        if !wasCommitted[i] {
          remaining := remaining + [pendingOps[i]];
        }
      }
      NothingRemains(remaining, pendingOps, done);
    }

    method Commit(op: BusOp) returns (r: Response)
      modifies this, memory.bytes, devices, trace
      ensures State() == CommitOne(Cfg(), old(State()), op).bus
      ensures r == CommitOne(Cfg(), old(State()), op).response
      ensures progress == old(progress)
    {
      if trace.shouldHalt {
        return Response(INVALID_VALUE, 0, busFreeTime, busFreeTime, 0, []);
      }
      var ok := ValidateEnqueueContract(op);
      if !ok {
        return Response(INVALID_VALUE, 0, busFreeTime, busFreeTime, 0, []);
      }
      r := ExecuteCommit(op, false);
    }

    method CommitDma(op: BusOp) returns (r: Response)
      modifies this, memory.bytes, devices, trace
      ensures State() == CommitOne(Cfg(), old(State()), AsDma(op)).bus
      ensures r == CommitOne(Cfg(), old(State()), AsDma(op)).response
      ensures progress == old(progress)
    {
      r := Commit(AsDma(op));
    }
  }
}
