/** The single-threaded driver, proved to carry out the reference run. */
module SequentialDriver {
  import opened Prelude
  import opened Memory
  import opened Bus
  import opened BusBatch
  import opened BusTiming
  import opened ScriptedCpus
  import opened BusArbiters
  import opened DualMachine
  import opened DualBatch
  import opened SequentialEnding

  // ----- one round as a value -----

  function Marks(m: Dual): Progress {
    Progress(true, Some(MarkOf(m.side0)), Some(MarkOf(m.side1)))
  }

  /** The commits of one round: one, or both operations of a tie. */
  function RoundChoices(cfg: Config, m: Dual): seq<Choice> {
    match Next(cfg, m)
    case None => []
    case Some(ch) => if Tied(m) then [ch, Loser(cfg, m)] else [ch]
  }

  lemma RoundPossible(cfg: Config, m: Dual)
    requires DualOk(cfg, m)
    ensures Possible(cfg, m, RoundChoices(cfg, m)) && OnePerCpu(RoundChoices(cfg, m))
    ensures Next(cfg, m).None? ==> Replay(cfg, m, RoundChoices(cfg, m)) == m
    ensures Next(cfg, m).Some? ==>
      Replay(cfg, m, RoundChoices(cfg, m)) ==
        (var m1 := Step(cfg, m, Next(cfg, m).value); if Tied(m) then (LoserIsNext(cfg, m); Step(cfg, m1, Loser(cfg, m))) else m1)
  {
    hide Step, DualOk, Beats;
    var choices := RoundChoices(cfg, m);
    if Next(cfg, m).Some? {
      PossibleOne(cfg, m, choices[0]);
      if Tied(m) {
        LoserIsNext(cfg, m);
        PossibleOne(cfg, Step(cfg, m, choices[0]), choices[1]);
        assert choices[1..] == [choices[1]];
      }
    }
  }

  ghost function AfterRound(cfg: Config, m: Dual): Dual
    requires DualOk(cfg, m)
  {
    RoundPossible(cfg, m);
    Replay(cfg, m, RoundChoices(cfg, m))
  }

  lemma RoundFollowsReference(cfg: Config, m: Dual)
    requires DualOk(cfg, m)
    ensures DualOk(cfg, AfterRound(cfg, m))
    ensures Finish(cfg, AfterRound(cfg, m)) == Finish(cfg, m)
    ensures Next(cfg, m).Some? ==>
      Unfinished(AfterRound(cfg, m).side0) + Unfinished(AfterRound(cfg, m).side1) < Unfinished(m.side0) + Unfinished(m.side1)
  {
    hide Step, Beats, DualOk, Unfinished;
    RoundPossible(cfg, m);
    if Next(cfg, m).Some? {
      var ch := Next(cfg, m).value;
      StepFacts(cfg, m, ch);
      var m1 := Step(cfg, m, ch);
      assert Finish(cfg, m) == Finish(cfg, m1);
      if Tied(m) {
        LoserIsNext(cfg, m);
        StepFacts(cfg, m1, Loser(cfg, m));
        assert Finish(cfg, m1) == Finish(cfg, Step(cfg, m1, Loser(cfg, m)));
      }
    } else {
      assert RoundChoices(cfg, m) == [];
    }
  }

  /** The marks the driver publishes put below the horizon exactly the operations of the round. */
  lemma RoundIsBatch(cfg: Config, m: Dual)
    requires DualOk(cfg, m)
    ensures Honest(cfg, m, m.side0.op, m.side1.op, Marks(m))
    ensures BatchChoices(cfg, m, Claimed(Marks(m), m.side0.op), Claimed(Marks(m), m.side1.op)) == RoundChoices(cfg, m)
  {
    hide DualOk, Beats;
    SideFacts(cfg, m);
  }

  ghost predicate RoundResults(cfg: Config, m: Dual, results: seq<CommitResult>)
    requires DualOk(cfg, m)
  {
    RoundPossible(cfg, m);
    Answers(cfg, m, RoundChoices(cfg, m), m.side0.op, |Offer(m.side0.op, m.side1.op)|, results)
  }

  /** The arbiter's batch over the pending operations, under the published marks, is one round of the reference. */
  lemma BatchIsRound(cfg: Config, b: BusState, m: Dual)
    requires DualOk(cfg, m) && m.bus == Core(b)
    ensures var batch := CommitBatch(cfg, b, Marks(m), Offer(m.side0.op, m.side1.op));
            RoundResults(cfg, m, batch.results) && Core(batch.bus) == AfterRound(cfg, m).bus
  {
    hide Honest, BatchChoices, Claimed, RoundChoices, CommitBatch, Answers, Marks, DualOk;
    RoundPossible(cfg, m);
    RoundIsBatch(cfg, m);
    BatchReplays(cfg, b, m, m.side0.op, m.side1.op, Marks(m));
  }

  predicate TakenInRound(cfg: Config, m: Dual, i: nat) {
    exists k :: 0 <= k < |RoundChoices(cfg, m)| && RoundChoices(cfg, m)[k].cpu == i
  }

  /** While both CPUs have an operation a round commits exactly the earliest ones; a lone survivor commits exactly
      when it asked before the finished CPU's clock. */
  lemma RoundTakesEarliest(cfg: Config, m: Dual, i: nat)
    requires DualOk(cfg, m) && i < 2 && m.At(i).op.Some?
    ensures m.At(1 - i).op.Some? ==> (TakenInRound(cfg, m, i) <==> ReqTime(m.At(i)) <= ReqTime(m.At(1 - i)))
    ensures m.At(1 - i).op.None? ==> (TakenInRound(cfg, m, i) <==> ReqTime(m.At(i)) < m.At(1 - i).cpu.time)
  {
    hide DualOk, Beats;
    var choices := RoundChoices(cfg, m);
    if Tied(m) {
      assert choices[if TieWinner(cfg, m) == i then 0 else 1].cpu == i;
    } else if choices != [] {
      assert |choices| == 1;
      if choices[0].cpu == i {
        assert TakenInRound(cfg, m, i);
      }
    }
  }

  predicate Survives(m: Dual, i: nat)
    requires i < 2
  {
    m.At(i).op.Some? && m.At(1 - i).op.None? && ReqTime(m.At(i)) >= m.At(1 - i).cpu.time
  }

  /** The reference run ends with both scripts done, or with one CPU whose operation is not earlier than the finished
      CPU's clock; there the original loop spins, since every further round commits nothing and changes nothing. */
  lemma {:induction false} EndsDoneOrSpinning(cfg: Config, m: Dual)
    requires DualOk(cfg, m)
    ensures var end := Finish(cfg, m);
            && DualOk(cfg, end)
            && ((end.side0.op.None? && end.side1.op.None? && end.side0.cpu.Done() && end.side1.cpu.Done())
                || Survives(end, 0) || Survives(end, 1))
            && AfterRound(cfg, end) == end
    decreases Unfinished(m.side0) + Unfinished(m.side1)
  {
    hide Step, Beats;
    if Next(cfg, m).Some? {
      StepFacts(cfg, m, Next(cfg, m).value);
      EndsDoneOrSpinning(cfg, Step(cfg, m, Next(cfg, m).value));
    } else {
      RoundPossible(cfg, m);
    }
  }

  /** A run that never ends: an empty script against a single barrier. The barrier is asked for at the tick at which the
      finished CPU stands, so it is never committed and every round finds the same state. */
  lemma EmptyAgainstBarrierSpins(cfg: Config, c0: Cpu, c1: Cpu, b: BusState)
    requires CpuOk(c0, 0) && c0.script == [] && c0.pc == 0 && c0.time == 0
    requires CpuOk(c1, 1) && c1.script == [ScriptBarrier] && c1.pc == 0 && c1.time == 0
    requires PositiveLatency(cfg.latency) && NeverHalts(b) && ClockOk(b, 0, 0) && ClockOk(b, 1, 0)
    ensures var m := Dual(Settled(c0), Settled(c1), Core(b));
            DualOk(cfg, m) && Finish(cfg, m) == m == AfterRound(cfg, m) && Survives(m, 1) && !NothingTooLate(cfg, m)
  {
    var m := Dual(Settled(c0), Settled(c1), Core(b));
    hide CpuOk, OpMatches, AfterRound, NothingTooLate;
    RunAheadFacts(c0, 0);
    RunAheadFacts(c1, 1);
    hide DualOk, Step;
    assert Next(cfg, m).None?;
    EndsDoneOrSpinning(cfg, m);
    EndsExactly(cfg, m);
  }

  // ----- the driver itself -----

  /** What a CPU and its pending operation amount to once the CPU has run ahead. */
  function View(c: Cpu, p: Option<PendingOp>): Side
    requires c.Valid()
  {
    if p.Some? then Side(c, p) else Settled(c)
  }

  /** The two CPUs and the memory share no mutable array. */
  ghost predicate Separate(cpu0: ScriptedCPU, cpu1: ScriptedCPU, memory: CommittedMemory) {
    && cpu0 != cpu1 && cpu0.storeBuffer != cpu1.storeBuffer && cpu0.cache.lines != cpu1.cache.lines
    && (memory.bytes as object) !in {cpu0.cache.lines, cpu1.cache.lines}
  }

  /** Applies one reply; a line that does not fit the cache is reported in the trace. */
  method Deliver(cpu: ScriptedCPU, p: PendingOp, response: Response, trace: TraceLog)
    requires cpu.Valid() && p.scriptIndex < |cpu.script|
    modifies cpu, cpu.storeBuffer, cpu.cache.lines, trace
    ensures cpu.Valid()
    ensures trace.Value() == if FillMismatch(old(cpu.State()), p.scriptIndex, response)
      then old(trace.Value()).Add(Faulted(cpu.localTime, cpu.cpuId, CacheFillMismatch)) else old(trace.Value())
    ensures cpu.State() == Answered(old(cpu.State()), p.scriptIndex, response, p.op.token)
  {
    var mismatch := cpu.ApplyResponse(p.scriptIndex, response, p.op.token);
    if mismatch {
      trace.Add(Faulted(cpu.localTime, cpu.cpuId, CacheFillMismatch));
    }
  }

  /** Lets a CPU with nothing pending run to its next operation. */
  method ProduceIfIdle(cpu: ScriptedCPU, pending: Option<PendingOp>) returns (p: Option<PendingOp>)
    requires cpu.Valid()
    modifies cpu, cpu.storeBuffer, cpu.cache.lines
    ensures cpu.Valid() && Side(cpu.State(), p) == View(old(cpu.State()), pending)
  {
    p := pending;
    if p.None? && !cpu.Done() {
      p := cpu.Produce();
    }
  }

  /** Hands every reply of a round to the CPU that asked for it. */
  method DeliverAll(cpu0: ScriptedCPU, cpu1: ScriptedCPU, trace: TraceLog, pending0: Option<PendingOp>,
                    pending1: Option<PendingOp>, owners: seq<nat>, committed: seq<CommitResult>, ghost cfg: Config, ghost m: Dual)
    returns (p0: Option<PendingOp>, p1: Option<PendingOp>)
    requires cpu0.Valid() && cpu1.Valid() && cpu0 != cpu1
    requires cpu0.storeBuffer != cpu1.storeBuffer && cpu0.cache.lines != cpu1.cache.lines
    requires DualOk(cfg, m) && RoundResults(cfg, m, committed)
    requires m.side0 == Side(cpu0.State(), pending0) && m.side1 == Side(cpu1.State(), pending1)
    requires |owners| == |Offer(m.side0.op, m.side1.op)| && forall k :: 0 <= k < |owners| ==> owners[k] == OwnerOf(m.side0.op, k)
    modifies cpu0, cpu0.storeBuffer, cpu0.cache.lines, cpu1, cpu1.storeBuffer, cpu1.cache.lines, trace
    ensures cpu0.Valid() && cpu1.Valid() && trace.Value() == old(trace.Value())
    ensures View(cpu0.State(), p0) == AfterRound(cfg, m).side0
    ensures View(cpu1.State(), p1) == AfterRound(cfg, m).side1
    ensures committed == [] ==> Side(cpu0.State(), p0) == m.side0 && Side(cpu1.State(), p1) == m.side1
  {
    hide RunAhead, Answered, Answers, DualOk, FillMismatch, Replay, RoundChoices, Possible, OwnerOf, Offer, Cpu.Valid, WordSized;
    PositionsReady(cfg, m);
    RoundPossible(cfg, m);
    AnswersReach(cfg, m, RoundChoices(cfg, m), m.side0.op, |owners|, committed);
    p0, p1 := pending0, pending1;
    ghost var after, at0, at1 := AfterRound(cfg, m), ReplyPosition(m.side0.op, committed, 0), ReplyPosition(m.side0.op, committed, 1);
    assert AnsweredIn(m.At(0), after.At(0), committed, at0) && AnsweredIn(m.At(1), after.At(1), committed, at1);
    for k := 0 to |committed|
      invariant cpu0.Valid() && cpu1.Valid() && trace.Value() == old(trace.Value())
      invariant at0 < k ==> View(cpu0.State(), p0) == after.side0
      invariant at1 < k ==> View(cpu1.State(), p1) == after.side1
      invariant at0 >= k ==> Side(cpu0.State(), p0) == m.side0
      invariant at1 >= k ==> Side(cpu1.State(), p1) == m.side1
    {
      if owners[committed[k].inputIndex] == 0 {
        Deliver(cpu0, p0.value, committed[k].response, trace);
        p0 := None;
      } else {
        Deliver(cpu1, p1.value, committed[k].response, trace);
        p1 := None;
      }
    }
  }

  lemma PositionsReady(cfg: Config, m: Dual)
    requires DualOk(cfg, m)
    ensures m.side0.cpu.Valid() && View(m.side0.cpu, m.side0.op) == m.side0
    ensures m.side1.cpu.Valid() && View(m.side1.cpu, m.side1.op) == m.side1
    ensures if m.side0.op.Some? then m.side0.op.value.scriptIndex < |m.side0.cpu.script| else m.side0.cpu.Done()
    ensures if m.side1.op.Some? then m.side1.op.value.scriptIndex < |m.side1.cpu.script| else m.side1.cpu.Done()
  {
    hide WellFormed, Validate;
  }

  lemma MarksRise(cfg: Config, m: Dual)
    requires DualOk(cfg, m)
    ensures NotAhead(Marks(m), AfterRound(cfg, m))
  {
    hide RoundChoices, DualOk;
    RoundPossible(cfg, m);
    MarksNeverFall(cfg, m, RoundChoices(cfg, m), Marks(m));
  }

  /** Publishing what each side promises replaces whatever lower marks stood there. */
  lemma MarksReplace(p: Progress, m: Dual)
    requires NotAhead(p, m)
    ensures UpdateProgress(UpdateProgress(p, 0, MarkOf(m.side0)), 1, MarkOf(m.side1)) == Marks(m)
  {
  }

  /** A round commits nothing exactly when the reference run is over. */
  lemma RoundIdle(cfg: Config, m: Dual, results: seq<CommitResult>)
    requires DualOk(cfg, m) && RoundResults(cfg, m, results)
    ensures results == [] <==> Next(cfg, m).None?
    ensures results == [] ==> Finish(cfg, m) == m == AfterRound(cfg, m)
  {
    hide Step, Beats;
    RoundPossible(cfg, m);
  }

  /** Brings both CPUs to their next operation and publishes how far each of them has got. */
  method Advance(cpu0: ScriptedCPU, cpu1: ScriptedCPU, arbiter: BusArbiter, pending0: Option<PendingOp>,
                 pending1: Option<PendingOp>, ghost cfg: Config, ghost m: Dual)
    returns (p0: Option<PendingOp>, p1: Option<PendingOp>)
    requires cpu0.Valid() && cpu1.Valid() && Separate(cpu0, cpu1, arbiter.memory)
    requires m == Dual(View(cpu0.State(), pending0), View(cpu1.State(), pending1), Core(arbiter.State()))
    requires DualOk(cfg, m) && NotAhead(arbiter.progress, m)
    modifies cpu0, cpu0.storeBuffer, cpu0.cache.lines, cpu1, cpu1.storeBuffer, cpu1.cache.lines, arbiter`progress
    ensures cpu0.Valid() && cpu1.Valid() && arbiter.progress == Marks(m)
    ensures m == Dual(Side(cpu0.State(), p0), Side(cpu1.State(), p1), Core(arbiter.State()))
    ensures p0.None? ==> cpu0.Done()
    ensures p1.None? ==> cpu1.Done()
  {
    hide Settled, DualOk, Marks, UpdateProgress, NotAhead, Cpu.Valid;
    p0 := ProduceIfIdle(cpu0, pending0);
    p1 := ProduceIfIdle(cpu1, pending1);
    PositionsReady(cfg, m);
    SideFacts(cfg, m);
    MarksReplace(arbiter.progress, m);
    arbiter.UpdateProgress(0, if p0.Some? then p0.value.op.reqTime + 1 else cpu0.localTime);
    arbiter.UpdateProgress(1, if p1.Some? then p1.value.op.reqTime + 1 else cpu1.localTime);
  }

  /** Offers what is pending to the arbiter and delivers the replies; says whether anything was committed. */
  method Round(cpu0: ScriptedCPU, cpu1: ScriptedCPU, arbiter: BusArbiter, pending0: Option<PendingOp>,
               pending1: Option<PendingOp>, ghost cfg: Config, ghost m: Dual)
    returns (any: bool, p0: Option<PendingOp>, p1: Option<PendingOp>)
    requires cpu0.Valid() && cpu1.Valid() && Separate(cpu0, cpu1, arbiter.memory)
    requires cfg == arbiter.Cfg() && DualOk(cfg, m) && arbiter.progress == Marks(m)
    requires m == Dual(Side(cpu0.State(), pending0), Side(cpu1.State(), pending1), Core(arbiter.State()))
    modifies cpu0, cpu0.storeBuffer, cpu0.cache.lines, cpu1, cpu1.storeBuffer, cpu1.cache.lines
    modifies arbiter, arbiter.memory.bytes, arbiter.devices, arbiter.trace
    ensures cpu0.Valid() && cpu1.Valid() && arbiter.progress == Marks(m)
    ensures any <==> Next(cfg, m).Some?
    ensures Dual(View(cpu0.State(), p0), View(cpu1.State(), p1), Core(arbiter.State())) == AfterRound(cfg, m)
    ensures !any ==> Finish(cfg, m) == m == Dual(Side(cpu0.State(), p0), Side(cpu1.State(), p1), Core(arbiter.State()))
    ensures !any ==> p0 == pending0 && p1 == pending1
  {
    hide RunAhead, Answered, CommitBatch, RoundResults, DualOk, AfterRound, Finish, Next, Marks;
    var pendingOps, owners := [], [];
    if pending0.Some? {
      pendingOps, owners := pendingOps + [pending0.value.op], owners + [0];
    }
    if pending1.Some? {
      pendingOps, owners := pendingOps + [pending1.value.op], owners + [1];
    }
    assert pendingOps == Offer(m.side0.op, m.side1.op);
    BatchIsRound(cfg, arbiter.State(), m);
    var committed := arbiter.CommitBatch(pendingOps);
    PositionsReady(cfg, m);
    RoundIdle(cfg, m, committed);
    p0, p1 := DeliverAll(cpu0, cpu1, arbiter.trace, pending0, pending1, owners, committed, cfg, m);
    any := |committed| > 0;
  }

  /** Runs both CPUs to the end of the reference run. The original loop spins for ever once nothing more can be
      committed while an operation is pending; this method returns there with `finished` false, and does so exactly
      when the CPU that has not finished would ask for something at or after the finished one's clock. */
  method RunScriptedPair(cpu0: ScriptedCPU, cpu1: ScriptedCPU, arbiter: BusArbiter)
    returns (finished: bool, p0: Option<PendingOp>, p1: Option<PendingOp>)
    requires cpu0.Valid() && cpu1.Valid() && Separate(cpu0, cpu1, arbiter.memory)
    requires DualOk(arbiter.Cfg(), Dual(Settled(cpu0.State()), Settled(cpu1.State()), Core(arbiter.State())))
    requires NotAhead(arbiter.progress, Dual(Settled(cpu0.State()), Settled(cpu1.State()), Core(arbiter.State())))
    modifies cpu0, cpu0.storeBuffer, cpu0.cache.lines, cpu1, cpu1.storeBuffer, cpu1.cache.lines
    modifies arbiter, arbiter.memory.bytes, arbiter.devices, arbiter.trace
    ensures Dual(Side(cpu0.State(), p0), Side(cpu1.State(), p1), Core(arbiter.State()))
         == Finish(arbiter.Cfg(), old(Dual(Settled(cpu0.State()), Settled(cpu1.State()), Core(arbiter.State()))))
    ensures finished <==> p0.None? && p1.None?
    ensures finished <==> NothingTooLate(arbiter.Cfg(), old(Dual(Settled(cpu0.State()), Settled(cpu1.State()), Core(arbiter.State()))))
  {
    hide Settled, DualOk, AfterRound, Next, Finish, Unfinished, Marks, UpdateProgress, NotAhead, Cpu.Valid, WordSized, NothingTooLate;
    ghost var cfg := arbiter.Cfg();
    ghost var start := Dual(Settled(cpu0.State()), Settled(cpu1.State()), Core(arbiter.State()));
    ghost var m := start;
    EndsExactly(cfg, start);
    p0, p1 := None, None;
    while true
      invariant cpu0.Valid() && cpu1.Valid()
      invariant m == Dual(View(cpu0.State(), p0), View(cpu1.State(), p1), Core(arbiter.State()))
      invariant DualOk(cfg, m) && Finish(cfg, m) == Finish(cfg, start)
      invariant NotAhead(arbiter.progress, m)
      decreases Unfinished(m.side0) + Unfinished(m.side1)
    {
      p0, p1 := Advance(cpu0, cpu1, arbiter, p0, p1, cfg, m);
      if p0.None? && p1.None? && cpu0.Done() && cpu1.Done() {
        OverWhenIdle(cfg, m);
        return true, p0, p1;
      }
      var any;
      any, p0, p1 := Round(cpu0, cpu1, arbiter, p0, p1, cfg, m);
      if !any {
        return false, p0, p1;
      }
      RoundFollowsReference(cfg, m);
      MarksRise(cfg, m);
      m := AfterRound(cfg, m);
    }
  }
}
