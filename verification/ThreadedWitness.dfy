/** Two small programs that meet every hypothesis of the main theorems at once. */
module ThreadedWitness {
  import opened Prelude
  import opened Memory
  import opened Devices
  import opened Bus
  import opened ScriptedCpus
  import opened DualMachine
  import opened CacheTransparency
  import opened NonInterference
  import opened ThreadedDeterminism
  import opened SequentialDriver
  import opened SequentialEnding

  function FreshCpu(id: int, script: seq<ScriptOp>): Cpu {
    Cpu(id, script, 0, 0, 0, [], 1, Cache(4, [CacheLine(false, 0, [0, 0, 0, 0])]), [])
  }

  const WRITER := FreshCpu(0, [ScriptWrite(0x100, 4, 7)])
  const READER := FreshCpu(1, [Compute(1), ScriptRead(0x200, 4)])

  const CONFIG := Config(DefaultPolicy, DEFAULT_LATENCY)

  function EmptyBus(): BusState {
    BusState(0, 1, None, NOTHING_ENQUEUED, NOTHING_ENQUEUED, seq(0x400, _ => 0), RESET_DEV, Trace([], false, false))
  }

  lemma Addresses()
    ensures ToPhys(0x100) == 0x100 && ToPhys(0x200) == 0x200 && !Uncached(0x100) && !Uncached(0x200)
    ensures !IsMmio(0x100) && !IsMmio(0x200)
  {
  }

  lemma CpusOk()
    ensures CpuOk(WRITER, 0) && CpuOk(READER, 1) && Fresh(WRITER) && Fresh(READER)
  {
    hide ToPhys, IsMmio;
    Addresses();
  }

  lemma ProgramsOk()
    ensures ProgramOk(WRITER, 0x400) && ProgramOk(READER, 0x400) && Apart(WRITER, READER)
  {
    hide ToPhys, Uncached;
    Addresses();
    CpusOk();
    forall line | Touches(READER.script, 4, line)
      ensures line == 0x80
    {
      var k :| 0 <= k < |READER.script| && IsAccess(READER.script[k]) && ToPhys(READER.script[k].vaddr) / 4 == line;
      assert k == 1;
    }
  }

  /** Where the two CPUs stop: the write at tick 0, the read at tick 1. */
  lemma Stops()
    ensures WRITER.Valid() && READER.Valid()
    ensures Settled(WRITER).op.Some? && ReqTime(Settled(WRITER)) == 0
    ensures Settled(READER).op.Some? && ReqTime(Settled(READER)) == 1
    ensures DualOk(CONFIG, Dual(Settled(WRITER), Settled(READER), EmptyBus()))
  {
    hide ToPhys, Uncached, IsMmio, OpMatches, CpuOk;
    Addresses();
    CpusOk();
    RunAheadFacts(WRITER, 0);
    RunAheadFacts(READER, 1);
    var c := READER.(time := 1, pc := 1);
    assert LocalValue(c, 0x200, 4) == None;
    assert RunAhead(READER) == RunAhead(c);
    assert Settled(READER).cpu.time == 1 && Settled(READER).op.value.op.reqTime == 1;
  }

  /** The writer has a single bus operation. */
  lemma WriterEnds(r: Response)
    ensures WRITER.Valid() && Settled(WRITER).op.Some? && Settled(WRITER).cpu.Valid()
    ensures Settled(WRITER).op.value.scriptIndex < |Settled(WRITER).cpu.script|
    ensures Resumed(Settled(WRITER), r).op.None?
  {
    hide ToPhys, Uncached, IsMmio;
    CpusOk();
    Stops();
  }

  /** Once one CPU has nothing more to ask for there is nothing left to tie with. */
  lemma {:induction false} LoneSideNeverTies(cfg: Config, m: Dual)
    requires DualOk(cfg, m) && (m.side0.op.None? || m.side1.op.None?)
    ensures TieFree(cfg, m)
    decreases Unfinished(m.side0) + Unfinished(m.side1)
  {
    hide DualOk, Step, Unfinished;
    if Next(cfg, m).Some? {
      NextIsPossible(cfg, m);
      StepFacts(cfg, m, Next(cfg, m).value);
      LoneSideNeverTies(cfg, Step(cfg, m, Next(cfg, m).value));
    }
  }

  /** The hypotheses of the determinism, progress and non-interference theorems hold together. */
  lemma HypothesesHold()
    ensures CpuOk(WRITER, 0) && CpuOk(READER, 1)
    ensures DualOk(CONFIG, Dual(Settled(WRITER), Settled(READER), Core(EmptyBus())))
    ensures TieFree(CONFIG, Dual(Settled(WRITER), Settled(READER), Core(EmptyBus())))
    ensures Fresh(WRITER) && Fresh(READER) && ProgramOk(WRITER, |EmptyBus().ram|) && ProgramOk(READER, |EmptyBus().ram|)
    ensures Apart(WRITER, READER) && CONFIG.latency.tieTurnaround >= 1
  {
    hide RunAhead, DualOk, CpuOk, ProgramOk, Fresh, Apart, Step, Resumed;
    CpusOk();
    ProgramsOk();
    Stops();
    assert Core(EmptyBus()) == EmptyBus();
    var m := Dual(Settled(WRITER), Settled(READER), EmptyBus());
    var ch := Choice(0, false);
    assert Next(CONFIG, m) == Some(ch);
    StepFacts(CONFIG, m, ch);
    StepResumes(CONFIG, m, ch);
    WriterEnds(Committing(CONFIG, m, ch).response);
    LoneSideNeverTies(CONFIG, Step(CONFIG, m, ch));
  }

  lemma StepResumes(cfg: Config, m: Dual, ch: Choice)
    requires ch.cpu == 0 && DualOk(cfg, m) && m.side0.op.Some?
    ensures m.side0.cpu.Valid() && m.side0.op.value.scriptIndex < |m.side0.cpu.script|
    ensures Step(cfg, m, ch).side0 == Resumed(m.side0, Committing(cfg, m, ch).response)
  {
    hide Execute, RunAhead, WellFormed, Validate;
  }

  /** The state from which a run of an empty script against a single barrier spins does arise. */
  lemma SpinningHappens()
    ensures var c0, c1 := FreshCpu(0, []), FreshCpu(1, [ScriptBarrier]);
            && c0.Valid() && c1.Valid()
            && (var m := Dual(Settled(c0), Settled(c1), Core(EmptyBus()));
                DualOk(CONFIG, m) && Finish(CONFIG, m) == m && !BothDone(m))
  {
    EmptyAgainstBarrierSpins(CONFIG, FreshCpu(0, []), FreshCpu(1, [ScriptBarrier]), EmptyBus());
  }
}
