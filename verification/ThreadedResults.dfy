/** The multithreaded driver against the sequential one. */
module ThreadedResults {
  import opened Prelude
  import opened Bus
  import opened ScriptedCpus
  import opened DualMachine
  import opened DualSafety
  import opened ThreadedDriver
  import opened ThreadedInvariant
  import opened ThreadedDeterminism
  import opened ThreadedWakeups
  import opened ThreadedProgress
  import opened ThreadedRace
  import opened SequentialEnding
  import opened CacheTransparency
  import opened NonInterference

  // ----- safety of every schedule -----

  /** Whatever the schedule, the driver commits in globally nondecreasing order of request time, without a single fault,
      and commits each CPU's operations exactly once and in script order. */
  lemma EveryScheduleIsOrderly(cfg: Config, w: World, schedule: seq<Thread>)
    requires Inv(cfg, w)
    ensures CanonOk(w) && CanonOk(Run(cfg, w, schedule))
    ensures var before, after := Canon(w), Canon(Run(cfg, w, schedule));
            && Extends(before, after) && Orderly(Added(before, after), 0)
            && |Added(before, after)| == |History(cfg, w, schedule)|
            && Numbered(Added(before, after), 0, NextNumber(before.side0), NextNumber(after.side0))
            && Numbered(Added(before, after), 1, NextNumber(before.side1), NextNumber(after.side1))
  {
    hide Inv, Canon, Run, History, Replay, LegalRun, Possible, Extends, NextNumber;
    RunReplays(cfg, w, schedule);
    var choices := History(cfg, w, schedule);
    LegalRunIsOrderly(cfg, Canon(w), choices, 0);
    CommittedOnceInOrder(cfg, Canon(w), choices, 0);
    CommittedOnceInOrder(cfg, Canon(w), choices, 1);
  }

  function InFlight(l: Lane): nat {
    |l.req| + |l.resp| + if l.held.Some? then 1 else 0
  }

  /** In every reachable state each CPU has at most one operation in flight, in exactly one of its request mailbox, the
      coordinator's slot and its response mailbox, and it has one exactly from the push to the pop of the reply. */
  lemma OneInFlight(cfg: Config, w: World, schedule: seq<Thread>, i: nat)
    requires Inv(cfg, w) && i < 2
    ensures var l := Run(cfg, w, schedule).At(i);
            InFlight(l) == if l.at == PushMark || Announced(l) then 1 else 0
  {
    hide Inv, Run, MarksOk;
    InvShape(cfg, Run(cfg, w, schedule));
  }

  /** When the coordinator leaves, every operation has been committed and its reply applied. */
  lemma ExitedMeansDelivered(cfg: Config, w: World)
    requires Inv(cfg, w) && w.coord.at == Exited
    ensures CanonOk(w) && Over(w.lane0) && Over(w.lane1) && InFlight(w.lane0) == 0 && InFlight(w.lane1) == 0
    ensures Canon(w) == Dual(Side(w.lane0.cpu, None), Side(w.lane1.cpu, None), Core(w.bus))
    ensures w.lane0.cpu.Done() && w.lane1.cpu.Done() && Next(cfg, Canon(w)).None?
  {
    hide DualOk, CpuOk, OpMatches, MarksOk, RunAhead, Answered;
    CanonReady(cfg, w);
    DoneSettles(w.lane0.cpu);
    DoneSettles(w.lane1.cpu);
  }

  // ----- agreement with the reference -----

  lemma FinishAtEnd(cfg: Config, m: Dual)
    requires DualOk(cfg, m) && Next(cfg, m).None?
    ensures Finish(cfg, m) == m
  {
  }

  /** A complete machine that has not raced is where the reference run ends. */
  lemma CompleteIsReference(cfg: Config, w: World, schedule: seq<Thread>)
    requires Inv(cfg, w) && RaceFree(cfg, w, schedule)
    requires CanonOk(Run(cfg, w, schedule)) && Complete(cfg, Run(cfg, w, schedule))
    ensures CanonOk(w) && DualOk(cfg, Canon(w)) && Canon(Run(cfg, w, schedule)) == Finish(cfg, Canon(w))
  {
    hide Inv, Canon, Run, RaceFree, Next, Finish, DualOk;
    DeterministicWithoutRaces(cfg, w, schedule);
    FinishAtEnd(cfg, Canon(Run(cfg, w, schedule)));
  }

  /** Once everything is committed nothing more ever is, whoever is scheduled. */
  lemma CompleteStays(cfg: Config, w: World, who: Thread)
    requires Inv(cfg, w) && CanonOk(w) && Complete(cfg, w)
    ensures CoordReady(w) && Runnable(w.lane0) && Runnable(w.lane1) && CanonOk(Act(cfg, w, who))
    ensures Complete(cfg, Act(cfg, w, who)) && Canon(Act(cfg, w, who)) == Canon(w)
  {
    hide Inv, Canon, CommitsOf, Next, Act, LegalRun, Possible, AllFinished;
    ActKeeps(cfg, w, who);
    var m, choices := Canon(w), CommitsOf(cfg, w, who);
    if choices != [] {
      FirstIsLegal(cfg, m, choices);
      LegalMeansNext(cfg, m, choices[0]);
      assert false;
    }
    NothingMore(cfg, m);
    if m.side0.op.None? && m.side1.op.None? {
      RestStays(cfg, w, who);
    }
  }

  lemma FirstIsLegal(cfg: Config, m: Dual, choices: seq<Choice>)
    requires LegalRun(cfg, m, choices) && choices != []
    ensures Legal(m, choices[0])
  {
  }

  /** The reference goes on as long as any driver could. */
  lemma LegalMeansNext(cfg: Config, m: Dual, ch: Choice)
    requires Legal(m, ch)
    ensures Next(cfg, m).Some?
  {
  }

  lemma NothingMore(cfg: Config, m: Dual)
    ensures Possible(cfg, m, []) ==> Replay(cfg, m, []) == m
  {
  }

  lemma RestStays(cfg: Config, w: World, who: Thread)
    requires w.coord.at == Exited && AllFinished(w)
    requires w.lane0.cpu.Valid() && Runnable(w.lane0) && w.lane1.cpu.Valid() && Runnable(w.lane1) && CoordReady(w)
    ensures Act(cfg, w, who) == w
  {
  }

  lemma {:induction false} CompleteForEver(cfg: Config, w: World, schedule: seq<Thread>)
    requires Inv(cfg, w) && CanonOk(w) && Complete(cfg, w)
    ensures CanonOk(Run(cfg, w, schedule)) && Complete(cfg, Run(cfg, w, schedule)) && Canon(Run(cfg, w, schedule)) == Canon(w)
    decreases |schedule|
  {
    hide Inv, Canon, Act, Complete;
    if schedule != [] {
      ActKeeps(cfg, w, schedule[0]);
      CompleteStays(cfg, w, schedule[0]);
      CompleteForEver(cfg, Act(cfg, w, schedule[0]), schedule[1..]);
    }
  }

  /** The machine stands where the reference run ends, and if that is the end of both scripts its threads have ended and
      its CPUs are the sequential driver's. */
  ghost predicate EndsAs(w: World, fin: Dual)
    requires CanonOk(w)
  {
    && Canon(w) == fin && Core(w.bus) == fin.bus
    && (w.coord.at == Exited <==> BothDone(fin))
    && (BothDone(fin) ==> AllFinished(w) && w.lane0.cpu == fin.side0.cpu && w.lane1.cpu == fin.side1.cpu)
  }

  lemma CompleteEndsAs(cfg: Config, w: World)
    requires Inv(cfg, w) && CanonOk(w) && Complete(cfg, w)
    ensures EndsAs(w, Canon(w))
  {
    hide Inv, CanonSide, AllFinished, Next;
    if w.coord.at == Exited {
      ExitedMeansDelivered(cfg, w);
    }
  }

  /** A schedule after which nothing moves has carried the reference run to its end: with no ties in the reference run,
      or with every operation in hand when its mark is read, it stands where the sequential driver ends. */
  lemma StuckScheduleIsReference(cfg: Config, c0: Cpu, c1: Cpu, b: BusState, p: Progress, schedule: seq<Thread>)
    requires CpuOk(c0, 0) && CpuOk(c1, 1) && DualOk(cfg, Dual(Settled(c0), Settled(c1), Core(b)))
    requires p.cpu0.Some? ==> p.cpu0.value <= c0.time
    requires p.cpu1.Some? ==> p.cpu1.value <= c1.time
    ensures Inv(cfg, Start(c0, c1, b, p))
    ensures var w, m := Start(c0, c1, b, p), Dual(Settled(c0), Settled(c1), Core(b));
            var end := Run(cfg, w, schedule);
            && CanonOk(end) && CoordReady(end) && Runnable(end.lane0) && Runnable(end.lane1)
            && ((forall who :: Act(cfg, end, who) == end) ==>
                 && Complete(cfg, end)
                 && (TieFree(cfg, m) || HandsFollowMarks(cfg, w, schedule) ==> EndsAs(end, Finish(cfg, m))))
  {
    var w, m := Start(c0, c1, b, p), Dual(Settled(c0), Settled(c1), Core(b));
    hide Inv, CpuOk, DualOk, CanonSide, Run, RaceFree, Finish, TieFree, HandsFollowMarks, Start, Awake, Complete, EndsAs, Act;
    StartOk(cfg, c0, c1, b, p);
    StartAwake(c0, c1, b, p);
    var end := Run(cfg, w, schedule);
    RunStaysAwake(cfg, w, schedule);
    StuckMeansComplete(cfg, end);
    if (forall who :: Act(cfg, end, who) == end) && (TieFree(cfg, m) || HandsFollowMarks(cfg, w, schedule)) {
      if TieFree(cfg, m) {
        TieFreeNeverRaces(cfg, w, schedule);
      } else {
        HeldInTimeNeverRaces(cfg, w, schedule);
      }
      CompleteIsReference(cfg, w, schedule);
      CompleteEndsAs(cfg, end);
    }
  }

  lemma PartsJoin(f: nat -> Thread, count: nat, n: nat)
    requires count <= n
    ensures Part(f, 0, n) == Part(f, 0, count) + Part(f, count, n - count)
  {
  }

  /** From the start, if the reference run has no ties, every fair schedule comes to stand, and from then on stays, with
      the bus, memory, devices, trace and both CPUs exactly as the sequential driver leaves them; the threads end exactly
      when the reference run ends both scripts. */
  lemma FairScheduleEqualsSequential(cfg: Config, c0: Cpu, c1: Cpu, b: BusState, p: Progress, f: nat -> Thread) returns (count: nat)
    requires CpuOk(c0, 0) && CpuOk(c1, 1) && DualOk(cfg, Dual(Settled(c0), Settled(c1), Core(b)))
    requires p.cpu0.Some? ==> p.cpu0.value <= c0.time
    requires p.cpu1.Some? ==> p.cpu1.value <= c1.time
    requires TieFree(cfg, Dual(Settled(c0), Settled(c1), Core(b))) && Fair(f)
    ensures Inv(cfg, Start(c0, c1, b, p))
    ensures forall n: nat :: count <= n ==>
              && CanonOk(Run(cfg, Start(c0, c1, b, p), Part(f, 0, n)))
              && EndsAs(Run(cfg, Start(c0, c1, b, p), Part(f, 0, n)), Finish(cfg, Dual(Settled(c0), Settled(c1), Core(b))))
    ensures BothDone(Finish(cfg, Dual(Settled(c0), Settled(c1), Core(b))))
       <==> NothingTooLate(cfg, Dual(Settled(c0), Settled(c1), Core(b)))
  {
    var w, m := Start(c0, c1, b, p), Dual(Settled(c0), Settled(c1), Core(b));
    hide Inv, CpuOk, DualOk, CanonSide, Run, RaceFree, Finish, TieFree, Fair, Start, Awake, Complete, EndsAs, Part, NothingTooLate;
    StartOk(cfg, c0, c1, b, p);
    StartAwake(c0, c1, b, p);
    EndsExactly(cfg, m);
    count := FairSchedulesComplete(cfg, w, f, 0);
    TieFreeNeverRaces(cfg, w, Part(f, 0, count));
    CompleteIsReference(cfg, w, Part(f, 0, count));
    forall n: nat | count <= n
      ensures CanonOk(Run(cfg, w, Part(f, 0, n))) && EndsAs(Run(cfg, w, Part(f, 0, n)), Finish(cfg, m))
    {
      PartsJoin(f, count, n);
      RunTogether(cfg, w, Part(f, 0, count), Part(f, count, n - count));
      CompleteForEver(cfg, Run(cfg, w, Part(f, 0, count)), Part(f, count, n - count));
      CompleteEndsAs(cfg, Run(cfg, w, Part(f, 0, n)));
    }
  }

  // ----- programs that keep apart -----

  /** Programs that keep out of each other's cache lines read the same on every schedule, ties or not: when the
      coordinator leaves, each CPU has read exactly what its own program reads alone on plain memory. */
  lemma ExitedReadsOwnProgram(cfg: Config, c0: Cpu, c1: Cpu, b: BusState, p: Progress, schedule: seq<Thread>)
    requires CpuOk(c0, 0) && CpuOk(c1, 1) && DualOk(cfg, Dual(Settled(c0), Settled(c1), Core(b)))
    requires p.cpu0.Some? ==> p.cpu0.value <= c0.time
    requires p.cpu1.Some? ==> p.cpu1.value <= c1.time
    requires Fresh(c0) && Fresh(c1) && ProgramOk(c0, |b.ram|) && ProgramOk(c1, |b.ram|) && Apart(c0, c1)
    ensures Inv(cfg, Start(c0, c1, b, p))
    ensures var end := Run(cfg, Start(c0, c1, b, p), schedule);
            end.coord.at == Exited ==>
              && end.lane0.cpu.history == FlatAfter(c0.script, b.ram, |c0.script|).history
              && end.lane1.cpu.history == FlatAfter(c1.script, b.ram, |c1.script|).history
  {
    hide Inv, CpuOk, DualOk, CanonSide, Run, History, Next, Start, Fresh, ProgramOk, Apart, Tracks, FlatAfter, Replay, LegalRun, Possible, Settled;
    StartOk(cfg, c0, c1, b, p);
    var w := Start(c0, c1, b, p);
    var end := Run(cfg, w, schedule);
    if end.coord.at == Exited {
      ExitedMeansDelivered(cfg, end);
      RunReplays(cfg, w, schedule);
      EachCpuRunsAlone(cfg, c0, c1, Core(b), History(cfg, w, schedule));
      WholeScript(Canon(end).side0, b.ram, end.bus.ram);
      WholeScript(Canon(end).side1, b.ram, end.bus.ram);
    }
  }

  lemma WholeScript(s: Side, ram: seq<Byte>, shared: seq<Byte>)
    requires s.op.None? && s.cpu.Done() && Tracks(s, ram, shared)
    ensures Completed(s) == |s.cpu.script|
  {
  }
}
