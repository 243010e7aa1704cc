/** The one thing the schedule can change: who wins when both CPUs ask for the same tick. */
module ThreadedRace {
  import opened Prelude
  import opened Bus
  import opened ScriptedCpus
  import opened DualMachine
  import opened DualBatch
  import opened ThreadedDriver
  import opened ThreadedInvariant
  import opened ThreadedDeterminism

  // ----- schedules in pieces -----

  lemma {:induction false} RunTogether(cfg: Config, w: World, a: seq<Thread>, b: seq<Thread>)
    requires Inv(cfg, w)
    ensures Run(cfg, w, a + b) == Run(cfg, Run(cfg, w, a), b)
    ensures RaceFree(cfg, w, a + b) ==> RaceFree(cfg, Run(cfg, w, a), b)
    decreases |a|
  {
    hide Inv, Act, Canon, CommitsOf, HarmfulRace;
    if a == [] {
      assert a + b == b;
    } else {
      ActKeeps(cfg, w, a[0]);
      assert (a + b)[0] == a[0] && (a + b)[1..] == a[1..] + b;
      RunTogether(cfg, Act(cfg, w, a[0]), a[1..], b);
    }
  }

  lemma RunOne(cfg: Config, w: World, who: Thread)
    requires Inv(cfg, w)
    ensures CanonOk(w) && CoordReady(w) && Runnable(w.lane0) && Runnable(w.lane1)
    ensures Run(cfg, w, [who]) == Act(cfg, w, who)
  {
    hide Inv, Act, Canon, CommitsOf;
    ActKeeps(cfg, w, who);
    assert [who][1..] == [];
    assert Run(cfg, Act(cfg, w, who), []) == Act(cfg, w, who);
  }

  lemma RunMore(cfg: Config, w: World, a: seq<Thread>, who: Thread)
    requires Inv(cfg, w)
    ensures var r := Run(cfg, w, a);
            CanonOk(r) && CoordReady(r) && Runnable(r.lane0) && Runnable(r.lane1) && Run(cfg, w, a + [who]) == Act(cfg, r, who)
  {
    hide Inv, Act, Canon, Run;
    RunTogether(cfg, w, a, [who]);
    RunOne(cfg, Run(cfg, w, a), who);
  }

  // ----- a schedule that overtakes -----

  function ProducerOf(i: nat): Thread {
    if i == 0 then Producer0 else Producer1
  }

  /** A lane whose producer has pushed its first operation and its mark. */
  function Pushed(c: Cpu): Lane
    requires c.Valid() && Settled(c).op.Some?
  {
    var s := Settled(c);
    Lane(s.cpu, s.op, NotifyReq, 0, [s.op.value], [], [s.op.value.op.reqTime + 1], false, None, None)
  }

  lemma PushThree(cfg: Config, w: World, i: nat, c: Cpu) returns (steps: seq<Thread>)
    requires Inv(cfg, w) && i < 2 && c.Valid() && Settled(c).op.Some? && w.At(i) == StartLane(c)
    ensures Run(cfg, w, steps) == w.With(i, Pushed(c))
  {
    hide Inv, Run, RunAhead, CoordStep;
    var t := ProducerOf(i);
    RunOne(cfg, w, t);
    RunMore(cfg, w, [t], t);
    RunMore(cfg, w, [t] + [t], t);
    steps := [t] + [t] + [t];
  }

  function Taken(l: Lane): Lane
    requires l.req != []
  {
    l.(held := Some(l.req[0]), req := l.req[1..])
  }

  /** The coordinator looks into both request mailboxes while only CPU i has asked. */
  lemma TakeOnly(cfg: Config, w: World, i: nat) returns (steps: seq<Thread>)
    requires Inv(cfg, w) && i < 2 && w.coord.at == PopReq(0)
    requires w.At(i).req != [] && w.At(i).held.None? && w.At(1 - i).req == []
    ensures Run(cfg, w, steps) == w.With(i, Taken(w.At(i))).Moves(w.coord.(at := PopMarks(0), progressed := true))
  {
    hide Inv, Run, ProducerStep, TakeMark, CommitHeld;
    RunOne(cfg, w, Coordinator);
    RunMore(cfg, w, [Coordinator], Coordinator);
    steps := [Coordinator] + [Coordinator];
  }

  /** The coordinator reads one mark of each CPU and comes to the commit. */
  lemma ReadBothMarks(cfg: Config, w: World) returns (steps: seq<Thread>)
    requires Inv(cfg, w) && w.coord.at == PopMarks(0) && |w.lane0.marks| == 1 && |w.lane1.marks| == 1
    ensures var r := Run(cfg, w, steps);
            && r.lane0 == w.lane0.(marks := []) && r.lane1 == w.lane1.(marks := []) && r.coord.at == Commit
            && r.progress == UpdateProgress(UpdateProgress(w.progress, 0, w.lane0.marks[0]), 1, w.lane1.marks[0])
  {
    hide Inv, Run, ProducerStep, TakeRequest, CommitHeld, UpdateProgress;
    var c := Coordinator;
    RunOne(cfg, w, c);
    RunMore(cfg, w, [c], c);
    RunMore(cfg, w, [c] + [c], c);
    RunMore(cfg, w, [c] + [c] + [c], c);
    RunMore(cfg, w, [c] + [c] + [c] + [c], c);
    steps := [c] + [c] + [c] + [c] + [c];
  }

  lemma LastRaces(cfg: Config, w: World)
    requires Inv(cfg, w) && HarmfulRace(cfg, w)
    ensures !RaceFree(cfg, w, [Coordinator])
  {
    hide Inv, Act, HarmfulRace;
  }

  lemma MarksAreRead(p: Progress, t: Tick, x: Option<PendingOp>)
    requires p.cpu0.Some? ==> p.cpu0.value <= t
    requires p.cpu1.Some? ==> p.cpu1.value <= t
    requires x.Some? && x.value.op.reqTime == t
    ensures Claimed(UpdateProgress(UpdateProgress(UpdateProgress(UpdateProgress(p, 0, 0), 1, 0), 0, t + 1), 1, t + 1), x)
  {
  }

  /** Whenever both CPUs first ask for the same tick, some schedule commits in an order the reference does not: the
      coordinator can read the mark of an operation it does not hold yet. */
  lemma TiedStartRaces(cfg: Config, c0: Cpu, c1: Cpu, b: BusState, p: Progress) returns (schedule: seq<Thread>)
    requires CpuOk(c0, 0) && CpuOk(c1, 1) && DualOk(cfg, Dual(Settled(c0), Settled(c1), Core(b)))
    requires p.cpu0.Some? ==> p.cpu0.value <= c0.time
    requires p.cpu1.Some? ==> p.cpu1.value <= c1.time
    requires Tied(Dual(Settled(c0), Settled(c1), Core(b)))
    ensures Inv(cfg, Start(c0, c1, b, p)) && !RaceFree(cfg, Start(c0, c1, b, p), schedule)
  {
    hide Inv, Run, RaceFree, RunAhead, CpuOk, DualOk, OpMatches, UpdateProgress, Claimed, Act;
    var w := Start(c0, c1, b, p);
    StartOk(cfg, c0, c1, b, p);
    var x0, x1 := Settled(c0).op, Settled(c1).op;
    var t := x0.value.op.reqTime;
    SettledLater(c0, 0);
    SettledLater(c1, 1);
    MarksAreRead(p, t, x0);
    MarksAreRead(p, t, x1);
    var i := if cfg.policy(x0.value.op) <= cfg.policy(x1.value.op) then 0 else 1;
    var ci, cj := if i == 0 then c0 else c1, if i == 0 then c1 else c0;
    var a := PushThree(cfg, w, i, ci);
    var w1 := Run(cfg, w, a);
    var d := TakeOnly(cfg, w1, i);
    var w2 := Run(cfg, w1, d);
    var e := PushThree(cfg, w2, 1 - i, cj);
    var w3 := Run(cfg, w2, e);
    var g := ReadBothMarks(cfg, w3);
    var w4 := Run(cfg, w3, g);
    assert Race(cfg, w4, i);
    LastRaces(cfg, w4);
    schedule := a + (d + (e + (g + [Coordinator])));
    RunTogether(cfg, w, a, d + (e + (g + [Coordinator])));
    RunTogether(cfg, w1, d, e + (g + [Coordinator]));
    RunTogether(cfg, w2, e, g + [Coordinator]);
    RunTogether(cfg, w3, g, [Coordinator]);
  }

  /** So for every tied start some schedule leaves a trace that is no prefix of the sequential driver's. */
  lemma TiedStartDiverges(cfg: Config, c0: Cpu, c1: Cpu, b: BusState, p: Progress) returns (schedule: seq<Thread>)
    requires CpuOk(c0, 0) && CpuOk(c1, 1) && DualOk(cfg, Dual(Settled(c0), Settled(c1), Core(b)))
    requires p.cpu0.Some? ==> p.cpu0.value <= c0.time
    requires p.cpu1.Some? ==> p.cpu1.value <= c1.time
    requires Tied(Dual(Settled(c0), Settled(c1), Core(b))) && cfg.latency.tieTurnaround >= 1
    ensures Inv(cfg, Start(c0, c1, b, p))
    ensures !(Run(cfg, Start(c0, c1, b, p), schedule).bus.trace.events
              <= Finish(cfg, Dual(Settled(c0), Settled(c1), Core(b))).bus.trace.events)
  {
    hide Inv, Run, RaceFree, Settled, CpuOk, DualOk, Finish, Start, Tied;
    StartOk(cfg, c0, c1, b, p);
    schedule := TiedStartRaces(cfg, c0, c1, b, p);
    DeterministicWithoutRaces(cfg, Start(c0, c1, b, p), schedule);
  }
}
