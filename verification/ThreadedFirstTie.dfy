/** A tie met on the way can race too: which pairs of programs the schedule can tell apart. */
module ThreadedFirstTie {
  import opened Prelude
  import opened Bus
  import opened ScriptedCpus
  import opened DualMachine
  import opened DualBatch
  import opened ThreadedDriver
  import opened ThreadedInvariant
  import opened ThreadedDeterminism
  import opened ThreadedWakeups
  import opened ThreadedProgress
  import opened ThreadedRace

  // ----- the first tie of the reference run -----

  /** CPU c has just committed and now asks for the tick the other CPU has been waiting for; the operation that was
      waiting is not of a higher class than the one that meets it. */
  predicate Meets(cfg: Config, m: Dual, c: nat)
    requires c < 2
  {
    Tied(m) && cfg.policy(m.At(1 - c).op.value.op) <= cfg.policy(m.At(c).op.value.op)
  }

  /** The reference run starts without a tie, and its first one is met like that. */
  ghost predicate FirstTieMeets(cfg: Config, m: Dual)
    requires DualOk(cfg, m)
    decreases Unfinished(m.side0) + Unfinished(m.side1)
  {
    && !Tied(m) && Next(cfg, m).Some?
    && (NextIsPossible(cfg, m);
        StepFacts(cfg, m, Next(cfg, m).value);
        var r := Step(cfg, m, Next(cfg, m).value);
        Meets(cfg, r, Next(cfg, m).value.cpu) || FirstTieMeets(cfg, r))
  }

  /** The coordinator is about to commit the one operation after which the reference run is tied. */
  ghost predicate AboutToMeet(cfg: Config, w: World, c: nat)
    requires Inv(cfg, w) && c < 2
  {
    && w.coord.at == Commit && CommitsOf(cfg, w, Coordinator) == [Choice(c, false)]
    && (CanonReady(cfg, w); ActKeeps(cfg, w, Coordinator); Meets(cfg, Canon(Act(cfg, w, Coordinator)), c))
  }

  /** Away from a tie a step commits at most one operation, and if it does not race that is the reference's next one. */
  lemma UntiedAct(cfg: Config, w: World, who: Thread)
    requires Inv(cfg, w) && CanonOk(w) && !Tied(Canon(w)) && !(who == Coordinator && HarmfulRace(cfg, w))
    ensures CoordReady(w) && Runnable(w.lane0) && Runnable(w.lane1) && Inv(cfg, Act(cfg, w, who)) && CanonOk(Act(cfg, w, who))
    ensures DualOk(cfg, Canon(w))
    ensures CommitsOf(cfg, w, who) == [] ==> Canon(Act(cfg, w, who)) == Canon(w)
    ensures CommitsOf(cfg, w, who) != [] ==>
      && who == Coordinator && w.coord.at == Commit && Next(cfg, Canon(w)).Some? && Next(cfg, Canon(w)).value.cpu < 2
      && CommitsOf(cfg, w, who) == [Next(cfg, Canon(w)).value] && !Next(cfg, Canon(w)).value.tie
      && Canon(w).At(Next(cfg, Canon(w)).value.cpu).op.Some?
      && Canon(Act(cfg, w, who)) == Step(cfg, Canon(w), Next(cfg, Canon(w)).value)
  {
    hide Inv, CanonSide, Act, DualOk, Claimed, Next, Step, HarmfulRace;
    ActKeeps(cfg, w, who);
    ActInOrder(cfg, w, who);
    InvFacts(cfg, w);
    var m, choices := Canon(w), CommitsOf(cfg, w, who);
    if choices == [] {
      NothingReplays(cfg, m, None, 0);
    } else {
      CommitIsHonest(cfg, w);
      if Claimed(w.progress, w.lane0.held) && Claimed(w.progress, w.lane1.held) {
        BothClaimedTie(cfg, m, w.lane0.held, w.lane1.held, w.progress);
        assert false;
      }
      assert |choices| == 1 && choices == [choices[0]];
      OneInOrder(cfg, m, choices[0]);
      assert choices[1..] == [];
    }
  }

  /** A schedule that follows the reference to its end passes through its first tie. */
  lemma {:induction false} ReachFirstTie(cfg: Config, w: World, schedule: seq<Thread>) returns (steps: seq<Thread>, c: nat)
    requires Inv(cfg, w) && CanonOk(w) && DualOk(cfg, Canon(w)) && FirstTieMeets(cfg, Canon(w)) && RaceFree(cfg, w, schedule)
    requires CanonOk(Run(cfg, w, schedule)) && Next(cfg, Canon(Run(cfg, w, schedule))).None?
    ensures c < 2 && AboutToMeet(cfg, Run(cfg, w, steps), c)
    decreases |schedule|
  {
    hide Inv, Canon, Act, CommitsOf, Next, Step, HarmfulRace, Meets, DualOk;
    if schedule != [] {
      var who := schedule[0];
      UntiedAct(cfg, w, who);
      var r, choices := Act(cfg, w, who), CommitsOf(cfg, w, who);
      InvFacts(cfg, r);
      if choices != [] && Meets(cfg, Canon(r), choices[0].cpu) {
        steps, c := [], choices[0].cpu;
        assert choices[0] == Choice(c, false);
      } else {
        var rest;
        rest, c := ReachFirstTie(cfg, r, schedule[1..]);
        steps := [who] + rest;
        assert steps[0] == who && steps[1..] == rest;
      }
    }
  }

  // ----- driving the machine to the race -----

  /** A lone commit answers just its CPU. */
  lemma LoneAnswer(cfg: Config, w: World, c: nat)
    requires Inv(cfg, w) && c < 2 && w.coord.at == Commit && CommitsOf(cfg, w, Coordinator) == [Choice(c, false)]
    ensures var r := CommitHeld(cfg, w);
            && r.coord == w.coord.(at := PushResp, answers := [c]) && r.At(1 - c) == w.At(1 - c)
            && r.At(c) == w.At(c).(reply := r.At(c).reply) && r.At(c).reply.Some? && r.At(1 - c).reply.None?
  {
    hide LaneOk, DualOk, CanonSide, CommitBatch, BatchChoices, Answers, LegalRun, Possible, Replay, NotAhead, Offer, OwnerOf, Committable, ReplyPosition;
    InvFacts(cfg, w);
    CommitIsHonest(cfg, w);
    ActKeeps(cfg, w, Coordinator);
    var h0, h1, p, m, choices := w.lane0.held, w.lane1.held, w.progress, Canon(w), CommitsOf(cfg, w, Coordinator);
    assert choices[0].cpu == c;
    ChoicesAreClaims(cfg, m, Claimed(p, h0), Claimed(p, h1));
    BatchReplays(cfg, w.bus, m, h0, h1, p);
    BatchIsLegal(cfg, m, h0, h1, p);
    var results := CommitBatch(cfg, w.bus, p, Offer(h0, h1)).results;
    AnswersReach(cfg, m, choices, h0, |Offer(h0, h1)|, results);
    AnswersCount(cfg, m, choices, h0, |Offer(h0, h1)|, results);
    assert Owners(h0, results) == [c];
    assert ReplyPosition(h0, results, c) == 0;
    assert ReplyPosition(h0, results, 1 - c) >= |results|;
  }

  /** A CPU that still has something to ask for has not ended. */
  lemma PendingIsNotDone(l: Lane, i: nat, mark: Option<Tick>)
    requires LaneOk(l, i, mark) && l.cpu.Valid() && ComingFits(l) && CanonSide(l).op.Some?
    ensures !l.done && l.at != Finished
  {
    hide CpuOk, OpMatches, MarksOk;
    if l.at == Finished || l.at == NotifyDone {
      DoneSettles(l.cpu);
    }
  }

  lemma QuietAct(cfg: Config, w: World, who: Thread)
    requires Inv(cfg, w) && (who != Coordinator || w.coord.at != Commit)
    ensures CanonOk(w) && CoordReady(w) && Runnable(w.lane0) && Runnable(w.lane1)
    ensures Inv(cfg, Act(cfg, w, who)) && CanonOk(Act(cfg, w, who)) && Canon(Act(cfg, w, who)) == Canon(w)
  {
    hide Inv, Canon, Act;
    ActKeeps(cfg, w, who);
    InvFacts(cfg, w);
    NothingReplays(cfg, Canon(w), None, 0);
  }

  /** The coordinator hands over its one reply, notifies and begins its next turn. */
  lemma Reply(cfg: Config, w: World, c: nat) returns (steps: seq<Thread>)
    requires Inv(cfg, w) && c < 2 && w.coord.at == PushResp && w.coord.answers == [c] && w.At(c).reply.Some?
    requires !w.lane0.done
    ensures var r := Run(cfg, w, steps);
            && r.coord.at == PopReq(0) && r.At(1 - c) == w.At(1 - c)
            && r.At(c) == w.At(c).(resp := r.At(c).resp, held := None, reply := None) && r.At(c).resp != []
            && CanonOk(w) && CanonOk(r) && Canon(r) == Canon(w)
  {
    hide Inv, Run, ProducerStep, TakeRequest, TakeMark, CommitHeld, Canon;
    var t := Coordinator;
    RunOne(cfg, w, t);
    QuietAct(cfg, w, t);
    RunMore(cfg, w, [t], t);
    QuietAct(cfg, Run(cfg, w, [t]), t);
    RunMore(cfg, w, [t] + [t], t);
    QuietAct(cfg, Run(cfg, w, [t] + [t]), t);
    steps := [t] + [t] + [t];
  }

  lemma ParkStep(cfg: Config, w: World, i: nat)
    requires Inv(cfg, w) && Awake(w) && i < 2 && !Parked(w.At(i)) && !Replying(w.coord.at) && w.At(i).reply.None?
    ensures CanonOk(w) && CoordReady(w) && Runnable(w.lane0) && Runnable(w.lane1)
    ensures var r := Act(cfg, w, ProducerOf(i));
            && Inv(cfg, r) && Awake(r) && CanonOk(r) && Canon(r) == Canon(w) && r.coord == w.coord && r.progress == w.progress
            && r.At(1 - i) == w.At(1 - i) && ToPark(r.At(i)) < ToPark(w.At(i))
            && r.At(i).held == w.At(i).held && r.At(i).reply == w.At(i).reply
  {
    hide Inv, Canon, LaneAwake, FlagsOk, ToPark, Parked, MarksOk, Placed;
    ActKeeps(cfg, w, ProducerOf(i));
    ActStaysAwake(cfg, w, ProducerOf(i));
    InvShape(cfg, w);
    NothingReplays(cfg, Canon(w), None, 0);
    if i == 0 {
      ProducerParks(w.lane0, 0, w.progress.cpu0, w.coord, w.epoch);
    } else {
      ProducerParks(w.lane1, 1, w.progress.cpu1, w.coord, w.epoch);
    }
    KeepsHand(w.At(i), w.epoch);
  }

  lemma KeepsHand(l: Lane, epoch: nat)
    requires l.cpu.Valid() && Runnable(l)
    ensures ProducerStep(l, epoch).lane.held == l.held && ProducerStep(l, epoch).lane.reply == l.reply
  {
    hide RunAhead, Answered;
  }

  /** Left to itself, a producer comes to rest. */
  lemma {:induction false} Park(cfg: Config, w: World, i: nat) returns (steps: seq<Thread>)
    requires Inv(cfg, w) && Awake(w) && CanonOk(w) && i < 2 && !Replying(w.coord.at) && w.At(i).reply.None?
    ensures var r := Run(cfg, w, steps);
            && Awake(r) && CanonOk(r) && Canon(r) == Canon(w) && r.coord == w.coord && r.progress == w.progress
            && r.At(1 - i) == w.At(1 - i) && Parked(r.At(i)) && r.At(i).held == w.At(i).held && r.At(i).reply.None?
    decreases ToPark(w.At(i))
  {
    hide Inv, Awake, Act, Canon, ToPark, Parked;
    if Parked(w.At(i)) {
      steps := [];
    } else {
      ParkStep(cfg, w, i);
      var rest := Park(cfg, Act(cfg, w, ProducerOf(i)), i);
      steps := [ProducerOf(i)] + rest;
      assert steps[0] == ProducerOf(i) && steps[1..] == rest;
    }
  }

  /** The coordinator takes the request of CPU i, if it has not yet, and finds none of the other CPU. */
  lemma TakeLone(cfg: Config, w: World, i: nat) returns (steps: seq<Thread>)
    requires Inv(cfg, w) && i < 2 && w.coord.at == PopReq(0) && Asked(w.At(i)) && w.At(1 - i).req == []
    ensures var r := Run(cfg, w, steps);
            && r.coord.at == PopMarks(0) && r.At(1 - i) == w.At(1 - i)
            && r.At(i) == w.At(i).(held := w.At(i).waiting, req := [])
            && CanonOk(w) && CanonOk(r) && Canon(r) == Canon(w)
  {
    hide Inv, Run, ProducerStep, TakeMark, CommitHeld, Canon;
    RunOne(cfg, w, Coordinator);
    QuietAct(cfg, w, Coordinator);
    RunMore(cfg, w, [Coordinator], Coordinator);
    QuietAct(cfg, Run(cfg, w, [Coordinator]), Coordinator);
    steps := [Coordinator] + [Coordinator];
  }

  /** The coordinator reads every mark and comes to the commit. */
  lemma {:induction false} ReadAllMarks(cfg: Config, w: World) returns (steps: seq<Thread>)
    requires Inv(cfg, w) && (w.coord.at == PopMarks(0) || (w.coord.at == PopMarks(1) && w.lane0.marks == []))
    ensures var r := Run(cfg, w, steps);
            && r.coord.at == Commit && r.lane0 == w.lane0.(marks := []) && r.lane1 == w.lane1.(marks := [])
            && CanonOk(w) && CanonOk(r) && Canon(r) == Canon(w)
    decreases |w.lane0.marks| + |w.lane1.marks|, if w.coord.at == PopMarks(0) then 1 else 0
  {
    hide Inv, Run, CommitHeld, UpdateProgress, Canon, ProducerStep, TakeRequest, Answer, EndTurn;
    RunOne(cfg, w, Coordinator);
    QuietAct(cfg, w, Coordinator);
    var r := Act(cfg, w, Coordinator);
    if w.coord.at == PopMarks(1) && w.lane1.marks == [] {
      RunMore(cfg, w, [Coordinator], Coordinator);
      QuietAct(cfg, r, Coordinator);
      steps := [Coordinator] + [Coordinator];
    } else {
      var rest := ReadAllMarks(cfg, r);
      RunTogether(cfg, w, [Coordinator], rest);
      steps := [Coordinator] + rest;
    }
  }

  lemma ExactMark(l: Lane, i: nat, mark: Option<Tick>, coord: Coord, epoch: nat)
    requires LaneOk(l, i, mark) && l.cpu.Valid() && ComingFits(l) && LaneAwake(l, i, mark, coord, epoch)
    requires Parked(l) && l.at != Finished && l.marks == []
    ensures mark == Some(ReqTime(Side(l.cpu, l.waiting)) + 1) && CanonSide(l) == Side(l.cpu, l.waiting)
  {
    hide CpuOk, RunAhead, Answered;
    LaneFacts(l, i, mark);
  }

  lemma BothMarksClaim(p: Progress, x: Option<PendingOp>)
    requires x.Some? && p == Progress(true, Some(x.value.op.reqTime + 1), Some(x.value.op.reqTime + 1))
    ensures Claimed(p, x)
  {
  }

  /** With the peer's operation and both marks known, but the other CPU's operation still in its mailbox, the commit races. */
  lemma PeerAlone(cfg: Config, w: World, j: nat)
    requires Inv(cfg, w) && Awake(w) && CanonOk(w) && j < 2 && w.coord.at == Commit && Meets(cfg, Canon(w), 1 - j)
    requires Parked(w.At(j)) && w.At(j).held.Some? && Parked(w.At(1 - j)) && w.At(1 - j).held.None?
    requires w.lane0.marks == [] && w.lane1.marks == []
    ensures Race(cfg, w, j)
  {
    hide DualOk, LaneOk, CanonSide, Claimed, LaneAwake, FlagsOk;
    PendingIsNotDone(w.lane0, 0, w.progress.cpu0);
    PendingIsNotDone(w.lane1, 1, w.progress.cpu1);
    ExactMark(w.lane0, 0, w.progress.cpu0, w.coord, w.epoch);
    ExactMark(w.lane1, 1, w.progress.cpu1, w.coord, w.epoch);
    BothMarksClaim(w.progress, w.At(j).held);
  }

  /** From the reply of CPU c: it is handed over, the other CPU's request is taken, and only then does CPU c ask. */
  lemma DriveToRace(cfg: Config, w: World, c: nat) returns (steps: seq<Thread>)
    requires Inv(cfg, w) && Awake(w) && CanonOk(w) && c < 2 && Meets(cfg, Canon(w), c)
    requires w.coord.at == PushResp && w.coord.answers == [c] && w.At(c).reply.Some? && w.At(1 - c).reply.None?
    ensures !RaceFree(cfg, w, steps)
  {
    hide Inv, Run, Awake, Canon, Meets, RaceFree, Parked;
    var j := 1 - c;
    NeitherDone(cfg, w, c);
    var a := Reply(cfg, w, c);
    var w1 := Run(cfg, w, a);
    RunStaysAwake(cfg, w, a);
    AnsweredHasNotAsked(cfg, w1, c);
    var d := Park(cfg, w1, j);
    var w2 := Run(cfg, w1, d);
    NeitherDone(cfg, w2, c);
    AtRestHasAsked(w2.At(j));
    var e := TakeLone(cfg, w2, j);
    var w3 := Run(cfg, w2, e);
    RunStaysAwake(cfg, w2, e);
    StillAtRest(w2.At(j));
    var f := Park(cfg, w3, c);
    var w4 := Run(cfg, w3, f);
    var g := ReadAllMarks(cfg, w4);
    var w5 := Run(cfg, w4, g);
    RunStaysAwake(cfg, w4, g);
    RestIgnoresMarks(w4.At(c));
    RestIgnoresMarks(w4.At(j));
    PeerAlone(cfg, w5, j);
    LastRaces(cfg, w5);
    steps := a + (d + (e + (f + (g + [Coordinator]))));
    RunTogether(cfg, w, a, d + (e + (f + (g + [Coordinator]))));
    RunTogether(cfg, w1, d, e + (f + (g + [Coordinator])));
    RunTogether(cfg, w2, e, f + (g + [Coordinator]));
    RunTogether(cfg, w3, f, g + [Coordinator]);
    RunTogether(cfg, w4, g, [Coordinator]);
  }

  lemma NeitherDone(cfg: Config, w: World, c: nat)
    requires Inv(cfg, w) && CanonOk(w) && c < 2 && Meets(cfg, Canon(w), c)
    ensures !w.lane0.done && w.lane0.at != Finished && !w.lane1.done && w.lane1.at != Finished
  {
    hide DualOk, LaneOk, CanonSide;
    PendingIsNotDone(w.lane0, 0, w.progress.cpu0);
    PendingIsNotDone(w.lane1, 1, w.progress.cpu1);
  }

  lemma AnsweredHasNotAsked(cfg: Config, w: World, c: nat)
    requires Inv(cfg, w) && c < 2 && w.At(c).resp != []
    ensures w.At(c).req == []
  {
    hide Inv, MarksOk;
    InvShape(cfg, w);
  }

  lemma AtRestHasAsked(l: Lane)
    requires Parked(l) && l.at != Finished
    ensures Asked(l)
  {
  }

  lemma StillAtRest(l: Lane)
    requires Parked(l) && l.at != Finished
    ensures Parked(l.(held := l.waiting, req := []))
  {
  }

  lemma RestIgnoresMarks(l: Lane)
    requires Parked(l)
    ensures Parked(l.(marks := []))
  {
  }

  // ----- every such tie races -----

  /** Some schedule overtakes at the first tie of the reference run, if the tie is there from the start or if the operation
      found waiting there is not of a higher class than the one that meets it. */
  lemma FirstTieRaces(cfg: Config, c0: Cpu, c1: Cpu, b: BusState, p: Progress) returns (schedule: seq<Thread>)
    requires CpuOk(c0, 0) && CpuOk(c1, 1) && DualOk(cfg, Dual(Settled(c0), Settled(c1), Core(b)))
    requires p.cpu0.Some? ==> p.cpu0.value <= c0.time
    requires p.cpu1.Some? ==> p.cpu1.value <= c1.time
    requires Tied(Dual(Settled(c0), Settled(c1), Core(b))) || FirstTieMeets(cfg, Dual(Settled(c0), Settled(c1), Core(b)))
    ensures Inv(cfg, Start(c0, c1, b, p)) && !RaceFree(cfg, Start(c0, c1, b, p), schedule)
  {
    hide Inv, Run, RaceFree, CpuOk, DualOk, Start, Awake, Canon, FirstTieMeets, Complete, Next, Tied, AboutToMeet;
    StartOk(cfg, c0, c1, b, p);
    StartAwake(c0, c1, b, p);
    var w := Start(c0, c1, b, p);
    if Tied(Canon(w)) {
      schedule := TiedStartRaces(cfg, c0, c1, b, p);
    } else {
      TurnsAreFair();
      var count := FairSchedulesComplete(cfg, w, Turns, 0);
      schedule := Part(Turns, 0, count);
      if RaceFree(cfg, w, schedule) {
        CompleteIsOver(cfg, Run(cfg, w, schedule));
        var steps, c := ReachFirstTie(cfg, w, schedule);
        RunStaysAwake(cfg, w, steps);
        var drive := FromTheCommit(cfg, Run(cfg, w, steps), c);
        RunTogether(cfg, w, steps, drive);
        schedule := steps + drive;
      }
    }
  }

  lemma FromTheCommit(cfg: Config, w: World, c: nat) returns (steps: seq<Thread>)
    requires Inv(cfg, w) && Awake(w) && c < 2 && AboutToMeet(cfg, w, c)
    ensures !RaceFree(cfg, w, steps)
  {
    hide Inv, Run, Awake, Canon, Meets, RaceFree, CommitHeld, CommitsOf;
    ActKeeps(cfg, w, Coordinator);
    ActStaysAwake(cfg, w, Coordinator);
    LoneAnswer(cfg, w, c);
    RunOne(cfg, w, Coordinator);
    var drive := DriveToRace(cfg, Act(cfg, w, Coordinator), c);
    RunTogether(cfg, w, [Coordinator], drive);
    steps := [Coordinator] + drive;
  }

  lemma CompleteIsOver(cfg: Config, w: World)
    requires CanonOk(w) && Complete(cfg, w)
    ensures Next(cfg, Canon(w)).None?
  {
  }

  /** All three threads in turn. */
  function Turns(n: nat): Thread {
    if n % 3 == 0 then Producer0 else if n % 3 == 1 then Producer1 else Coordinator
  }

  lemma TurnAt(n: nat)
    ensures Turns(3 * n) == Producer0 && Turns(3 * n + 1) == Producer1 && Turns(3 * n + 2) == Coordinator
  {
  }

  lemma TurnComes(n: nat, who: Thread)
    ensures Scheduled(Turns, n, who)
  {
    TurnAt(n);
    hide Turns;
    var k := match who case Producer0 => 3 * n case Producer1 => 3 * n + 1 case Coordinator => 3 * n + 2;
    assert n <= k && Turns(k) == who;
  }

  lemma TurnsAreFair()
    ensures Fair(Turns)
  {
    hide Scheduled, Turns;
    forall n: nat, who: Thread
      ensures Scheduled(Turns, n, who)
    {
      TurnComes(n, who);
    }
  }

  // ----- when the schedule matters -----

  /** The reference run has no tie, or its first one is of the kind above. */
  ghost predicate FirstTieOpen(cfg: Config, m: Dual)
    requires DualOk(cfg, m)
  {
    TieFree(cfg, m) || Tied(m) || FirstTieMeets(cfg, m)
  }

  /** The first tie of the reference run, if it has one, is between operations of one class. */
  ghost predicate FirstTieSameClass(cfg: Config, m: Dual)
    requires DualOk(cfg, m)
    decreases Unfinished(m.side0) + Unfinished(m.side1)
  {
    if Tied(m) then SameClass(cfg, m)
    else
      Next(cfg, m).Some? ==>
        (NextIsPossible(cfg, m); StepFacts(cfg, m, Next(cfg, m).value); FirstTieSameClass(cfg, Step(cfg, m, Next(cfg, m).value)))
  }

  lemma {:induction false} SameClassIsOpen(cfg: Config, m: Dual)
    requires DualOk(cfg, m) && FirstTieSameClass(cfg, m)
    ensures FirstTieOpen(cfg, m)
    decreases Unfinished(m.side0) + Unfinished(m.side1)
  {
    hide DualOk, Step, Next, Unfinished;
    if !Tied(m) && Next(cfg, m).Some? {
      NextIsPossible(cfg, m);
      StepFacts(cfg, m, Next(cfg, m).value);
      SameClassIsOpen(cfg, Step(cfg, m, Next(cfg, m).value));
    }
  }

  ghost predicate EveryScheduleFollows(cfg: Config, w: World)
    requires Inv(cfg, w)
  {
    forall schedule :: RaceFree(cfg, w, schedule)
  }

  ghost predicate EveryTraceIsPrefix(cfg: Config, w: World, fin: Dual)
    requires Inv(cfg, w)
  {
    forall schedule :: Run(cfg, w, schedule).bus.trace.events <= fin.bus.trace.events
  }

  /** Where a tie costs time, following the reference can be told from the trace. */
  lemma FollowingShows(cfg: Config, w: World)
    requires Inv(cfg, w) && cfg.latency.tieTurnaround >= 1
    ensures CanonOk(w) && DualOk(cfg, Canon(w))
    ensures EveryScheduleFollows(cfg, w) <==> EveryTraceIsPrefix(cfg, w, Finish(cfg, Canon(w)))
  {
    hide Inv, Run, RaceFree, Canon, Finish, DualOk;
    CanonReady(cfg, w);
    InvFacts(cfg, w);
    forall schedule
      ensures RaceFree(cfg, w, schedule) <==> Run(cfg, w, schedule).bus.trace.events <= Finish(cfg, Canon(w)).bus.trace.events
    {
      DeterministicWithoutRaces(cfg, w, schedule);
    }
  }

  /** For such programs the schedule matters exactly when the reference run has a tie: every schedule follows the reference
      if and only if there is none, and where a tie costs time the same holds of the traces. */
  lemma ScheduleMattersExactly(cfg: Config, c0: Cpu, c1: Cpu, b: BusState, p: Progress)
    requires CpuOk(c0, 0) && CpuOk(c1, 1) && DualOk(cfg, Dual(Settled(c0), Settled(c1), Core(b)))
    requires p.cpu0.Some? ==> p.cpu0.value <= c0.time
    requires p.cpu1.Some? ==> p.cpu1.value <= c1.time
    requires FirstTieOpen(cfg, Dual(Settled(c0), Settled(c1), Core(b)))
    ensures Inv(cfg, Start(c0, c1, b, p))
    ensures EveryScheduleFollows(cfg, Start(c0, c1, b, p)) <==> TieFree(cfg, Dual(Settled(c0), Settled(c1), Core(b)))
    ensures cfg.latency.tieTurnaround >= 1 ==>
      (EveryTraceIsPrefix(cfg, Start(c0, c1, b, p), Finish(cfg, Dual(Settled(c0), Settled(c1), Core(b))))
       <==> TieFree(cfg, Dual(Settled(c0), Settled(c1), Core(b))))
  {
    var w, m := Start(c0, c1, b, p), Dual(Settled(c0), Settled(c1), Core(b));
    hide Inv, RaceFree, CpuOk, DualOk, Start, Canon, FirstTieMeets, TieFree, Tied, Finish, Settled, EveryTraceIsPrefix;
    StartOk(cfg, c0, c1, b, p);
    if cfg.latency.tieTurnaround >= 1 {
      FollowingShows(cfg, w);
    }
    if TieFree(cfg, m) {
      forall schedule
        ensures RaceFree(cfg, w, schedule)
      {
        TieFreeNeverRaces(cfg, w, schedule);
      }
    } else {
      var racing := FirstTieRaces(cfg, c0, c1, b, p);
      assert !RaceFree(cfg, w, racing);
    }
  }
}
