/** When the multithreaded driver agrees with the reference, whatever the schedule. */
module ThreadedDeterminism {
  import opened Prelude
  import opened Bus
  import opened ScriptedCpus
  import opened DualMachine
  import opened DualBatch
  import opened DualSafety
  import opened ThreadedDriver
  import opened ThreadedInvariant

  // ----- the reference order -----

  ghost predicate InReferenceOrder(cfg: Config, m: Dual, choices: seq<Choice>)
    requires LegalRun(cfg, m, choices)
    decreases |choices|
  {
    choices != [] ==> Next(cfg, m) == Some(choices[0]) && InReferenceOrder(cfg, Step(cfg, m, choices[0]), choices[1..])
  }

  lemma {:induction false} FinishExtends(cfg: Config, m: Dual)
    requires DualOk(cfg, m)
    ensures Extends(m, Finish(cfg, m))
    decreases Unfinished(m.side0) + Unfinished(m.side1)
  {
    hide DualOk, Step, Next;
    if Next(cfg, m).Some? {
      NextIsPossible(cfg, m);
      StepFacts(cfg, m, Next(cfg, m).value);
      FinishExtends(cfg, Step(cfg, m, Next(cfg, m).value));
    }
  }

  lemma NextIsPossible(cfg: Config, m: Dual)
    requires Next(cfg, m).Some?
    ensures Next(cfg, m).value.cpu < 2 && m.At(Next(cfg, m).value.cpu).op.Some?
  {
  }

  /** A run in reference order is part of the reference run. */
  lemma {:induction false} ReferencePrefix(cfg: Config, m: Dual, choices: seq<Choice>)
    requires LegalRun(cfg, m, choices) && Possible(cfg, m, choices) && InReferenceOrder(cfg, m, choices)
    ensures DualOk(cfg, Replay(cfg, m, choices))
    ensures Finish(cfg, Replay(cfg, m, choices)) == Finish(cfg, m)
    ensures Extends(Replay(cfg, m, choices), Finish(cfg, m))
    decreases |choices|
  {
    hide DualOk, Step, Next, Legal;
    ReplayOk(cfg, m, choices);
    if choices == [] {
      FinishExtends(cfg, m);
    } else {
      var m1 := Step(cfg, m, choices[0]);
      LegalIsPossible(cfg, m1, choices[1..]);
      ReferencePrefix(cfg, m1, choices[1..]);
    }
  }

  /** Two different commits of the same state leave different traces. */
  lemma DifferentCommits(cfg: Config, m: Dual, a: Choice, b: Choice)
    requires DualOk(cfg, m) && cfg.latency.tieTurnaround >= 1 && a != b
    requires a.cpu < 2 && m.At(a.cpu).op.Some? && b.cpu < 2 && m.At(b.cpu).op.Some?
    ensures var x, y := Added(m, Step(cfg, m, a)), Added(m, Step(cfg, m, b));
            Extends(m, Step(cfg, m, a)) && Extends(m, Step(cfg, m, b)) && |x| == 1 && |y| == 1 && x[0] != y[0]
  {
    hide DualOk, Step, ValueOf, RamAfter, DevAfter, FillsLine, BaseLatency;
    StepFacts(cfg, m, a);
    StepFacts(cfg, m, b);
    StepNumbers(cfg, m, a);
    StepNumbers(cfg, m, b);
    if a.cpu == b.cpu {
      AcceptedFinish(cfg, m, a);
      AcceptedFinish(cfg, m, b);
    }
  }

  lemma AcceptedFinish(cfg: Config, m: Dual, ch: Choice)
    requires DualOk(cfg, m) && ch.cpu < 2 && m.At(ch.cpu).op.Some?
    ensures var op := m.At(ch.cpu).op.value.op;
            Committing(cfg, m, ch).response.commitTime == StartOf(m.bus, op) + LatencyOf(cfg.latency, m.bus.lastAddr, op, ch.tie)
  {
    hide ValueOf, RamAfter, DevAfter, FillsLine, LatencyOf, WellFormed, CpuOk;
  }

  /** A run out of reference order cannot be told as part of the reference run. */
  lemma {:induction false} DeviationShows(cfg: Config, m: Dual, choices: seq<Choice>)
    requires LegalRun(cfg, m, choices) && Possible(cfg, m, choices) && !InReferenceOrder(cfg, m, choices)
    requires cfg.latency.tieTurnaround >= 1
    ensures !Extends(Replay(cfg, m, choices), Finish(cfg, m))
    decreases |choices|
  {
    hide DualOk, Step;
    var ch := choices[0];
    var m1 := Step(cfg, m, ch);
    LegalIsPossible(cfg, m1, choices[1..]);
    NextIsPossible(cfg, m);
    var ref := Next(cfg, m).value;
    if ref == ch {
      DeviationShows(cfg, m1, choices[1..]);
    } else {
      DifferentCommits(cfg, m, ch, ref);
      var r1 := Step(cfg, m, ref);
      StepOk(cfg, m, ref);
      FinishExtends(cfg, r1);
      LegalRunIsOrderly(cfg, m1, choices[1..], 0);
      var end, fin := Replay(cfg, m1, choices[1..]), Finish(cfg, r1);
      var n := |m.bus.trace.events|;
      assert end.bus.trace.events[n] == m1.bus.trace.events[n] == Added(m, m1)[0];
      assert fin.bus.trace.events[n] == r1.bus.trace.events[n] == Added(m, r1)[0];
    }
  }

  // ----- the one race that matters -----

  /** The coordinator is about to commit the operation of CPU i while an operation the other CPU asked for at the same
      tick, and at least as urgent, is still in its mailbox. */
  predicate Race(cfg: Config, w: World, i: nat)
    requires i < 2
  {
    var x, peer := w.At(i).held, w.At(1 - i);
    && w.coord.at == Commit && Claimed(w.progress, x)
    && peer.held.None? && peer.req != [] && peer.req[0].op.reqTime == x.value.op.reqTime
    && cfg.policy(x.value.op) <= cfg.policy(peer.req[0].op)
  }

  predicate HarmfulRace(cfg: Config, w: World) {
    Race(cfg, w, 0) || Race(cfg, w, 1)
  }

  lemma RequestIsPending(l: Lane, i: nat, mark: Option<Tick>)
    requires LaneOk(l, i, mark) && l.cpu.Valid() && ComingFits(l) && l.req != []
    ensures CanonSide(l) == Side(l.cpu, l.waiting) && l.waiting == Some(l.req[0]) && l.held.None?
  {
  }

  lemma SettledLater(c: Cpu, i: nat)
    requires CpuOk(c, i)
    ensures Settled(c).op.Some? ==> c.time <= ReqTime(Settled(c))
  {
    hide RunAhead, CpuOk, OpMatches;
    CpuOkValid(c, i);
    RunAheadFacts(c, i);
    if Settled(c).op.Some? {
      OpMatchesFacts(Settled(c).cpu, Settled(c).op.value, i);
    }
  }

  /** An operation the coordinator may not overtake is in the mailbox or in hand once its mark has been read. */
  lemma MarkedMeansAsked(l: Lane, i: nat, mark: Option<Tick>)
    requires LaneOk(l, i, mark) && l.cpu.Valid() && ComingFits(l) && l.reply.None? && mark.Some?
    requires CanonSide(l).op.Some? && ReqTime(CanonSide(l)) < mark.value
    ensures l.waiting.Some? && CanonSide(l) == Side(l.cpu, l.waiting)
    ensures (l.req == [l.waiting.value] && l.held.None?) || l.held == l.waiting
  {
    hide RunAhead, Answered, CpuOk, OpMatches;
    LaneFacts(l, i, mark);
    var r := Coming(l);
    if r.Some? {
      ApplyFacts(l.cpu, i, r.value.scriptIndex, r.value.response, r.value.token);
      SettledLater(Answered(l.cpu, r.value.scriptIndex, r.value.response, r.value.token), i);
    } else if l.waiting.None? {
      SettledLater(l.cpu, i);
    }
  }

  /** A lone claimed commit is the next one of the reference unless the tie rule prefers the other CPU or charges a tie. */
  lemma LoneCommit(cfg: Config, m: Dual, i: nat)
    requires DualOk(cfg, m) && i < 2 && Legal(m, Choice(i, false))
    ensures Next(cfg, m) == Some(Choice(i, false)) <==>
      !(Tied(m) && cfg.policy(m.At(i).op.value.op) <= cfg.policy(m.At(1 - i).op.value.op))
  {
    hide WellFormed, CpuOk, Validate;
  }

  lemma OneInOrder(cfg: Config, m: Dual, ch: Choice)
    requires LegalRun(cfg, m, [ch])
    ensures InReferenceOrder(cfg, m, [ch]) <==> Next(cfg, m) == Some(ch)
  {
    hide DualOk, Step, Next, Legal;
    assert [ch][1..] == [];
  }

  lemma LoneInOrder(cfg: Config, w: World, i: nat)
    requires Inv(cfg, w) && w.coord.at == Commit && i < 2 && CanonOk(w)
    requires Claimed(w.progress, w.At(i).held) && !Claimed(w.progress, w.At(1 - i).held)
    requires Honest(cfg, Canon(w), w.lane0.held, w.lane1.held, w.progress)
    requires LegalRun(cfg, Canon(w), [Choice(i, false)])
    ensures InReferenceOrder(cfg, Canon(w), [Choice(i, false)]) <==> !HarmfulRace(cfg, w)
  {
    hide DualOk, Next, LaneOk, CanonSide, NotAhead;
    var m, j := Canon(w), 1 - i;
    var x, peer := w.At(i).held, w.At(j);
    var mark := if j == 0 then w.progress.cpu0 else w.progress.cpu1;
    OneInOrder(cfg, m, Choice(i, false));
    LoneCommit(cfg, m, i);
    CommitIsHonest(cfg, w);
    PublishedIsHonest(w.lane0, 0, w.progress.cpu0);
    PublishedIsHonest(w.lane1, 1, w.progress.cpu1);
    ClaimedIsBelow(w.progress, x);
    if Tied(m) {
      MarkedMeansAsked(peer, j, mark);
      assert peer.held.None?;
      assert peer.req[0] == m.At(j).op.value;
    } else if peer.req != [] {
      RequestIsPending(peer, j, mark);
    }
  }

  lemma BothInOrder(cfg: Config, m: Dual)
    requires DualOk(cfg, m) && Tied(m)
    ensures var choices := [Next(cfg, m).value, Loser(cfg, m)];
            LegalRun(cfg, m, choices) && InReferenceOrder(cfg, m, choices)
  {
    hide DualOk, Step, Beats;
    LoserIsNext(cfg, m);
    NextIsLegal(cfg, m);
    var m1 := Step(cfg, m, Next(cfg, m).value);
    NextIsLegal(cfg, m1);
    StepOk(cfg, m1, Loser(cfg, m));
    var choices := [Next(cfg, m).value, Loser(cfg, m)];
    assert choices[1..] == [Loser(cfg, m)];
    assert [Loser(cfg, m)][1..] == [];
    assert LegalRun(cfg, m1, [Loser(cfg, m)]);
    OneInOrder(cfg, m1, Loser(cfg, m));
  }

  /** A commit step follows the reference exactly when it is not a harmful race. */
  lemma CommitInOrder(cfg: Config, w: World)
    requires Inv(cfg, w) && w.coord.at == Commit
    ensures CanonOk(w) && LegalRun(cfg, Canon(w), CommitsOf(cfg, w, Coordinator))
    ensures InReferenceOrder(cfg, Canon(w), CommitsOf(cfg, w, Coordinator)) <==> !HarmfulRace(cfg, w)
  {
    hide DualOk, Next, LaneOk, CanonSide, NotAhead, Committable, Step, LegalRun, Act, Inv;
    ActKeeps(cfg, w, Coordinator);
    CommitIsHonest(cfg, w);
    var m, h0, h1, p := Canon(w), w.lane0.held, w.lane1.held, w.progress;
    if Claimed(p, h0) && Claimed(p, h1) {
      BothClaimedTie(cfg, m, h0, h1, p);
      BothInOrder(cfg, m);
    } else if Claimed(p, h0) {
      LoneInOrder(cfg, w, 0);
    } else if Claimed(p, h1) {
      LoneInOrder(cfg, w, 1);
    }
  }

  // ----- whole schedules -----

  ghost predicate RaceFree(cfg: Config, w: World, schedule: seq<Thread>)
    requires Inv(cfg, w)
    decreases |schedule|
  {
    schedule != [] ==>
      && (schedule[0] == Coordinator ==> !HarmfulRace(cfg, w))
      && (ActKeeps(cfg, w, schedule[0]); RaceFree(cfg, Act(cfg, w, schedule[0]), schedule[1..]))
  }

  lemma {:induction false} InOrderTogether(cfg: Config, m: Dual, a: seq<Choice>, b: seq<Choice>)
    requires LegalRun(cfg, m, a) && Possible(cfg, m, a) && LegalRun(cfg, Replay(cfg, m, a), b)
    requires LegalRun(cfg, m, a + b)
    ensures InReferenceOrder(cfg, m, a + b) <==> InReferenceOrder(cfg, m, a) && InReferenceOrder(cfg, Replay(cfg, m, a), b)
    decreases |a|
  {
    hide DualOk, Step, Next, Legal;
    if a == [] {
      assert a + b == b;
    } else {
      assert (a + b)[0] == a[0] && (a + b)[1..] == a[1..] + b;
      LegalIsPossible(cfg, Step(cfg, m, a[0]), a[1..]);
      InOrderTogether(cfg, Step(cfg, m, a[0]), a[1..], b);
    }
  }

  lemma ActInOrder(cfg: Config, w: World, who: Thread)
    requires Inv(cfg, w)
    ensures CanonOk(w) && LegalRun(cfg, Canon(w), CommitsOf(cfg, w, who))
    ensures InReferenceOrder(cfg, Canon(w), CommitsOf(cfg, w, who)) <==> !(who == Coordinator && HarmfulRace(cfg, w))
  {
    hide DualOk, LaneOk, CanonSide, Next, Claimed;
    ActKeeps(cfg, w, who);
    if who == Coordinator && w.coord.at == Commit {
      CommitInOrder(cfg, w);
    }
  }

  /** A schedule commits in the reference order exactly when no commit of it is a harmful race. */
  lemma {:induction false} FollowsReference(cfg: Config, w: World, schedule: seq<Thread>)
    requires Inv(cfg, w)
    ensures CanonOk(w) && LegalRun(cfg, Canon(w), History(cfg, w, schedule))
    ensures InReferenceOrder(cfg, Canon(w), History(cfg, w, schedule)) <==> RaceFree(cfg, w, schedule)
    decreases |schedule|
  {
    hide Inv, Canon, Act, CommitsOf, Replay, LegalRun, Possible, HarmfulRace, InReferenceOrder;
    RunReplays(cfg, w, schedule);
    if schedule == [] {
      InOrderNothing(cfg, Canon(w));
    } else {
      ActKeeps(cfg, w, schedule[0]);
      ActInOrder(cfg, w, schedule[0]);
      var w1 := Act(cfg, w, schedule[0]);
      FollowsReference(cfg, w1, schedule[1..]);
      InOrderTogether(cfg, Canon(w), CommitsOf(cfg, w, schedule[0]), History(cfg, w1, schedule[1..]));
    }
  }

  lemma InOrderNothing(cfg: Config, m: Dual)
    requires LegalRun(cfg, m, [])
    ensures InReferenceOrder(cfg, m, [])
  {
  }

  /** The driver is deterministic up to harmful races: without one, what it has committed is a prefix of the
      reference run and it is still on the way to the same end; with one, the trace is not such a prefix. */
  lemma DeterministicWithoutRaces(cfg: Config, w: World, schedule: seq<Thread>)
    requires Inv(cfg, w)
    ensures CanonOk(w) && CanonOk(Run(cfg, w, schedule)) && DualOk(cfg, Canon(w)) && DualOk(cfg, Canon(Run(cfg, w, schedule)))
    ensures RaceFree(cfg, w, schedule) ==>
      && Run(cfg, w, schedule).bus.trace.events <= Finish(cfg, Canon(w)).bus.trace.events
      && Finish(cfg, Canon(Run(cfg, w, schedule))) == Finish(cfg, Canon(w))
    ensures cfg.latency.tieTurnaround >= 1 && Run(cfg, w, schedule).bus.trace.events <= Finish(cfg, Canon(w)).bus.trace.events ==>
      RaceFree(cfg, w, schedule)
  {
    hide Inv, CanonSide, Finish, Replay, LegalRun, Possible, HarmfulRace, InReferenceOrder, History, Run, RaceFree, DualOk;
    InvFacts(cfg, w);
    InvFacts(cfg, Run(cfg, w, schedule));
    RunReplays(cfg, w, schedule);
    FollowsReference(cfg, w, schedule);
    var choices := History(cfg, w, schedule);
    if RaceFree(cfg, w, schedule) {
      ReferencePrefix(cfg, Canon(w), choices);
    } else if cfg.latency.tieTurnaround >= 1 {
      DeviationShows(cfg, Canon(w), choices);
    }
  }

  // ----- two conditions under which no schedule races -----

  /** In the whole reference run the two pending operations never ask for the same tick. */
  ghost predicate TieFree(cfg: Config, m: Dual)
    requires DualOk(cfg, m)
    decreases Unfinished(m.side0) + Unfinished(m.side1)
  {
    && !Tied(m)
    && (Next(cfg, m).Some? ==>
         (NextIsPossible(cfg, m); StepFacts(cfg, m, Next(cfg, m).value); TieFree(cfg, Step(cfg, m, Next(cfg, m).value))))
  }

  lemma RaceIsTie(cfg: Config, w: World)
    requires Inv(cfg, w) && HarmfulRace(cfg, w) && CanonOk(w)
    ensures Tied(Canon(w))
  {
    hide DualOk, LaneOk, CanonSide;
    CommitIsHonest(cfg, w);
    var i := if Race(cfg, w, 0) then 0 else 1;
    RequestIsPending(w.At(1 - i), 1 - i, if i == 0 then w.progress.cpu1 else w.progress.cpu0);
  }

  lemma {:induction false} TieFreeOnTheWay(cfg: Config, m: Dual, choices: seq<Choice>)
    requires LegalRun(cfg, m, choices) && Possible(cfg, m, choices) && InReferenceOrder(cfg, m, choices)
    requires DualOk(cfg, m) && TieFree(cfg, m)
    ensures DualOk(cfg, Replay(cfg, m, choices)) && TieFree(cfg, Replay(cfg, m, choices))
    decreases |choices|
  {
    hide DualOk, Step, Next, Legal, Tied;
    if choices != [] {
      LegalIsPossible(cfg, Step(cfg, m, choices[0]), choices[1..]);
      TieFreeOnTheWay(cfg, Step(cfg, m, choices[0]), choices[1..]);
    }
  }

  /** If the reference run has no ties, every schedule follows it. */
  lemma {:induction false} TieFreeNeverRaces(cfg: Config, w: World, schedule: seq<Thread>)
    requires Inv(cfg, w) && CanonOk(w) && DualOk(cfg, Canon(w)) && TieFree(cfg, Canon(w))
    ensures RaceFree(cfg, w, schedule)
    decreases |schedule|
  {
    hide Inv, Canon, Act, CommitsOf, Replay, LegalRun, Possible, HarmfulRace, InReferenceOrder;
    if schedule != [] {
      ActKeeps(cfg, w, schedule[0]);
      ActInOrder(cfg, w, schedule[0]);
      if HarmfulRace(cfg, w) {
        RaceIsTie(cfg, w);
      }
      TieFreeOnTheWay(cfg, Canon(w), CommitsOf(cfg, w, schedule[0]));
      TieFreeNeverRaces(cfg, Act(cfg, w, schedule[0]), schedule[1..]);
    }
  }

  /** The coordinator has in hand every operation whose mark it has read. */
  predicate HandFollowsMark(w: World) {
    && (w.lane0.held.None? && w.lane0.req != [] && w.progress.cpu0.Some? ==> w.progress.cpu0.value <= w.lane0.req[0].op.reqTime)
    && (w.lane1.held.None? && w.lane1.req != [] && w.progress.cpu1.Some? ==> w.progress.cpu1.value <= w.lane1.req[0].op.reqTime)
  }

  ghost predicate HandsFollowMarks(cfg: Config, w: World, schedule: seq<Thread>)
    requires Inv(cfg, w)
    decreases |schedule|
  {
    schedule != [] ==>
      && (schedule[0] == Coordinator && w.coord.at == Commit ==> HandFollowsMark(w))
      && (ActKeeps(cfg, w, schedule[0]); HandsFollowMarks(cfg, Act(cfg, w, schedule[0]), schedule[1..]))
  }

  lemma MarkInHandNoRace(cfg: Config, w: World)
    requires Inv(cfg, w) && HandFollowsMark(w)
    ensures !HarmfulRace(cfg, w)
  {
    hide DualOk, LaneOk, CanonSide;
    PublishedIsHonestIn(cfg, w);
    if Race(cfg, w, 0) {
      ClaimedIsBelow(w.progress, w.lane0.held);
    }
    if Race(cfg, w, 1) {
      ClaimedIsBelow(w.progress, w.lane1.held);
    }
  }

  lemma PublishedIsHonestIn(cfg: Config, w: World)
    requires Inv(cfg, w)
    ensures w.progress.enabled && w.progress.cpu0.Some? && w.progress.cpu1.Some?
  {
    hide DualOk, CanonSide, CpuOk, OpMatches;
  }

  /** If the coordinator holds an operation whenever it has read its mark, the schedule follows the reference. */
  lemma {:induction false} HeldInTimeNeverRaces(cfg: Config, w: World, schedule: seq<Thread>)
    requires Inv(cfg, w) && HandsFollowMarks(cfg, w, schedule)
    ensures RaceFree(cfg, w, schedule)
    decreases |schedule|
  {
    hide Inv, Act, HandFollowsMark;
    if schedule != [] {
      ActKeeps(cfg, w, schedule[0]);
      if schedule[0] == Coordinator && w.coord.at == Commit {
        MarkInHandNoRace(cfg, w);
      }
      HeldInTimeNeverRaces(cfg, Act(cfg, w, schedule[0]), schedule[1..]);
    }
  }
}
