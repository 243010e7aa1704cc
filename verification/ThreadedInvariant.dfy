/** What every step of the multithreaded driver keeps, and what it means for the two CPUs and the bus. */
module ThreadedInvariant {
  import opened Prelude
  import opened Bus
  import opened ScriptedCpus
  import opened DualMachine
  import opened DualBatch
  import opened ThreadedDriver

  // ----- producer steps -----

  lemma TopKeepsLane(l: Lane, epoch: nat, i: nat, mark: Option<Tick>)
    requires LaneOk(l, i, mark) && l.at == Top && l.cpu.Valid()
    ensures var r := ProducerStep(l, epoch).lane;
            LaneOk(r, i, mark) && r.cpu.Valid() && CanonSide(r) == CanonSide(l)
  {
    hide RunAhead, CpuOk, OpMatches;
    RunAheadFacts(l.cpu, i);
    CpuOkValid(Settled(l.cpu).cpu, i);
  }

  lemma PopRespKeepsLane(l: Lane, epoch: nat, i: nat, mark: Option<Tick>)
    requires LaneOk(l, i, mark) && l.at == PopResp && l.cpu.Valid() && Runnable(l)
    ensures var r := ProducerStep(l, epoch).lane;
            LaneOk(r, i, mark) && r.cpu.Valid() && ComingFits(r) && ComingFits(l) && CanonSide(r) == CanonSide(l)
  {
    hide RunAhead, Answered, CpuOk, OpMatches;
    LaneFacts(l, i, mark);
    if l.resp != [] {
      var r := l.resp[0];
      ApplyFacts(l.cpu, i, r.scriptIndex, r.response, r.token);
    }
  }

  lemma OtherKeepsLane(l: Lane, epoch: nat, i: nat, mark: Option<Tick>)
    requires LaneOk(l, i, mark) && l.at != Top && l.at != PopResp && l.cpu.Valid() && Runnable(l)
    ensures var r := ProducerStep(l, epoch).lane;
            LaneOk(r, i, mark) && r.cpu == l.cpu && ComingFits(r) && ComingFits(l) && CanonSide(r) == CanonSide(l)
  {
    hide RunAhead, Answered, CpuOk, OpMatches;
    LaneFacts(l, i, mark);
  }

  /** No producer step changes what its lane amounts to. */
  lemma ProducerKeepsLane(l: Lane, epoch: nat, i: nat, mark: Option<Tick>)
    requires LaneOk(l, i, mark) && l.cpu.Valid() && Runnable(l) && ComingFits(l)
    ensures var r := ProducerStep(l, epoch).lane;
            && LaneOk(r, i, mark) && r.cpu.Valid() && ComingFits(r) && CanonSide(r) == CanonSide(l)
            && r.held == l.held && r.reply == l.reply && (l.done ==> r.done)
  {
    hide RunAhead, Answered, LaneOk, CanonSide;
    if l.at == Top {
      TopKeepsLane(l, epoch, i, mark);
    } else if l.at == PopResp {
      PopRespKeepsLane(l, epoch, i, mark);
    } else {
      OtherKeepsLane(l, epoch, i, mark);
    }
    var r := ProducerStep(l, epoch).lane;
    LaneFacts(r, i, mark);
  }

  // ----- coordinator steps -----

  /** The watermark the coordinator knows never runs ahead of what the lane still has to ask for. */
  lemma PublishedIsHonest(l: Lane, i: nat, mark: Option<Tick>)
    requires LaneOk(l, i, mark) && l.cpu.Valid() && ComingFits(l)
    ensures mark.Some? && mark.value <= MarkOf(CanonSide(l))
    ensures Published(l) <= MarkOf(CanonSide(l))
  {
    hide RunAhead, Answered, CpuOk, OpMatches;
    LaneFacts(l, i, mark);
    var r := Coming(l);
    if r.Some? {
      ApplyFacts(l.cpu, i, r.value.scriptIndex, r.value.response, r.value.token);
      ClockIsMark(Answered(l.cpu, r.value.scriptIndex, r.value.response, r.value.token), i);
    } else if l.waiting.None? {
      ClockIsMark(l.cpu, i);
    }
  }

  lemma ClockIsMark(c: Cpu, i: nat)
    requires CpuOk(c, i)
    ensures c.time <= MarkOf(Settled(c))
  {
    hide RunAhead, CpuOk, OpMatches;
    CpuOkValid(c, i);
    RunAheadFacts(c, i);
    if Settled(c).op.Some? {
      OpMatchesFacts(Settled(c).cpu, Settled(c).op.value, i);
    }
  }

  lemma TakenRequestKeepsLane(l: Lane, i: nat, mark: Option<Tick>)
    requires LaneOk(l, i, mark) && l.cpu.Valid() && ComingFits(l) && l.held.None? && l.req != []
    ensures var r := l.(held := Some(l.req[0]), req := l.req[1..]);
            LaneOk(r, i, mark) && ComingFits(r) && CanonSide(r) == CanonSide(l)
  {
    hide RunAhead, Answered, CpuOk, OpMatches;
  }

  lemma TakenMarkKeepsLane(l: Lane, i: nat, mark: Option<Tick>)
    requires LaneOk(l, i, mark) && l.cpu.Valid() && ComingFits(l) && l.marks != []
    ensures var r := l.(marks := l.marks[1..]);
            LaneOk(r, i, Advanced(mark, l.marks[0])) && ComingFits(r) && CanonSide(r) == CanonSide(l)
  {
    hide RunAhead, Answered, CpuOk, OpMatches;
  }

  lemma PushedReplyKeepsLane(l: Lane, i: nat, mark: Option<Tick>)
    requires LaneOk(l, i, mark) && l.cpu.Valid() && ComingFits(l) && l.reply.Some?
    ensures var r := l.(resp := l.resp + [l.reply.value], held := None, reply := None);
            LaneOk(r, i, mark) && ComingFits(r) && CanonSide(r) == CanonSide(l)
  {
    hide RunAhead, Answered, CpuOk, OpMatches;
  }

  /** What the coordinator holds without having answered it is what the lane is stopped at. */
  lemma ClaimedIsBelow(p: Progress, h: Option<PendingOp>)
    requires p.enabled && Claimed(p, h) && p.cpu0.Some? && p.cpu1.Some?
    ensures h.value.op.reqTime < p.cpu0.value && h.value.op.reqTime < p.cpu1.value
  {
  }

  lemma HeldIsPending(l: Lane, i: nat, mark: Option<Tick>)
    requires LaneOk(l, i, mark) && l.cpu.Valid() && ComingFits(l) && l.reply.None? && l.held.Some?
    ensures CanonSide(l) == Side(l.cpu, l.held) && l.held == l.waiting
  {
  }

  lemma AnsweredKeepsLane(l: Lane, i: nat, mark: Option<Tick>, h0: Option<PendingOp>, after: Side, results: seq<CommitResult>)
    requires LaneOk(l, i, mark) && l.cpu.Valid() && ComingFits(l) && l.reply.None?
    requires AnsweredIn(CanonSide(l), after, results, ReplyPosition(h0, results, i))
    requires ReplyPosition(h0, results, i) < |results| ==> l.held.Some? && mark.Some? && l.held.value.op.reqTime < mark.value
    ensures var r := l.(reply := ReplyTo(h0, l.held, results, i));
            && LaneOk(r, i, mark) && ComingFits(r) && CanonSide(r) == after
            && (r.reply.Some? <==> ReplyPosition(h0, results, i) < |results|)
  {
    hide RunAhead, Answered, CpuOk, OpMatches, FillMismatch;
    LaneFacts(l, i, mark);
    if l.held.Some? {
      HeldIsPending(l, i, mark);
    }
  }

  ghost predicate CanonOk(w: World) {
    w.lane0.cpu.Valid() && ComingFits(w.lane0) && w.lane1.cpu.Valid() && ComingFits(w.lane1)
  }

  /** The commits a coordinator step makes: none, unless it stands at the commit with something in hand. */
  ghost function CommitsOf(cfg: Config, w: World, who: Thread): seq<Choice>
    requires Inv(cfg, w)
  {
    if who != Coordinator || w.coord.at != Commit then []
    else
      InvFacts(cfg, w);
      CommitIsHonest(cfg, w);
      BatchChoices(cfg, Canon(w), Claimed(w.progress, w.lane0.held), Claimed(w.progress, w.lane1.held))
  }

  lemma CommitIsHonest(cfg: Config, w: World)
    requires Inv(cfg, w) && w.coord.at != PushResp
    ensures w.lane0.cpu.Valid() && ComingFits(w.lane0) && w.lane1.cpu.Valid() && ComingFits(w.lane1)
    ensures Honest(cfg, Canon(w), w.lane0.held, w.lane1.held, w.progress)
    ensures w.lane0.reply.None? && w.lane1.reply.None?
  {
    hide LaneOk, DualOk, CanonSide, MarkOf;
    InvFacts(cfg, w);
    PublishedIsHonest(w.lane0, 0, w.progress.cpu0);
    PublishedIsHonest(w.lane1, 1, w.progress.cpu1);
    if w.lane0.held.Some? {
      HeldIsPending(w.lane0, 0, w.progress.cpu0);
    }
    if w.lane1.held.Some? {
      HeldIsPending(w.lane1, 1, w.progress.cpu1);
    }
  }

  lemma OwnersAreAnswered(choices: seq<Choice>, h0: Option<PendingOp>, results: seq<CommitResult>)
    requires |results| == |choices| && OnePerCpu(choices)
    requires forall k :: 0 <= k < |results| ==> OwnerOf(h0, results[k].inputIndex) == choices[k].cpu < 2
    ensures var owners := Owners(h0, results);
            && (forall k :: 0 <= k < |owners| ==> owners[k] < 2)
            && |owners| <= 2 && (|owners| == 2 ==> owners[0] != owners[1])
            && (0 in owners <==> ReplyPosition(h0, results, 0) < |results|)
            && (1 in owners <==> ReplyPosition(h0, results, 1) < |results|)
  {
    hide OwnerOf;
    var owners := Owners(h0, results);
    assert forall k :: 0 <= k < |owners| ==> owners[k] == choices[k].cpu;
  }

  /** Only a CPU whose held operation is below the horizon is answered. */
  lemma AnsweredWasClaimed(cfg: Config, w: World, results: seq<CommitResult>, i: nat)
    requires Inv(cfg, w) && w.coord.at == Commit && i < 2
    requires var choices, pos := CommitsOf(cfg, w, Coordinator), ReplyPosition(w.lane0.held, results, i);
             pos < |results| ==> |results| == |choices| && choices[pos].cpu == i
    ensures var l := w.At(i); var mark := if i == 0 then w.progress.cpu0 else w.progress.cpu1;
            ReplyPosition(w.lane0.held, results, i) < |results| ==> l.held.Some? && mark.Some? && l.held.value.op.reqTime < mark.value
  {
    hide LaneOk, DualOk, CanonSide, BatchChoices, NotAhead, ReplyPosition;
    InvFacts(cfg, w);
    CommitIsHonest(cfg, w);
    PublishedIsHonest(w.lane0, 0, w.progress.cpu0);
    PublishedIsHonest(w.lane1, 1, w.progress.cpu1);
    ChoicesAreClaims(cfg, Canon(w), Claimed(w.progress, w.lane0.held), Claimed(w.progress, w.lane1.held));
    var pos := ReplyPosition(w.lane0.held, results, i);
    if pos < |results| {
      assert CommitsOf(cfg, w, Coordinator)[pos].cpu == i;
      ClaimedIsBelow(w.progress, w.At(i).held);
    }
  }

  /** A batch leaves each lane either answered, and amounting to the replayed side, or as it was. */
  lemma BatchKeepsLanes(cfg: Config, w: World)
    requires Inv(cfg, w) && w.coord.at == Commit
    requires w.lane0.held.Some? || w.lane1.held.Some?
    ensures CanonOk(w) && Possible(cfg, Canon(w), CommitsOf(cfg, w, Coordinator))
    ensures var h0, h1, after := w.lane0.held, w.lane1.held, Replay(cfg, Canon(w), CommitsOf(cfg, w, Coordinator));
            var batch := CommitBatch(cfg, w.bus, w.progress, Offer(h0, h1));
            var l0, l1 := w.lane0.(reply := ReplyTo(h0, h0, batch.results, 0)), w.lane1.(reply := ReplyTo(h0, h1, batch.results, 1));
            var owners := Owners(h0, batch.results);
            && LaneOk(l0, 0, w.progress.cpu0) && LaneOk(l1, 1, w.progress.cpu1) && ComingFits(l0) && ComingFits(l1)
            && CanonSide(l0) == after.side0 && CanonSide(l1) == after.side1 && Core(batch.bus) == after.bus
            && (forall k :: 0 <= k < |owners| ==> owners[k] < 2)
            && |owners| <= 2 && (|owners| == 2 ==> owners[0] != owners[1])
            && (0 in owners <==> l0.reply.Some?) && (1 in owners <==> l1.reply.Some?)
  {
    hide LaneOk, DualOk, CanonSide, CommitBatch, BatchChoices, Answers, AnsweredIn, ReplyTo, ReplyPosition, LegalRun, Possible, Replay, NotAhead, Offer, OwnerOf, Committable, Owners;
    InvFacts(cfg, w);
    CommitIsHonest(cfg, w);
    var h0, h1, p, m := w.lane0.held, w.lane1.held, w.progress, Canon(w);
    var choices := CommitsOf(cfg, w, Coordinator);
    BatchIsLegal(cfg, m, h0, h1, p);
    BatchReplays(cfg, w.bus, m, h0, h1, p);
    var results := CommitBatch(cfg, w.bus, p, Offer(h0, h1)).results;
    AnswersReach(cfg, m, choices, h0, |Offer(h0, h1)|, results);
    AnswersCount(cfg, m, choices, h0, |Offer(h0, h1)|, results);
    var after := Replay(cfg, m, choices);
    OwnersAreAnswered(choices, h0, results);
    AnsweredWasClaimed(cfg, w, results, 0);
    AnsweredWasClaimed(cfg, w, results, 1);
    assert AnsweredIn(m.At(0), after.At(0), results, ReplyPosition(h0, results, 0));
    assert AnsweredIn(m.At(1), after.At(1), results, ReplyPosition(h0, results, 1));
    AnsweredKeepsLane(w.lane0, 0, p.cpu0, h0, after.side0, results);
    AnsweredKeepsLane(w.lane1, 1, p.cpu1, h0, after.side1, results);
  }

  /** A commit step carries out its commits, one after the other, on what the machine amounts to. */
  lemma CommitStep(cfg: Config, w: World)
    requires Inv(cfg, w) && w.coord.at == Commit
    ensures var r := CommitHeld(cfg, w); var choices := CommitsOf(cfg, w, Coordinator);
            && Inv(cfg, r) && CanonOk(r) && CanonOk(w)
            && LegalRun(cfg, Canon(w), choices) && Possible(cfg, Canon(w), choices)
            && Canon(r) == Replay(cfg, Canon(w), choices)
  {
    hide LaneOk, DualOk, CanonSide, CommitBatch, BatchChoices, ReplyTo, LegalRun, Possible, Replay, NotAhead, Offer, Owners, Committable;
    InvFacts(cfg, w);
    CommitIsHonest(cfg, w);
    var h0, h1, p, m := w.lane0.held, w.lane1.held, w.progress, Canon(w);
    var choices := CommitsOf(cfg, w, Coordinator);
    BatchIsLegal(cfg, m, h0, h1, p);
    if h0.None? && h1.None? {
      NothingReplays(cfg, m, h0, 0);
      ChoicesAreClaims(cfg, m, Claimed(p, h0), Claimed(p, h1));
      assert choices == [];
    } else {
      BatchKeepsLanes(cfg, w);
      ReplayOk(cfg, m, choices);
      var r := CommitHeld(cfg, w);
      LaneFacts(r.lane0, 0, p.cpu0);
      LaneFacts(r.lane1, 1, p.cpu1);
    }
  }

  lemma PopStep(cfg: Config, w: World)
    requires Inv(cfg, w) && (w.coord.at.PopReq? || w.coord.at.PopMarks?) && CoordReady(w)
    ensures var r := CoordStep(cfg, w); Inv(cfg, r) && CanonOk(w) && CanonOk(r) && Canon(r) == Canon(w)
  {
    hide LaneOk, DualOk, CanonSide, CommitBatch, CommitHeld, Answer, LookAtPeers, EndTurn;
    InvFacts(cfg, w);
    var i := w.coord.at.i;
    var l := w.At(i);
    if w.coord.at.PopReq? {
      if l.held.None? && l.req != [] {
        TakenRequestKeepsLane(l, if i == 0 then 0 else 1, if i == 0 then w.progress.cpu0 else w.progress.cpu1);
      }
    } else if l.marks != [] {
      TakenMarkKeepsLane(l, if i == 0 then 0 else 1, if i == 0 then w.progress.cpu0 else w.progress.cpu1);
    }
  }

  lemma QuietCoordStep(cfg: Config, w: World)
    requires Inv(cfg, w) && w.coord.at != Commit && CoordReady(w)
    ensures var r := CoordStep(cfg, w); Inv(cfg, r) && CanonOk(w) && CanonOk(r) && Canon(r) == Canon(w)
  {
    hide LaneOk, DualOk, CanonSide, CommitHeld, TakeRequest, TakeMark;
    InvFacts(cfg, w);
    match w.coord.at
    case PopReq(_) => PopStep(cfg, w);
    case PopMarks(_) => PopStep(cfg, w);
    case PushResp =>
      var i := w.coord.answers[0];
      PushedReplyKeepsLane(w.At(i), i, if i == 0 then w.progress.cpu0 else w.progress.cpu1);
    case _ =>
  }

  /** Every step of every thread keeps the invariant and carries out exactly its commits on what the machine amounts to. */
  lemma ActKeeps(cfg: Config, w: World, who: Thread)
    requires Inv(cfg, w)
    ensures CanonOk(w) && CoordReady(w) && Runnable(w.lane0) && Runnable(w.lane1)
    ensures var r := Act(cfg, w, who); var choices := CommitsOf(cfg, w, who);
            && Inv(cfg, r) && CanonOk(r)
            && LegalRun(cfg, Canon(w), choices) && Possible(cfg, Canon(w), choices)
            && Canon(r) == Replay(cfg, Canon(w), choices)
  {
    hide LaneOk, DualOk, CanonSide, CommitHeld, ProducerStep, BatchChoices;
    InvFacts(cfg, w);
    match who
    case Producer0 =>
      ProducerKeepsLane(w.lane0, w.epoch, 0, w.progress.cpu0);
      NothingReplays(cfg, Canon(w), None, 0);
    case Producer1 =>
      ProducerKeepsLane(w.lane1, w.epoch, 1, w.progress.cpu1);
      NothingReplays(cfg, Canon(w), None, 0);
    case Coordinator =>
      if w.coord.at == Commit {
        CommitStep(cfg, w);
      } else {
        QuietCoordStep(cfg, w);
        NothingReplays(cfg, Canon(w), None, 0);
      }
  }

  // ----- whole runs -----

  /** The machine after the threads have been scheduled in the given order. */
  ghost function Run(cfg: Config, w: World, schedule: seq<Thread>): (r: World)
    requires Inv(cfg, w)
    ensures Inv(cfg, r)
    decreases |schedule|
  {
    if schedule == [] then w
    else
      ActKeeps(cfg, w, schedule[0]);
      Run(cfg, Act(cfg, w, schedule[0]), schedule[1..])
  }

  /** The commits made along a schedule, in order. */
  ghost function History(cfg: Config, w: World, schedule: seq<Thread>): seq<Choice>
    requires Inv(cfg, w)
    decreases |schedule|
  {
    if schedule == [] then []
    else
      ActKeeps(cfg, w, schedule[0]);
      CommitsOf(cfg, w, schedule[0]) + History(cfg, Act(cfg, w, schedule[0]), schedule[1..])
  }

  /** However the threads are scheduled, the machine amounts to the dual machine after a legal run of single commits. */
  lemma {:induction false} RunReplays(cfg: Config, w: World, schedule: seq<Thread>)
    requires Inv(cfg, w)
    ensures CanonOk(w) && CanonOk(Run(cfg, w, schedule))
    ensures var choices := History(cfg, w, schedule);
            && LegalRun(cfg, Canon(w), choices) && Possible(cfg, Canon(w), choices)
            && Canon(Run(cfg, w, schedule)) == Replay(cfg, Canon(w), choices)
    decreases |schedule|
  {
    hide Inv, Canon, Act, CommitsOf, Replay, LegalRun, Possible;
    if schedule == [] {
      InvFacts(cfg, w);
      CanonReady(cfg, w);
      NothingReplays(cfg, Canon(w), None, 0);
      NothingLegal(cfg, Canon(w));
    } else {
      ActKeeps(cfg, w, schedule[0]);
      var w1 := Act(cfg, w, schedule[0]);
      RunReplays(cfg, w1, schedule[1..]);
      ReplayTogether(cfg, Canon(w), CommitsOf(cfg, w, schedule[0]), History(cfg, w1, schedule[1..]));
    }
  }

  lemma CanonReady(cfg: Config, w: World)
    requires Inv(cfg, w)
    ensures CanonOk(w)
  {
    hide LaneOk, DualOk;
    InvFacts(cfg, w);
  }

  lemma NothingLegal(cfg: Config, m: Dual)
    requires DualOk(cfg, m)
    ensures LegalRun(cfg, m, [])
  {
  }

  /** The machine starts in the invariant, and amounts to both CPUs run ahead to their first operation. */
  lemma StartOk(cfg: Config, c0: Cpu, c1: Cpu, b: BusState, p: Progress)
    requires CpuOk(c0, 0) && CpuOk(c1, 1) && DualOk(cfg, Dual(Settled(c0), Settled(c1), Core(b)))
    requires p.cpu0.Some? ==> p.cpu0.value <= c0.time
    requires p.cpu1.Some? ==> p.cpu1.value <= c1.time
    ensures var w := Start(c0, c1, b, p);
            Inv(cfg, w) && CanonOk(w) && Canon(w) == Dual(Settled(c0), Settled(c1), Core(b))
  {
    hide RunAhead, CpuOk, OpMatches, DualOk;
    CpuOkValid(c0, 0);
    CpuOkValid(c1, 1);
    LaneFacts(StartLane(c0), 0, Start(c0, c1, b, p).progress.cpu0);
    LaneFacts(StartLane(c1), 1, Start(c0, c1, b, p).progress.cpu1);
  }
}
