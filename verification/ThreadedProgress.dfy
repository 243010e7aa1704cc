/** Every fair schedule of the multithreaded driver carries the reference through to its end. */
module ThreadedProgress {
  import opened Prelude
  import opened Bus
  import opened ScriptedCpus
  import opened DualMachine
  import opened DualBatch
  import opened ThreadedDriver
  import opened ThreadedInvariant
  import opened ThreadedWakeups

  // ----- how far each thread is from its next rest -----

  /** The producer can do nothing more until it is answered, or has finished. */
  predicate Parked(l: Lane) {
    l.at == Finished || ((l.at == PopResp || l.at == Waiting) && Asked(l))
  }

  function ToPark(l: Lane): nat {
    match l.at
    case Top => 4
    case PushReq => 3
    case PushMark => 2
    case NotifyReq => if Asked(l) then 1 else 8
    case PopResp => if Asked(l) then 0 else if l.resp != [] then 7 else 8
    case Waiting => if Asked(l) then 0 else 8
    case PushApplied => 6
    case NotifyApplied => 5
    case PushFinal => 3
    case StoreDone => 2
    case NotifyDone => 1
    case Finished => 0
  }

  /** Steps the coordinator still owes to the batch it has committed. */
  function ToReply(c: Coord): nat {
    match c.at
    case PushResp => |c.answers| + 1
    case NotifyResp => 1
    case _ => 0
  }

  predicate Unread(l: Lane, at: Post, i: nat) {
    (PassedReq(at, i) && l.req != [] && l.held.None?) || (PassedMarks(at, i) && l.marks != [])
  }

  /** Steps to the next commit if nothing has been passed over, with one more turn if something has. */
  function ToCommit(w: World): nat {
    var missed := Unread(w.lane0, w.coord.at, 0) || Unread(w.lane1, w.coord.at, 1);
    |w.lane0.marks| + |w.lane1.marks| +
    match w.coord.at
    case PopReq(i) => if i == 0 then 6 else if missed then 15 else 5
    case PopMarks(i) => if i == 0 then (if missed then 14 else 4) else if missed then 13 else 3
    case LoadPeer => if missed then 12 else 2
    case Commit => if missed then 11 else 1
    case LoadDone(i) => if i == 0 then 9 else 8
    case Asleep => 7
    case _ => 0
  }

  function ToExit(w: World): nat {
    |w.lane0.marks| + |w.lane1.marks| +
    match w.coord.at
    case PopReq(i) => if i == 0 then 9 else 8
    case PopMarks(i) => if i == 0 then 7 else 6
    case LoadPeer => 5
    case Commit => 4
    case LoadDone(i) => if i == 0 then 2 else 1
    case Asleep => 10
    case _ => 0
  }

  predicate AllFinished(w: World) {
    w.lane0.at == Finished && w.lane1.at == Finished
  }

  datatype Rank = Rank(work: nat, replies: nat, parking: nat, turn: nat)

  predicate Lower(a: Rank, b: Rank) {
    a.work < b.work || (a.work == b.work &&
      (a.replies < b.replies || (a.replies == b.replies &&
        (a.parking < b.parking || (a.parking == b.parking && a.turn < b.turn)))))
  }

  ghost function RankOf(w: World): Rank
    requires CanonOk(w)
  {
    var m, replies, parking := Canon(w), ToReply(w.coord), ToPark(w.lane0) + ToPark(w.lane1);
    Rank(Unfinished(m.side0) + Unfinished(m.side1), replies, parking,
         if replies > 0 || parking > 0 then 0 else if AllFinished(w) then ToExit(w) else ToCommit(w))
  }

  /** The thread whose next step takes the machine forward. */
  function Helpful(w: World): Thread {
    if Replying(w.coord.at) then Coordinator
    else if !Parked(w.lane0) then Producer0
    else if !Parked(w.lane1) then Producer1
    else Coordinator
  }

  /** Everything the reference commits has been committed, and if that is everything, all threads have ended. */
  ghost predicate Complete(cfg: Config, w: World)
    requires CanonOk(w)
  {
    && Next(cfg, Canon(w)).None?
    && (Canon(w).side0.op.None? && Canon(w).side1.op.None? ==> w.coord.at == Exited && AllFinished(w))
  }

  // ----- producers -----

  lemma ParkedIsZero(l: Lane)
    requires Placed(l)
    ensures Parked(l) <==> ToPark(l) == 0
  {
  }

  lemma ProducerParks(l: Lane, i: nat, mark: Option<Tick>, coord: Coord, epoch: nat)
    requires Shaped(l, mark) && l.cpu.Valid() && Runnable(l) && LaneAwake(l, i, mark, coord, epoch)
    ensures var r := ProducerStep(l, epoch).lane;
            && ToPark(r) <= ToPark(l)
            && (!Parked(l) && !Replying(coord.at) && l.reply.None? ==> ToPark(r) < ToPark(l))
            && (Parked(l) ==> r == l.(at := r.at, seen := r.seen) && (r.at == Finished <==> l.at == Finished))
  {
    hide RunAhead, Answered;
  }

  // ----- the coordinator -----

  /** When both producers are parked and the coordinator has not passed anything over, it knows both marks exactly. */
  lemma ParkedMarksExact(l: Lane, i: nat, mark: Option<Tick>, coord: Coord, epoch: nat)
    requires LaneOk(l, i, mark) && l.cpu.Valid() && ComingFits(l) && LaneAwake(l, i, mark, coord, epoch)
    requires Parked(l) && coord.at == Commit && !Unread(l, coord.at, i)
    ensures mark == Some(MarkOf(CanonSide(l))) && l.held == CanonSide(l).op
  {
    hide RunAhead, Answered, CpuOk;
    LaneFacts(l, i, mark);
    if l.at == Finished {
      DoneSettles(l.cpu);
    }
  }

  lemma DoneSettles(c: Cpu)
    requires c.Valid() && c.Done()
    ensures Settled(c) == Side(c, None)
  {
  }

  lemma ExactMarksCommit(cfg: Config, m: Dual, p: Progress)
    requires p == Progress(true, Some(MarkOf(m.side0)), Some(MarkOf(m.side1))) && Next(cfg, m).Some?
    ensures Claimed(p, m.side0.op) || Claimed(p, m.side1.op)
  {
  }

  lemma ParkedCommitSucceeds(cfg: Config, w: World)
    requires Inv(cfg, w) && Awake(w) && CanonOk(w) && w.coord.at == Commit && Parked(w.lane0) && Parked(w.lane1)
    requires !Unread(w.lane0, Commit, 0) && !Unread(w.lane1, Commit, 1) && Next(cfg, Canon(w)).Some?
    ensures CommitsOf(cfg, w, Coordinator) != []
  {
    hide LaneOk, DualOk, CanonSide, MarkOf, Next, NotAhead, Parked, Unread, LaneAwake, FlagsOk;
    CommitIsHonest(cfg, w);
    ParkedMarksExact(w.lane0, 0, w.progress.cpu0, w.coord, w.epoch);
    ParkedMarksExact(w.lane1, 1, w.progress.cpu1, w.coord, w.epoch);
    ExactMarksCommit(cfg, Canon(w), w.progress);
    ChoicesAreClaims(cfg, Canon(w), Claimed(w.progress, w.lane0.held), Claimed(w.progress, w.lane1.held));
  }

  /** The coordinator never sleeps through the last notify of two parked producers. */
  lemma ParkedNeverAsleep(cfg: Config, w: World)
    requires Inv(cfg, w) && Awake(w) && Parked(w.lane0) && Parked(w.lane1) && w.coord.at == Asleep
    ensures w.coord.seen != w.epoch
  {
    hide Inv, MarksOk;
    InvShape(cfg, w);
  }

  lemma ExitedIsComplete(cfg: Config, w: World)
    requires Inv(cfg, w) && CanonOk(w) && Parked(w.lane0) && Parked(w.lane1) && w.coord.at == Exited
    ensures Complete(cfg, w)
  {
    hide Inv, MarksOk, RunAhead, Answered;
    InvShape(cfg, w);
    FinishedSides(cfg, w);
  }

  lemma FinishedSides(cfg: Config, w: World)
    requires Inv(cfg, w) && CanonOk(w)
    ensures w.lane0.at == Finished ==> CanonSide(w.lane0) == Side(w.lane0.cpu, None)
    ensures w.lane1.at == Finished ==> CanonSide(w.lane1) == Side(w.lane1.cpu, None)
  {
    hide RunAhead, Answered, CpuOk, DualOk;
    if w.lane0.at == Finished {
      DoneSettles(w.lane0.cpu);
    }
    if w.lane1.at == Finished {
      DoneSettles(w.lane1.cpu);
    }
  }

  // ----- every step keeps or lowers the rank -----

  /** The rank has fallen, or it is unchanged, the step was not the helpful one and the helpful thread is the same. */
  ghost predicate Nearer(w: World, r: World, who: Thread)
    requires CanonOk(w) && CanonOk(r)
  {
    || Lower(RankOf(r), RankOf(w))
    || (RankOf(r) == RankOf(w) && who != Helpful(w) && Helpful(r) == Helpful(w))
  }

  lemma SameTurn(w: World, r: World)
    requires r.coord == w.coord
    requires r.lane0 == w.lane0.(at := r.lane0.at, seen := r.lane0.seen) && (r.lane0.at == Finished <==> w.lane0.at == Finished)
    requires r.lane1 == w.lane1.(at := r.lane1.at, seen := r.lane1.seen) && (r.lane1.at == Finished <==> w.lane1.at == Finished)
    ensures ToCommit(r) == ToCommit(w) && ToExit(r) == ToExit(w) && AllFinished(r) == AllFinished(w)
  {
  }

  lemma ProducerNearer(cfg: Config, w: World, who: Thread)
    requires Inv(cfg, w) && Awake(w) && who != Coordinator
    ensures CanonOk(w) && CoordReady(w) && Runnable(w.lane0) && Runnable(w.lane1) && CanonOk(Act(cfg, w, who))
    ensures Nearer(w, Act(cfg, w, who), who)
  {
    hide Inv, Canon, ProducerStep, LaneAwake, FlagsOk, ToPark, Parked, ToCommit, ToExit, AllFinished, MarksOk, Placed;
    ActKeeps(cfg, w, who);
    InvShape(cfg, w);
    var r := Act(cfg, w, who);
    InvShape(cfg, r);
    NothingReplays(cfg, Canon(w), None, 0);
    assert Canon(r) == Canon(w);
    ParkedIsZero(w.lane0);
    ParkedIsZero(w.lane1);
    ParkedIsZero(r.lane0);
    ParkedIsZero(r.lane1);
    if who == Producer0 {
      ProducerParks(w.lane0, 0, w.progress.cpu0, w.coord, w.epoch);
    } else {
      ProducerParks(w.lane1, 1, w.progress.cpu1, w.coord, w.epoch);
    }
    if Parked(w.lane0) && Parked(w.lane1) {
      SameTurn(w, r);
    }
  }

  // ----- coordinator steps without a commit -----

  predicate Popping(at: Post) {
    at.PopReq? || at.PopMarks?
  }

  /** Away from the commit the coordinator changes nothing a producer waits for, except by replying. */
  ghost predicate KeepsParking(w: World, r: World) {
    && ToPark(r.lane0) <= ToPark(w.lane0) && ToPark(r.lane1) <= ToPark(w.lane1)
    && (Replying(w.coord.at) ==> ToReply(r.coord) < ToReply(w.coord))
    && (!Replying(w.coord.at) ==>
         && ToReply(r.coord) == ToReply(w.coord) == 0 && !Replying(r.coord.at)
         && ToPark(r.lane0) == ToPark(w.lane0) && ToPark(r.lane1) == ToPark(w.lane1)
         && r.lane0.at == w.lane0.at && r.lane1.at == w.lane1.at)
  }

  lemma TakenRequestParks(l: Lane)
    requires Placed(l) && l.held.None? && l.req != []
    ensures ToPark(l.(held := Some(l.req[0]), req := l.req[1..])) == ToPark(l)
  {
  }

  lemma PopParking(cfg: Config, w: World)
    requires Sound(w) && Popping(w.coord.at)
    ensures KeepsParking(w, CoordStep(cfg, w))
  {
    hide CommitHeld, MarksOk, CoordOk, Placed, ToPark;
    if w.coord.at.PopReq? && w.At(w.coord.at.i).held.None? && w.At(w.coord.at.i).req != [] {
      TakenRequestParks(w.At(w.coord.at.i));
    } else if w.coord.at.PopMarks? && w.At(w.coord.at.i).marks != [] {
      var l := w.At(w.coord.at.i);
      MarksDoNotPark(l, l.marks[1..]);
    }
  }

  lemma MarksDoNotPark(l: Lane, marks: seq<Tick>)
    ensures ToPark(l.(marks := marks)) == ToPark(l)
  {
  }

  lemma CoordParking(cfg: Config, w: World)
    requires Sound(w) && w.coord.at != Commit
    ensures KeepsParking(w, CoordStep(cfg, w))
  {
    hide CommitHeld, MarksOk, TakeRequest, TakeMark;
    if Popping(w.coord.at) {
      PopParking(cfg, w);
    }
  }

  ghost predicate TurnFalls(w: World, r: World) {
    if AllFinished(w) then ToExit(r) < ToExit(w) else ToCommit(r) < ToCommit(w)
  }

  lemma RequestTurn(w: World, i: nat)
    requires w.coord.at == PopReq(i) && Placed(w.lane0) && Placed(w.lane1)
    ensures TurnFalls(w, TakeRequest(w, i))
  {
    hide Shaped, CoordOk, Asked, AnswerComing;
    assert |w.At(i).req| <= 1 by { RequestsAtMostOne(w.lane0); RequestsAtMostOne(w.lane1); }
    hide Placed;
  }

  lemma RequestsAtMostOne(l: Lane)
    requires Placed(l)
    ensures |l.req| <= 1
  {
  }

  lemma MarkTurn(w: World, i: nat)
    requires w.coord.at == PopMarks(i)
    ensures TurnFalls(w, TakeMark(w, i))
  {
  }

  lemma PopTurn(cfg: Config, w: World)
    requires Sound(w) && Popping(w.coord.at) && Parked(w.lane0) && Parked(w.lane1)
    ensures TurnFalls(w, CoordStep(cfg, w))
  {
    hide CommitHeld, TakeRequest, TakeMark, TurnFalls, Parked, MarksOk;
    if w.coord.at.PopReq? {
      RequestTurn(w, w.coord.at.i);
    } else {
      MarkTurn(w, w.coord.at.i);
    }
  }

  lemma CoordTurn(cfg: Config, w: World)
    requires Sound(w) && w.coord.at != Commit && !Replying(w.coord.at) && w.coord.at != Exited
    requires Parked(w.lane0) && Parked(w.lane1)
    requires w.coord.at == Asleep ==> w.coord.seen != w.epoch
    ensures TurnFalls(w, CoordStep(cfg, w))
  {
    hide CommitHeld, MarksOk, TakeRequest, TakeMark;
    if Popping(w.coord.at) {
      PopTurn(cfg, w);
    }
  }

  lemma QuietCoordNearer(cfg: Config, w: World)
    requires Inv(cfg, w) && Awake(w) && CanonOk(w) && !Complete(cfg, w) && w.coord.at != Commit
    ensures CoordReady(w) && Runnable(w.lane0) && Runnable(w.lane1) && CanonOk(Act(cfg, w, Coordinator))
    ensures Nearer(w, Act(cfg, w, Coordinator), Coordinator)
  {
    hide Inv, Canon, CoordStep, LaneAwake, FlagsOk, ToPark, Parked, ToCommit, ToExit, MarksOk, Placed, Complete;
    ActKeeps(cfg, w, Coordinator);
    InvShape(cfg, w);
    var r := Act(cfg, w, Coordinator);
    InvShape(cfg, r);
    NothingReplays(cfg, Canon(w), None, 0);
    assert Canon(r) == Canon(w);
    ParkedIsZero(w.lane0);
    ParkedIsZero(w.lane1);
    ParkedIsZero(r.lane0);
    ParkedIsZero(r.lane1);
    CoordParking(cfg, w);
    if !Replying(w.coord.at) && Parked(w.lane0) && Parked(w.lane1) {
      if w.coord.at == Asleep {
        ParkedNeverAsleep(cfg, w);
      }
      if w.coord.at == Exited {
        ExitedIsComplete(cfg, w);
      }
      CoordTurn(cfg, w);
    }
  }

  // ----- the commit -----

  lemma {:induction false} ReplayLowers(cfg: Config, m: Dual, choices: seq<Choice>)
    requires Possible(cfg, m, choices)
    ensures var end := Replay(cfg, m, choices);
            Unfinished(end.side0) + Unfinished(end.side1) + |choices| <= Unfinished(m.side0) + Unfinished(m.side1)
    decreases |choices|
  {
    hide DualOk, Step, Unfinished;
    if choices != [] {
      StepFacts(cfg, m, choices[0]);
      ReplayLowers(cfg, Step(cfg, m, choices[0]), choices[1..]);
    }
  }

  lemma CommitNothing(cfg: Config, w: World)
    requires Inv(cfg, w) && w.coord.at == Commit && CommitsOf(cfg, w, Coordinator) == []
    ensures var r := CommitHeld(cfg, w);
            r.lane0 == w.lane0 && r.lane1 == w.lane1 && r.coord == w.coord.(at := LoadDone(0)) && r.epoch == w.epoch
  {
    hide DualOk, LaneOk, CanonSide, CommitBatch, BatchChoices, Claimed, NotAhead;
    InvFacts(cfg, w);
    CommitIsHonest(cfg, w);
    var h0, h1 := w.lane0.held, w.lane1.held;
    if h0.Some? || h1.Some? {
      BatchReplays(cfg, w.bus, Canon(w), h0, h1, w.progress);
      var results := CommitBatch(cfg, w.bus, w.progress, Offer(h0, h1)).results;
      AnswersCount(cfg, Canon(w), [], h0, |Offer(h0, h1)|, results);
      assert Owners(h0, results) == [];
    }
  }

  lemma CommitTurn(w: World, r: World)
    requires w.coord.at == Commit && r.lane0 == w.lane0 && r.lane1 == w.lane1 && r.coord == w.coord.(at := LoadDone(0))
    ensures ToExit(r) < ToExit(w)
    ensures Unread(w.lane0, Commit, 0) || Unread(w.lane1, Commit, 1) ==> ToCommit(r) < ToCommit(w)
  {
  }

  lemma ParkedPending(cfg: Config, w: World)
    requires Inv(cfg, w) && CanonOk(w) && Parked(w.lane0) && Parked(w.lane1) && !AllFinished(w) && !Complete(cfg, w)
    ensures Next(cfg, Canon(w)).Some?
  {
    hide DualOk, CpuOk, OpMatches, Next;
  }

  lemma CommitNearer(cfg: Config, w: World)
    requires Inv(cfg, w) && Awake(w) && CanonOk(w) && !Complete(cfg, w) && w.coord.at == Commit
    ensures CoordReady(w) && Runnable(w.lane0) && Runnable(w.lane1) && CanonOk(Act(cfg, w, Coordinator))
    ensures Nearer(w, Act(cfg, w, Coordinator), Coordinator)
  {
    hide Inv, Canon, CommitHeld, LaneAwake, FlagsOk, ToPark, Parked, ToCommit, ToExit, MarksOk, Placed, Complete, Unfinished, CommitsOf, Unread;
    ActKeeps(cfg, w, Coordinator);
    InvShape(cfg, w);
    var r := Act(cfg, w, Coordinator);
    var choices := CommitsOf(cfg, w, Coordinator);
    ReplayLowers(cfg, Canon(w), choices);
    if choices == [] {
      CommitNothing(cfg, w);
      InvFacts(cfg, w);
      NothingReplays(cfg, Canon(w), None, 0);
      assert Canon(r) == Canon(w);
      ParkedIsZero(w.lane0);
      ParkedIsZero(w.lane1);
      CommitTurn(w, r);
      if Parked(w.lane0) && Parked(w.lane1) && !AllFinished(w) && !Unread(w.lane0, Commit, 0) && !Unread(w.lane1, Commit, 1) {
        ParkedPending(cfg, w);
        ParkedCommitSucceeds(cfg, w);
      }
    }
  }

  /** Until everything is complete, every step of the helpful thread lowers the rank and no other step raises it. */
  lemma ActNearer(cfg: Config, w: World, who: Thread)
    requires Inv(cfg, w) && Awake(w) && CanonOk(w) && !Complete(cfg, w)
    ensures CoordReady(w) && Runnable(w.lane0) && Runnable(w.lane1) && CanonOk(Act(cfg, w, who))
    ensures Nearer(w, Act(cfg, w, who), who)
  {
    hide *;
    if who != Coordinator {
      ProducerNearer(cfg, w, who);
    } else if w.coord.at == Commit {
      CommitNearer(cfg, w);
    } else {
      QuietCoordNearer(cfg, w);
    }
  }

  // ----- schedules -----

  /** A schedule in which nothing can move any more has completed everything: the driver never deadlocks. */
  lemma StuckMeansComplete(cfg: Config, w: World)
    requires Inv(cfg, w) && Awake(w)
    ensures CanonOk(w) && CoordReady(w) && Runnable(w.lane0) && Runnable(w.lane1)
    ensures (forall who :: Act(cfg, w, who) == w) ==> Complete(cfg, w)
  {
    hide Inv, Act, Complete, RankOf, Helpful, Awake;
    InvFacts(cfg, w);
    CanonReady(cfg, w);
    if (forall who :: Act(cfg, w, who) == w) && !Complete(cfg, w) {
      ActNearer(cfg, w, Helpful(w));
      assert false;
    }
  }

  ghost predicate Scheduled(f: nat -> Thread, n: nat, who: Thread) {
    exists k: nat :: n <= k && f(k) == who
  }

  /** Every thread is scheduled again and again. */
  ghost predicate Fair(f: nat -> Thread) {
    forall n: nat, who: Thread :: Scheduled(f, n, who)
  }

  function Part(f: nat -> Thread, n: nat, count: nat): (r: seq<Thread>)
    ensures |r| == count
  {
    seq(count, k requires 0 <= k < count => f(n + k))
  }

  lemma PartUnfolds(cfg: Config, w: World, f: nat -> Thread, n: nat, count: nat)
    requires Inv(cfg, w)
    ensures CanonOk(w) && CoordReady(w) && Runnable(w.lane0) && Runnable(w.lane1) && Inv(cfg, Act(cfg, w, f(n)))
    ensures Run(cfg, w, Part(f, n, count + 1)) == Run(cfg, Act(cfg, w, f(n)), Part(f, n + 1, count))
  {
    hide Inv, Act, Canon, CommitsOf, LegalRun, Possible, Replay;
    ActKeeps(cfg, w, f(n));
    var schedule := Part(f, n, count + 1);
    assert schedule[0] == f(n) && schedule[1..] == Part(f, n + 1, count);
  }

  /** Every fair schedule completes everything the reference commits, and ends all threads if the reference run ends both scripts. */
  lemma {:induction false} FairSchedulesComplete(cfg: Config, w: World, f: nat -> Thread, n: nat) returns (count: nat)
    requires Inv(cfg, w) && Awake(w) && Fair(f)
    ensures CanonOk(w) && CanonOk(Run(cfg, w, Part(f, n, count))) && Complete(cfg, Run(cfg, w, Part(f, n, count)))
    decreases RankIn(cfg, w).work, RankIn(cfg, w).replies, RankIn(cfg, w).parking, RankIn(cfg, w).turn, 1, 0
  {
    hide Inv, Awake, Act, Complete, RankOf, Helpful;
    CanonReady(cfg, w);
    if Complete(cfg, w) {
      count := 0;
      assert Part(f, n, 0) == [];
    } else {
      assert Scheduled(f, n, Helpful(w));
      var k: nat :| n <= k && f(k) == Helpful(w);
      count := UntilHelped(cfg, w, f, n, k);
    }
  }

  lemma {:induction false} UntilHelped(cfg: Config, w: World, f: nat -> Thread, n: nat, k: nat) returns (count: nat)
    requires Inv(cfg, w) && Awake(w) && Fair(f) && n <= k && f(k) == Helpful(w)
    requires CanonOk(w) && !Complete(cfg, w)
    ensures CanonOk(Run(cfg, w, Part(f, n, count))) && Complete(cfg, Run(cfg, w, Part(f, n, count)))
    decreases RankIn(cfg, w).work, RankIn(cfg, w).replies, RankIn(cfg, w).parking, RankIn(cfg, w).turn, 0, k - n
  {
    hide Inv, Awake, Act, Complete, RankOf, Helpful;
    ActNearer(cfg, w, f(n));
    ActKeeps(cfg, w, f(n));
    ActStaysAwake(cfg, w, f(n));
    var r := Act(cfg, w, f(n));
    if Complete(cfg, r) {
      count := 0;
      assert Part(f, n + 1, 0) == [];
    } else if Lower(RankOf(r), RankOf(w)) {
      count := FairSchedulesComplete(cfg, r, f, n + 1);
    } else {
      count := UntilHelped(cfg, r, f, n + 1, k);
    }
    PartUnfolds(cfg, w, f, n, count);
    count := count + 1;
  }

  ghost function RankIn(cfg: Config, w: World): Rank
    requires Inv(cfg, w)
  {
    CanonReady(cfg, w);
    RankOf(w)
  }
}
