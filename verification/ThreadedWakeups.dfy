/** No wake-up is lost: the invariant behind the progress of the multithreaded driver. */
module ThreadedWakeups {
  import opened Prelude
  import opened Bus
  import opened ScriptedCpus
  import opened DualMachine
  import opened ThreadedDriver
  import opened ThreadedInvariant

  /** The coordinator has looked into the request mailbox of CPU i in this turn of its loop. */
  predicate PassedReq(at: Post, i: nat) {
    match at
    case PopReq(j) => i == 0 && j != 0
    case _ => true
  }

  predicate PassedMarks(at: Post, i: nat) {
    match at
    case PopReq(_) => false
    case PopMarks(j) => i == 0 && j != 0
    case _ => true
  }

  /** What the coordinator has passed over without reading is still to be announced by a notify. */
  predicate ReadUp(l: Lane, at: Post, i: nat) {
    && (PassedReq(at, i) && l.req != [] && l.held.None? ==> l.at == PushMark || l.at == NotifyReq)
    && (PassedMarks(at, i) && l.marks != [] ==>
         l.at == NotifyReq || l.at == NotifyApplied || l.at == StoreDone || l.at == NotifyDone)
  }

  /** Once the producer has published its mark, the coordinator knows it or will find it in the mailbox. */
  predicate Exact(l: Lane, mark: Option<Tick>) {
    Announced(l) || l.at == NotifyApplied || l.at == StoreDone || Over(l) ==> mark == Some(Published(l)) || Published(l) in l.marks
  }

  predicate Replying(at: Post) {
    at == PushResp || at == NotifyResp
  }

  predicate LaneAwake(l: Lane, i: nat, mark: Option<Tick>, coord: Coord, epoch: nat) {
    && l.seen <= epoch
    && (coord.seen == epoch ==> ReadUp(l, coord.at, i))
    && Exact(l, mark)
    && (l.at == Waiting && l.seen == epoch && l.resp != [] ==> Replying(coord.at))
  }

  /** The coordinator's decision to sleep still rests on what it saw. */
  predicate FlagsOk(w: World) {
    var c, h0, h1 := w.coord, w.lane0.held.Some?, w.lane1.held.Some?;
    && (c.at == NotifyResp ==> c.progressed)
    && (c.at == Asleep ==> !c.progressed && (c.waitingForPeer || c.noPending))
    && (c.at == Commit || ((c.at.LoadDone? || c.at == Asleep) && !c.progressed) ==>
         && c.noPending == (!h0 && !h1)
         && (c.waitingForPeer ==> h0 != h1)
         && (c.waitingForPeer && c.seen == w.epoch ==>
              (!h0 && w.lane0.done ==> w.lane0.at == NotifyDone) && (!h1 && w.lane1.done ==> w.lane1.at == NotifyDone)))
    && (c.at == Asleep && c.noPending && c.seen == w.epoch ==>
         !w.lane0.done || !w.lane1.done || w.lane0.at == NotifyDone || w.lane1.at == NotifyDone)
  }

  predicate Awake(w: World) {
    && w.coord.seen <= w.epoch && FlagsOk(w)
    && LaneAwake(w.lane0, 0, w.progress.cpu0, w.coord, w.epoch)
    && LaneAwake(w.lane1, 1, w.progress.cpu1, w.coord, w.epoch)
  }

  predicate Shaped(l: Lane, mark: Option<Tick>) {
    && Placed(l) && MarksOk(l, mark) && l.done == Over(l)
    && (l.waiting.Some? ==> l.waiting.value.op.reqTime == l.cpu.time)
  }

  lemma InvShape(cfg: Config, w: World)
    requires Inv(cfg, w)
    ensures Shaped(w.lane0, w.progress.cpu0) && Shaped(w.lane1, w.progress.cpu1) && CoordOk(w) && w.progress.enabled
    ensures w.lane0.cpu.Valid() && Runnable(w.lane0) && w.lane1.cpu.Valid() && Runnable(w.lane1) && CoordReady(w)
  {
    hide DualOk, CanonSide, CpuOk;
    InvFacts(cfg, w);
    LaneFacts(w.lane0, 0, w.progress.cpu0);
    LaneFacts(w.lane1, 1, w.progress.cpu1);
  }

  lemma ProducerStaysAwake(l: Lane, i: nat, mark: Option<Tick>, coord: Coord, epoch: nat)
    requires Shaped(l, mark) && l.cpu.Valid() && Runnable(l)
    requires LaneAwake(l, i, mark, coord, epoch) && coord.seen <= epoch
    ensures var moved := ProducerStep(l, epoch);
            LaneAwake(moved.lane, i, mark, coord, moved.epoch) && epoch <= moved.epoch
  {
    hide RunAhead, Answered;
  }

  lemma OtherStaysAwake(l: Lane, i: nat, mark: Option<Tick>, coord: Coord, epoch: nat, later: nat)
    requires LaneAwake(l, i, mark, coord, epoch) && coord.seen <= epoch && (later == epoch || later == epoch + 1)
    ensures LaneAwake(l, i, mark, coord, later)
  {
  }

  /** A producer that notifies has nothing more to announce; one that does not changes no flag the coordinator relied on. */
  lemma ProducerFlags(w: World, i: nat)
    requires i < 2 && FlagsOk(w) && w.coord.seen <= w.epoch
    requires w.At(i).cpu.Valid() && Runnable(w.At(i)) && w.At(i).done == Over(w.At(i))
    ensures var moved := ProducerStep(w.At(i), w.epoch);
            FlagsOk(w.With(i, moved.lane).(epoch := moved.epoch))
  {
    hide RunAhead, Answered;
  }

  predicate Sound(w: World) {
    && Shaped(w.lane0, w.progress.cpu0) && Shaped(w.lane1, w.progress.cpu1) && CoordOk(w) && CoordReady(w)
  }

  lemma TakeRequestAwake(w: World, i: nat)
    requires Sound(w) && Awake(w) && w.coord.at == PopReq(i)
    ensures Awake(TakeRequest(w, i))
  {
  }

  lemma TakeMarkLane(l: Lane, i: nat, mark: Option<Tick>, coord: Coord, epoch: nat)
    requires Shaped(l, mark) && LaneAwake(l, i, mark, coord, epoch) && l.marks != []
    ensures LaneAwake(l.(marks := l.marks[1..]), i, Advanced(mark, l.marks[0]), coord, epoch)
  {
    assert l.marks == [l.marks[0]] + l.marks[1..];
  }

  lemma TakeMarkAwake(w: World, i: nat)
    requires Sound(w) && Awake(w) && w.coord.at == PopMarks(i)
    ensures Awake(TakeMark(w, i))
  {
    var l := w.At(i);
    if l.marks != [] {
      hide Shaped, CoordOk, Exact;
      if i == 0 {
        TakeMarkLane(l, 0, w.progress.cpu0, w.coord, w.epoch);
      } else {
        TakeMarkLane(l, 1, w.progress.cpu1, w.coord, w.epoch);
      }
    }
  }

  lemma LookAwake(w: World)
    requires Sound(w) && Awake(w) && w.coord.at == LoadPeer
    ensures Awake(LookAtPeers(w))
  {
    hide Shaped, Exact;
  }

  lemma AnsweredLane(l: Lane, i: nat, mark: Option<Tick>, coord: Coord, next: Coord, epoch: nat)
    requires Placed(l) && l.reply.Some? && LaneAwake(l, i, mark, coord, epoch)
    requires coord.at == PushResp && Replying(next.at) && next.seen == coord.seen
    ensures LaneAwake(l.(resp := l.resp + [l.reply.value], held := None, reply := None), i, mark, next, epoch)
  {
  }

  lemma LaneWhileReplying(l: Lane, i: nat, mark: Option<Tick>, coord: Coord, next: Coord, epoch: nat)
    requires LaneAwake(l, i, mark, coord, epoch) && Replying(coord.at) && Replying(next.at) && next.seen == coord.seen
    ensures LaneAwake(l, i, mark, next, epoch)
  {
  }

  lemma AnswerAwake(w: World)
    requires Sound(w) && Awake(w) && w.coord.at == PushResp
    ensures Awake(Answer(w))
  {
    hide MarksOk, LaneAwake, Placed;
    var i, n := w.coord.answers[0], Answer(w).coord;
    assert w.coord.answers[0] in w.coord.answers;
    if i == 0 {
      AnsweredLane(w.lane0, 0, w.progress.cpu0, w.coord, n, w.epoch);
      LaneWhileReplying(w.lane1, 1, w.progress.cpu1, w.coord, n, w.epoch);
    } else {
      AnsweredLane(w.lane1, 1, w.progress.cpu1, w.coord, n, w.epoch);
      LaneWhileReplying(w.lane0, 0, w.progress.cpu0, w.coord, n, w.epoch);
    }
  }

  lemma EndTurnAwake(w: World)
    requires Sound(w) && Awake(w) && w.coord.at.LoadDone?
    requires w.coord.at.i == 0 ==> !w.lane0.done
    requires w.coord.at.i != 0 ==> !w.lane1.done || w.lane0.held.Some? || w.lane1.held.Some?
    ensures Awake(EndTurn(w))
  {
    hide Shaped, Exact;
  }

  lemma CoordinatorStaysAwake(cfg: Config, w: World)
    requires Inv(cfg, w) && Awake(w) && CoordReady(w) && w.coord.at != Commit
    ensures Awake(CoordStep(cfg, w))
  {
    hide Inv, CommitHeld, TakeRequest, TakeMark, LookAtPeers, Answer, EndTurn, Exact, Shaped, MarksOk;
    InvShape(cfg, w);
    match w.coord.at
    case PopReq(i) => TakeRequestAwake(w, i);
    case PopMarks(i) => TakeMarkAwake(w, i);
    case LoadPeer => LookAwake(w);
    case PushResp => AnswerAwake(w);
    case LoadDone(i) =>
      if !(i == 0 && w.lane0.done) && !(i != 0 && w.lane1.done && w.lane0.held.None? && w.lane1.held.None?) {
        EndTurnAwake(w);
      }
    case _ =>
  }

  /** Past the commit the coordinator has looked into everything already, as at the commit. */
  lemma LanePastCommit(l: Lane, reply: Option<ScriptResponse>, i: nat, mark: Option<Tick>, coord: Coord, next: Coord, epoch: nat)
    requires LaneAwake(l, i, mark, coord, epoch) && coord.at == Commit && next.seen == coord.seen
    requires next.at == LoadDone(0) || next.at == PushResp
    ensures LaneAwake(l.(reply := reply), i, mark, next, epoch)
  {
  }

  lemma CommitStaysAwake(cfg: Config, w: World)
    requires Inv(cfg, w) && Awake(w) && w.coord.at == Commit
    ensures Awake(CommitHeld(cfg, w))
  {
    hide Inv, CommitBatch, ReplyTo, Owners, LaneAwake, Shaped;
    InvShape(cfg, w);
    var r := CommitHeld(cfg, w);
    LanePastCommit(w.lane0, r.lane0.reply, 0, w.progress.cpu0, w.coord, r.coord, w.epoch);
    LanePastCommit(w.lane1, r.lane1.reply, 1, w.progress.cpu1, w.coord, r.coord, w.epoch);
  }

  /** No step of any thread loses a wake-up. */
  lemma ActStaysAwake(cfg: Config, w: World, who: Thread)
    requires Inv(cfg, w) && Awake(w)
    ensures w.lane0.cpu.Valid() && Runnable(w.lane0) && w.lane1.cpu.Valid() && Runnable(w.lane1) && CoordReady(w)
    ensures Awake(Act(cfg, w, who))
  {
    hide Inv, CommitHeld, ProducerStep, LaneAwake, FlagsOk;
    InvShape(cfg, w);
    match who
    case Producer0 =>
      ProducerStaysAwake(w.lane0, 0, w.progress.cpu0, w.coord, w.epoch);
      ProducerFlags(w, 0);
      EpochGrows(w.lane0, w.epoch);
      OtherStaysAwake(w.lane1, 1, w.progress.cpu1, w.coord, w.epoch, ProducerStep(w.lane0, w.epoch).epoch);
    case Producer1 =>
      ProducerStaysAwake(w.lane1, 1, w.progress.cpu1, w.coord, w.epoch);
      ProducerFlags(w, 1);
      EpochGrows(w.lane1, w.epoch);
      OtherStaysAwake(w.lane0, 0, w.progress.cpu0, w.coord, w.epoch, ProducerStep(w.lane1, w.epoch).epoch);
    case Coordinator =>
      if w.coord.at == Commit {
        CommitStaysAwake(cfg, w);
      } else {
        CoordinatorStaysAwake(cfg, w);
      }
  }

  lemma EpochGrows(l: Lane, epoch: nat)
    requires l.cpu.Valid() && Runnable(l)
    ensures ProducerStep(l, epoch).epoch == epoch || ProducerStep(l, epoch).epoch == epoch + 1
  {
    hide RunAhead, Answered;
  }

  lemma StartAwake(c0: Cpu, c1: Cpu, b: BusState, p: Progress)
    ensures Awake(Start(c0, c1, b, p))
  {
  }

  /** ... nor does any schedule. */
  lemma {:induction false} RunStaysAwake(cfg: Config, w: World, schedule: seq<Thread>)
    requires Inv(cfg, w) && Awake(w)
    ensures Awake(Run(cfg, w, schedule))
    decreases |schedule|
  {
    hide Inv, Awake, Act;
    if schedule != [] {
      ActKeeps(cfg, w, schedule[0]);
      ActStaysAwake(cfg, w, schedule[0]);
      RunStaysAwake(cfg, Act(cfg, w, schedule[0]), schedule[1..]);
    }
  }

  // ----- what that means for a thread that sleeps -----

  /** A request or a mark that a sleeping coordinator has not seen is one whose notify is still to come. */
  predicate NotifyStillDue(l: Lane) {
    && (l.req != [] && l.held.None? ==> l.at == PushMark || l.at == NotifyReq)
    && (l.marks != [] ==> l.at == NotifyReq || l.at == NotifyApplied || l.at == StoreDone || l.at == NotifyDone)
  }

  /** In every state a schedule can reach, no thread sleeps on a message whose notify has been given: a coordinator
      that no notify will wake has unread messages only from a producer that is still to notify, and a producer that no
      notify will wake has an unread reply only while the coordinator is still to notify. */
  lemma NoLostWakeup(cfg: Config, c0: Cpu, c1: Cpu, b: BusState, p: Progress, schedule: seq<Thread>, i: nat)
    requires CpuOk(c0, 0) && CpuOk(c1, 1) && DualOk(cfg, Dual(Settled(c0), Settled(c1), Core(b)))
    requires p.cpu0.Some? ==> p.cpu0.value <= c0.time
    requires p.cpu1.Some? ==> p.cpu1.value <= c1.time
    requires i < 2
    ensures Inv(cfg, Start(c0, c1, b, p))
    ensures var w := Run(cfg, Start(c0, c1, b, p), schedule); var l := w.At(i);
            && (w.coord.at == Asleep && w.coord.seen == w.epoch ==> NotifyStillDue(l))
            && (l.at == Waiting && l.seen == w.epoch && l.resp != [] ==> w.coord.at == PushResp || w.coord.at == NotifyResp)
  {
    hide Inv, Run, Start, CpuOk, DualOk, Settled, FlagsOk, Exact;
    StartOk(cfg, c0, c1, b, p);
    StartAwake(c0, c1, b, p);
    RunStaysAwake(cfg, Start(c0, c1, b, p), schedule);
  }

  /** In every state a schedule can reach, what a producer has just published is known to the coordinator or waiting in its
      mailbox: one past its request while the operation is out, its clock once the reply is applied or the script is over. */
  lemma PublishedArrives(cfg: Config, c0: Cpu, c1: Cpu, b: BusState, p: Progress, schedule: seq<Thread>, i: nat)
    requires CpuOk(c0, 0) && CpuOk(c1, 1) && DualOk(cfg, Dual(Settled(c0), Settled(c1), Core(b)))
    requires p.cpu0.Some? ==> p.cpu0.value <= c0.time
    requires p.cpu1.Some? ==> p.cpu1.value <= c1.time
    requires i < 2
    ensures Inv(cfg, Start(c0, c1, b, p))
    ensures var w := Run(cfg, Start(c0, c1, b, p), schedule);
            var l, mark := w.At(i), if i == 0 then w.progress.cpu0 else w.progress.cpu1;
            && (l.at in {NotifyReq, PopResp, Waiting} ==> mark == Some(l.cpu.time + 1) || l.cpu.time + 1 in l.marks)
            && (l.at in {NotifyApplied, StoreDone, NotifyDone, Finished} ==> mark == Some(l.cpu.time) || l.cpu.time in l.marks)
  {
    hide Inv, Run, Start, CpuOk, DualOk, Settled, FlagsOk, ReadUp;
    StartOk(cfg, c0, c1, b, p);
    StartAwake(c0, c1, b, p);
    RunStaysAwake(cfg, Start(c0, c1, b, p), schedule);
  }
}
