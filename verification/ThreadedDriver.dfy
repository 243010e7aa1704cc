/** The multithreaded driver as a state machine: two producer threads, six mailboxes, a signal hub and a coordinator.
    Each mailbox call, flag access, notify and wait is one atomic step. */
module ThreadedDriver {
  import opened Prelude
  import opened Bus
  import opened ScriptedCpus
  import opened DualMachine
  import opened DualBatch

  datatype ScriptResponse = ScriptResponse(scriptIndex: nat, token: nat, response: Response)

  // ----- one CPU: its producer thread, its mailboxes and the coordinator's slot for it -----

  /** Where a producer thread stands. */
  datatype Stage =
    | Top
    | PushReq | PushMark | NotifyReq
    | PopResp | Waiting
    | PushApplied | NotifyApplied
    | PushFinal | StoreDone | NotifyDone | Finished

  datatype Lane = Lane(
    cpu: Cpu,
    waiting: Option<PendingOp>,
    at: Stage,
    seen: nat,
    req: seq<PendingOp>,
    resp: seq<ScriptResponse>,
    marks: seq<Tick>,
    done: bool,
    held: Option<PendingOp>,
    reply: Option<ScriptResponse>)

  datatype Moved = Moved(lane: Lane, epoch: nat)

  predicate Runnable(l: Lane) {
    && ((l.at == PushReq || l.at == PushMark) ==> l.waiting.Some?)
    && (l.resp != [] ==> l.resp[0].scriptIndex < |l.cpu.script|)
  }

  /** One step of the producer thread. */
  function ProducerStep(l: Lane, epoch: nat): Moved
    requires l.cpu.Valid() && Runnable(l)
  {
    match l.at
    case Top =>
      var s := RunAhead(l.cpu);
      Moved(l.(cpu := s.cpu, waiting := s.op, at := if s.op.Some? then PushReq else PushFinal), epoch)
    case PushReq => Moved(l.(req := l.req + [l.waiting.value], at := PushMark), epoch)
    case PushMark => Moved(l.(marks := l.marks + [l.waiting.value.op.reqTime + 1], at := NotifyReq), epoch)
    case NotifyReq => Moved(l.(at := PopResp), epoch + 1)
    case PopResp =>
      if l.resp == [] then Moved(l.(at := Waiting), epoch)
      else
        var r := l.resp[0];
        Moved(l.(cpu := Answered(l.cpu, r.scriptIndex, r.response, r.token), waiting := None, resp := l.resp[1..], at := PushApplied), epoch)
    case Waiting => if epoch == l.seen then Moved(l, epoch) else Moved(l.(seen := epoch, at := PopResp), epoch)
    case PushApplied => Moved(l.(marks := l.marks + [l.cpu.time], at := NotifyApplied), epoch)
    case NotifyApplied => Moved(l.(at := Top), epoch + 1)
    case PushFinal => Moved(l.(marks := l.marks + [l.cpu.time], at := StoreDone), epoch)
    case StoreDone => Moved(l.(done := true, at := NotifyDone), epoch)
    case NotifyDone => Moved(l.(at := Finished), epoch + 1)
    case Finished => Moved(l, epoch)
  }

  // ----- the coordinator -----

  datatype Post =
    | PopReq(i: nat) | PopMarks(i: nat)
    | LoadPeer | Commit
    | PushResp | NotifyResp
    | LoadDone(i: nat)
    | Asleep | Exited

  /** `answers` lists the CPUs whose replies of the last batch are still to be pushed. */
  datatype Coord = Coord(at: Post, seen: nat, progressed: bool, waitingForPeer: bool, noPending: bool, answers: seq<nat>)

  datatype World = World(lane0: Lane, lane1: Lane, coord: Coord, epoch: nat, bus: BusState, progress: Progress) {
    function At(i: nat): Lane {
      if i == 0 then lane0 else lane1
    }

    function With(i: nat, l: Lane): World {
      if i == 0 then this.(lane0 := l) else this.(lane1 := l)
    }

    function Moves(c: Coord): World {
      this.(coord := c)
    }
  }

  predicate CoordReady(w: World) {
    w.coord.at == PushResp ==> w.coord.answers != [] && w.At(w.coord.answers[0]).reply.Some?
  }

  function AfterPopReq(i: nat): Post {
    if i == 0 then PopReq(1) else PopMarks(0)
  }

  function AfterPopMarks(i: nat): Post {
    if i == 0 then PopMarks(1) else LoadPeer
  }

  function TakeRequest(w: World, i: nat): World {
    var l := w.At(i);
    if l.held.None? && l.req != [] then
      w.With(i, l.(held := Some(l.req[0]), req := l.req[1..])).Moves(w.coord.(at := AfterPopReq(i), progressed := true))
    else w.Moves(w.coord.(at := AfterPopReq(i)))
  }

  function TakeMark(w: World, i: nat): World {
    var l := w.At(i);
    if l.marks == [] then w.Moves(w.coord.(at := AfterPopMarks(i)))
    else
      w.With(i, l.(marks := l.marks[1..])).Moves(w.coord.(progressed := true))
       .(progress := UpdateProgress(w.progress, if i == 0 then 0 else 1, l.marks[0]))
  }

  function LookAtPeers(w: World): World {
    var h0, h1 := w.lane0.held.Some?, w.lane1.held.Some?;
    w.Moves(w.coord.(
      at := Commit,
      waitingForPeer := (h0 && !h1 && !w.lane1.done) || (h1 && !h0 && !w.lane0.done),
      noPending := !h0 && !h1))
  }

  function ReplyTo(h0: Option<PendingOp>, held: Option<PendingOp>, results: seq<CommitResult>, i: nat): Option<ScriptResponse> {
    var pos := ReplyPosition(h0, results, i);
    if held.Some? && pos < |results| then
      Some(ScriptResponse(held.value.scriptIndex, held.value.op.token, results[pos].response))
    else None
  }

  function Owners(h0: Option<PendingOp>, results: seq<CommitResult>): (r: seq<nat>)
    ensures |r| == |results|
  {
    seq(|results|, k requires 0 <= k < |results| => OwnerOf(h0, results[k].inputIndex))
  }

  function CommitHeld(cfg: Config, w: World): World {
    var h0, h1 := w.lane0.held, w.lane1.held;
    if h0.None? && h1.None? then w.Moves(w.coord.(at := LoadDone(0)))
    else
      var batch := CommitBatch(cfg, w.bus, w.progress, Offer(h0, h1));
      World(w.lane0.(reply := ReplyTo(h0, h0, batch.results, 0)),
            w.lane1.(reply := ReplyTo(h0, h1, batch.results, 1)),
            w.coord.(at := if batch.results == [] then LoadDone(0) else PushResp, answers := Owners(h0, batch.results)),
            w.epoch, batch.bus, w.progress)
  }

  function Answer(w: World): World
    requires w.coord.answers != [] && w.At(w.coord.answers[0]).reply.Some?
  {
    var i, rest := w.coord.answers[0], w.coord.answers[1..];
    var l := w.At(i);
    w.With(i, l.(resp := l.resp + [l.reply.value], held := None, reply := None))
     .Moves(w.coord.(at := if rest == [] then NotifyResp else PushResp, answers := rest, progressed := true))
  }

  /** The end of a turn of the loop: sleep if nothing happened and nothing can be done, else go round again. */
  function EndTurn(w: World): World {
    if !w.coord.progressed && (w.coord.waitingForPeer || w.coord.noPending) then w.Moves(w.coord.(at := Asleep))
    else w.Moves(w.coord.(at := PopReq(0), progressed := false))
  }

  /** One step of the coordinator. */
  function CoordStep(cfg: Config, w: World): World
    requires CoordReady(w)
  {
    match w.coord.at
    case PopReq(i) => TakeRequest(w, i)
    case PopMarks(i) => TakeMark(w, i)
    case LoadPeer => LookAtPeers(w)
    case Commit => CommitHeld(cfg, w)
    case PushResp => Answer(w)
    case NotifyResp => w.Moves(w.coord.(at := LoadDone(0))).(epoch := w.epoch + 1)
    case LoadDone(i) =>
      if i == 0 && w.lane0.done then w.Moves(w.coord.(at := LoadDone(1)))
      else if i != 0 && w.lane1.done && w.lane0.held.None? && w.lane1.held.None? then w.Moves(w.coord.(at := Exited))
      else EndTurn(w)
    case Asleep =>
      if w.epoch == w.coord.seen then w else w.Moves(w.coord.(at := PopReq(0), seen := w.epoch, progressed := false))
    case Exited => w
  }

  // ----- the whole machine -----

  datatype Thread = Producer0 | Producer1 | Coordinator

  function Act(cfg: Config, w: World, who: Thread): World
    requires w.lane0.cpu.Valid() && Runnable(w.lane0)
    requires w.lane1.cpu.Valid() && Runnable(w.lane1)
    requires CoordReady(w)
  {
    match who
    case Producer0 =>
      var moved := ProducerStep(w.lane0, w.epoch);
      w.(lane0 := moved.lane, epoch := moved.epoch)
    case Producer1 =>
      var moved := ProducerStep(w.lane1, w.epoch);
      w.(lane1 := moved.lane, epoch := moved.epoch)
    case Coordinator => CoordStep(cfg, w)
  }

  function StartLane(c: Cpu): Lane {
    Lane(c, None, Top, 0, [], [], [], false, None, None)
  }

  /** The driver sets both watermarks to zero before it starts the threads. */
  function Start(c0: Cpu, c1: Cpu, b: BusState, p: Progress): World {
    World(StartLane(c0), StartLane(c1), Coord(PopReq(0), 0, false, false, false, []), 0, b,
          UpdateProgress(UpdateProgress(p, 0, 0), 1, 0))
  }

  // ----- what holds in every reachable state -----

  predicate Idle(l: Lane) {
    l.req == [] && l.resp == [] && l.held.None? && l.reply.None?
  }

  /** The operation has been asked for and not answered: it is in the request mailbox or in the coordinator's slot. */
  predicate Asked(l: Lane) {
    l.resp == [] && l.reply.None? && l.waiting.Some?
    && ((l.req == [l.waiting.value] && l.held.None?) || (l.req == [] && l.held == l.waiting))
  }

  predicate Fits(l: Lane, r: ScriptResponse) {
    && l.waiting.Some? && r.scriptIndex == l.waiting.value.scriptIndex && r.token == l.waiting.value.op.token
    && r.response.stall >= 1
  }

  /** The operation has been committed: its reply is with the coordinator or in the response mailbox. */
  predicate AnswerComing(l: Lane) {
    && l.req == [] && l.waiting.Some?
    && ((l.held == l.waiting && l.resp == [] && l.reply.Some? && Fits(l, l.reply.value))
        || (l.held.None? && l.reply.None? && |l.resp| == 1 && Fits(l, l.resp[0])))
  }

  /** At most one operation is in flight, and it is in exactly one place. */
  predicate Placed(l: Lane) {
    match l.at
    case PushReq => l.waiting.Some? && Idle(l)
    case PushMark => Asked(l)
    case NotifyReq => Asked(l) || AnswerComing(l)
    case PopResp => Asked(l) || AnswerComing(l)
    case Waiting => Asked(l) || AnswerComing(l)
    case _ => l.waiting.None? && Idle(l)
  }

  predicate Announced(l: Lane) {
    l.at == NotifyReq || l.at == PopResp || l.at == Waiting
  }

  /** The highest mark the producer has published or is about to publish. */
  function Published(l: Lane): Tick {
    if Announced(l) then l.cpu.time + 1 else l.cpu.time
  }

  predicate MarksOk(l: Lane, mark: Option<Tick>) {
    && mark.Some? && mark.value <= Published(l)
    && forall k :: 0 <= k < |l.marks| ==> l.marks[k] <= Published(l)
  }

  predicate Over(l: Lane) {
    l.at == NotifyDone || l.at == Finished
  }

  predicate Ending(l: Lane) {
    l.at == PushFinal || l.at == StoreDone || Over(l)
  }

  ghost predicate LaneOk(l: Lane, i: nat, mark: Option<Tick>) {
    && CpuOk(l.cpu, i)
    && (l.waiting.Some? ==> OpMatches(l.cpu, l.waiting.value, i))
    && (Ending(l) ==> l.cpu.Done())
    && l.done == Over(l)
    && Placed(l) && MarksOk(l, mark)
  }

  /** The reply on its way to the producer, if any. */
  function Coming(l: Lane): Option<ScriptResponse> {
    if l.resp != [] then Some(l.resp[0]) else l.reply
  }

  predicate ComingFits(l: Lane) {
    Coming(l).Some? ==> Coming(l).value.scriptIndex < |l.cpu.script|
  }

  /** The side this lane amounts to once every reply in flight is delivered and the CPU has run on. */
  function CanonSide(l: Lane): Side
    requires l.cpu.Valid() && ComingFits(l)
  {
    var r := Coming(l);
    if r.Some? then Settled(Answered(l.cpu, r.value.scriptIndex, r.value.response, r.value.token))
    else if l.waiting.Some? then Side(l.cpu, l.waiting)
    else Settled(l.cpu)
  }

  function Canon(w: World): Dual
    requires w.lane0.cpu.Valid() && ComingFits(w.lane0) && w.lane1.cpu.Valid() && ComingFits(w.lane1)
  {
    Dual(CanonSide(w.lane0), CanonSide(w.lane1), Core(w.bus))
  }

  predicate CoordOk(w: World) {
    var answers := w.coord.answers;
    && (w.coord.at == PushResp <==> answers != [])
    && (w.lane0.reply.Some? <==> 0 in answers) && (w.lane1.reply.Some? <==> 1 in answers)
    && (forall k :: 0 <= k < |answers| ==> answers[k] < 2)
    && |answers| <= 2 && (|answers| == 2 ==> answers[0] != answers[1])
    && (w.coord.at.LoadDone? && w.coord.at.i != 0 ==> w.lane0.done)
    && (w.coord.at == Exited ==> w.lane0.done && w.lane1.done && w.lane0.held.None? && w.lane1.held.None?)
  }

  lemma LaneFacts(l: Lane, i: nat, mark: Option<Tick>)
    requires LaneOk(l, i, mark)
    ensures l.cpu.Valid() && Runnable(l) && ComingFits(l)
    ensures l.waiting.Some? ==> l.waiting.value.op.reqTime == l.cpu.time && l.waiting.value.scriptIndex < |l.cpu.script|
  {
    hide WellFormed, Validate;
  }

  ghost predicate Inv(cfg: Config, w: World) {
    && LaneOk(w.lane0, 0, w.progress.cpu0) && LaneOk(w.lane1, 1, w.progress.cpu1)
    && w.progress.enabled && CoordOk(w)
    && (LaneFacts(w.lane0, 0, w.progress.cpu0); LaneFacts(w.lane1, 1, w.progress.cpu1); DualOk(cfg, Canon(w)))
  }

  lemma InvFacts(cfg: Config, w: World)
    requires Inv(cfg, w)
    ensures w.lane0.cpu.Valid() && Runnable(w.lane0) && ComingFits(w.lane0)
    ensures w.lane1.cpu.Valid() && Runnable(w.lane1) && ComingFits(w.lane1)
    ensures CoordReady(w) && DualOk(cfg, Canon(w))
  {
    hide DualOk, LaneOk, CanonSide;
    LaneFacts(w.lane0, 0, w.progress.cpu0);
    LaneFacts(w.lane1, 1, w.progress.cpu1);
  }
}
