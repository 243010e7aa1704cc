/** Time on the bus: worst-case stalls and work conservation; runs of commands. */
module BusTiming {
  import opened Prelude
  import opened Bus
  import opened BusBatch

  // ----- the next commit starts as early as anything could -----

  lemma {:induction false} PickFromLeastStart(cfg: Config, b: BusState, pending: seq<Pending>, idxs: seq<nat>, k: nat, best: nat)
    requires k <= |idxs| && best < |pending|
    requires forall j :: 0 <= j < |idxs| ==> idxs[j] < |pending|
    ensures var r := PickFrom(cfg, b, pending, idxs, k, best);
            && r < |pending|
            && StartOf(b, pending[r].op) <= StartOf(b, pending[best].op)
            && forall j :: k <= j < |idxs| ==> StartOf(b, pending[r].op) <= StartOf(b, pending[idxs[j]].op)
    decreases |idxs| - k
  {
    if k < |idxs| {
      PickFromLeastStart(cfg, b, pending, idxs, k + 1, if Beats(cfg, b, pending[idxs[k]].op, pending[best].op) then idxs[k] else best);
    }
  }

  /** Holds whatever the tie-break does, transitive or not. */
  lemma NextStartsFirst(cfg: Config, b: BusState, p: Progress, pending: seq<Pending>, i: nat)
    requires Continues(b, p, pending) && i < |pending| && Committable(p, pending[i].op)
    ensures StartOf(b, pending[NextOf(cfg, b, p, pending)].op) <= StartOf(b, pending[i].op)
  {
    var idxs := CommittableFrom(p, pending, 0);
    CommittableFacts(p, pending, 0);
    PickFromLeastStart(cfg, b, pending, idxs, 0, idxs[0]);
    var j :| 0 <= j < |idxs| && idxs[j] == i;
  }

  // ----- worst-case stall -----

  function WorstLatency(m: LatencyModel): nat {
    Max(Max(Max(m.ramRead, m.ramWrite), Max(m.ifetch, m.mmioRead)), Max(m.mmioWrite, m.barrier))
    + m.sameAddressContention + m.tieTurnaround
  }

  lemma ExecuteTiming(cfg: Config, b: BusState, op: BusOp, hadTie: bool)
    ensures var done := Execute(cfg, b, op, hadTie);
            && done.response.startTime == StartOf(b, op)
            && done.response.startTime <= done.response.commitTime <= StartOf(b, op) + WorstLatency(cfg.latency)
            && b.freeTime <= done.bus.freeTime <= Max(b.freeTime, done.response.commitTime)
  {
  }

  /** Every result of a batch came from a committable entry of its queue. */
  lemma ResultsComeFromQueue(cfg: Config, b: BusState, p: Progress, pending: seq<Pending>, k: nat)
    requires k < |Drain(cfg, b, p, pending).results|
    ensures exists i :: 0 <= i < |pending| && pending[i].op == Drain(cfg, b, p, pending).results[k].op && Committable(p, pending[i].op)
  {
    hide Drain, Committable;
    var results := Drain(cfg, b, p, pending).results;
    DrainCommits(cfg, b, p, pending);
    var e := Entries(results)[k];
    assert e in multiset(Entries(results));
    assert e in multiset(Selected(p, pending));
    assert e in Selected(p, pending);
  }

  /** The k-th commit of a batch (counting from 0) finishes within k + 1 worst-case latencies of the moment
      it could first have started. */
  lemma {:induction false} WorstCaseStall(cfg: Config, b: BusState, p: Progress, pending: seq<Pending>, k: nat)
    requires k < |Drain(cfg, b, p, pending).results|
    ensures var r := Drain(cfg, b, p, pending).results[k];
            r.response.commitTime <= Max(r.op.reqTime, b.freeTime) + (k + 1) * WorstLatency(cfg.latency)
    decreases k
  {
    hide Drain, Execute, NextOf, TieOf, Committable, WorstLatency;
    DrainUnfolds(cfg, b, p, pending);
    var next := NextOf(cfg, b, p, pending);
    var op := pending[next].op;
    var done := Stepped(cfg, b, p, pending);
    ExecuteTiming(cfg, b, op, TieOf(cfg, b, p, pending));
    var worst := WorstLatency(cfg.latency);
    if k > 0 {
      var rest := Without(pending, next);
      WorstCaseStall(cfg, done.bus, p, rest, k - 1);
      ResultsComeFromQueue(cfg, b, p, pending, k);
      var r := Drain(cfg, b, p, pending).results[k];
      assert r == Drain(cfg, done.bus, p, rest).results[k - 1];
      var i :| 0 <= i < |pending| && pending[i].op == r.op && Committable(p, pending[i].op);
      NextStartsFirst(cfg, b, p, pending, i);
      assert done.bus.freeTime <= StartOf(b, op) + worst <= Max(r.op.reqTime, b.freeTime) + worst;
      assert Max(r.op.reqTime, done.bus.freeTime) <= Max(r.op.reqTime, b.freeTime) + worst;
      assert (k + 1) * worst == k * worst + worst;
    }
  }

  lemma {:induction false} EnqueueTakesNoTime(b: BusState, ops: seq<BusOp>, i: nat)
    requires i <= |ops|
    ensures EnqueueFrom(b, ops, i).bus.freeTime == b.freeTime
    decreases |ops| - i
  {
    if i < |ops| {
      EnqueueTakesNoTime(Enqueue(b, ops[i]), ops, i + 1);
    }
  }

  lemma BatchWorstCaseStall(cfg: Config, b: BusState, p: Progress, ops: seq<BusOp>, k: nat)
    requires k < |CommitBatch(cfg, b, p, ops).results|
    ensures var r := CommitBatch(cfg, b, p, ops).results[k];
            r.response.commitTime <= Max(r.op.reqTime, b.freeTime) + (k + 1) * WorstLatency(cfg.latency)
  {
    hide Drain, EnqueueFrom, WorstLatency;
    var queue := EnqueueFrom(b.(lastEnqueued := NOTHING_ENQUEUED), ops, 0);
    EnqueueTakesNoTime(b.(lastEnqueued := NOTHING_ENQUEUED), ops, 0);
    WorstCaseStall(cfg, queue.bus, p, queue.pending, k);
  }

  // ----- work conservation -----

  /** The bus just before the k-th commit of a batch. */
  function BusBefore(cfg: Config, b: BusState, p: Progress, pending: seq<Pending>, k: nat): BusState
    requires k <= |Drain(cfg, b, p, pending).results|
    decreases k
  {
    DrainUnfolds(cfg, b, p, pending);
    if k == 0 then b
    else BusBefore(cfg, Stepped(cfg, b, p, pending).bus, p, Without(pending, NextOf(cfg, b, p, pending)), k - 1)
  }

  /** Each commit starts as soon as it is requested and the bus is free, and the bus never waits for it while
      some operation the batch still has to commit has already been requested. */
  lemma {:induction false} NeverIdlesWithWork(cfg: Config, b: BusState, p: Progress, pending: seq<Pending>, k: nat, l: nat)
    requires k <= l < |Drain(cfg, b, p, pending).results|
    ensures var results, free := Drain(cfg, b, p, pending).results, BusBefore(cfg, b, p, pending, k).freeTime;
            && results[k].response.startTime == Max(results[k].op.reqTime, free)
            && (results[k].response.startTime > free ==> results[l].op.reqTime >= results[k].response.startTime)
    decreases k
  {
    hide Drain, Execute, NextOf, TieOf, Committable, WorstLatency;
    DrainUnfolds(cfg, b, p, pending);
    var next := NextOf(cfg, b, p, pending);
    if k == 0 {
      ExecuteTiming(cfg, b, pending[next].op, TieOf(cfg, b, p, pending));
      ResultsComeFromQueue(cfg, b, p, pending, l);
      var r := Drain(cfg, b, p, pending).results[l];
      var i :| 0 <= i < |pending| && pending[i].op == r.op && Committable(p, pending[i].op);
      NextStartsFirst(cfg, b, p, pending, i);
    } else {
      NeverIdlesWithWork(cfg, Stepped(cfg, b, p, pending).bus, p, Without(pending, next), k - 1, l - 1);
    }
  }

  // ----- runs of commands -----

  datatype Command = Batch(ops: seq<BusOp>) | Single(op: BusOp) | Dma(op: BusOp) | Mark(cpuId: int, upTo: Tick)

  datatype ArbiterState = ArbiterState(bus: BusState, progress: Progress)

  function Obey(cfg: Config, m: ArbiterState, c: Command): ArbiterState {
    match c
    case Batch(ops) => m.(bus := CommitBatch(cfg, m.bus, m.progress, ops).bus)
    case Single(op) => m.(bus := CommitOne(cfg, m.bus, op).bus)
    case Dma(op) => m.(bus := CommitOne(cfg, m.bus, AsDma(op)).bus)
    case Mark(cpuId, upTo) => m.(progress := UpdateProgress(m.progress, cpuId, upTo))
  }

  function RunCommands(cfg: Config, m: ArbiterState, cs: seq<Command>): ArbiterState {
    if cs == [] then m else Obey(cfg, RunCommands(cfg, m, cs[..|cs| - 1]), cs[|cs| - 1])
  }

  // ----- watermarks -----

  /** The watermark is the highest this CPU has reported, if it has reported any. */
  predicate HighestMark(cs: seq<Command>, cpuId: int, w: Option<Tick>) {
    && (forall k :: 0 <= k < |cs| && cs[k].Mark? && cs[k].cpuId == cpuId ==> w.Some? && cs[k].upTo <= w.value)
    && (w.Some? ==> Mark(cpuId, w.value) in cs)
  }

  /** Both watermarks over any run of commands; until a CPU reports one, nothing is held back, and from then on nothing is
      let through before both have reported. */
  lemma {:induction false} MarksAreHistory(cfg: Config, m: ArbiterState, cs: seq<Command>)
    requires m.progress == Progress(false, None, None)
    ensures var p := RunCommands(cfg, m, cs).progress;
            && HighestMark(cs, 0, p.cpu0) && HighestMark(cs, 1, p.cpu1)
            && (p.enabled <==> exists k :: 0 <= k < |cs| && cs[k].Mark? && (cs[k].cpuId == 0 || cs[k].cpuId == 1))
            && forall op :: Committable(p, op) <==>
                 (p.cpu0.None? && p.cpu1.None?) || (p.cpu0.Some? && p.cpu1.Some? && op.reqTime < p.cpu0.value && op.reqTime < p.cpu1.value)
  {
    hide CommitBatch, CommitOne;
    if cs != [] {
      var init, c := cs[..|cs| - 1], cs[|cs| - 1];
      assert cs == init + [c];
      MarksAreHistory(cfg, m, init);
    }
  }

  predicate PositiveLatency(m: LatencyModel) {
    m.ramRead > 0 && m.ramWrite > 0 && m.ifetch > 0 && m.mmioRead > 0 && m.mmioWrite > 0 && m.barrier > 0
  }
}
