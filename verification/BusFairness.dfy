/** Round-robin between the two CPUs: ties are won in strict alternation over any run of batches. */
module BusFairness {
  import opened Prelude
  import opened Bus
  import opened BusBatch
  import opened BusOrder
  import opened BusProducers
  import opened BusAccounts

  predicate MatchesSlot(op: BusOp) {
    match SlotOf(op)
    case Cpu0Slot => op.cpuId == 0
    case Cpu1Slot => op.cpuId == 1
    case DmaSlot => op.cpuId < 0
  }

  /** At most one operation for each producer. */
  predicate Contest(ops: seq<BusOp>) {
    && (forall i :: 0 <= i < |ops| ==> MatchesSlot(ops[i]))
    && (forall i, j :: 0 <= i < j < |ops| ==> SlotOf(ops[i]) != SlotOf(ops[j]))
  }

  predicate Accepted(b: BusState, op: BusOp) {
    Validate(op).None? && NotLate(b, op)
  }

  /** The CPUs that win ties while a queue drains, in order. */
  function TieWinners(cfg: Config, b: BusState, p: Progress, pending: seq<Pending>): seq<int>
    decreases |pending|
  {
    if !Continues(b, p, pending) then []
    else
      var op := pending[NextOf(cfg, b, p, pending)].op;
      var rest := TieWinners(cfg, Stepped(cfg, b, p, pending).bus, p, Without(pending, NextOf(cfg, b, p, pending)));
      if TieOf(cfg, b, p, pending) && IsCpu(op.cpuId) && Accepted(b, op) then [op.cpuId] + rest else rest
  }

  function Other(cpuId: int): int {
    if cpuId == 0 then 1 else 0
  }

  /** Each winner is the CPU that did not win the tie before it. */
  predicate Alternates(previous: int, winners: seq<int>)
    decreases |winners|
  {
    winners == [] || (winners[0] == Other(previous) && Alternates(winners[0], winners[1..]))
  }

  function LastWinner(previous: int, winners: seq<int>): int {
    if winners == [] then previous else winners[|winners| - 1]
  }

  lemma ExecuteGrant(cfg: Config, b: BusState, op: BusOp, hadTie: bool)
    ensures Execute(cfg, b, op, hadTie).bus.lastGrantCpu
         == if hadTie && IsCpu(op.cpuId) && Accepted(b, op) then op.cpuId else b.lastGrantCpu
  {
    hide ValueOf, RamAfter, DevAfter, LatencyOf;
  }

  /** With one operation per producer nothing can be inverted. */
  lemma ContestNoInversion(cfg: Config, b: BusState, ops: seq<BusOp>)
    requires Contest(ops)
    ensures AllIdentified(ops) && NoInversion(cfg, b, ops)
  {
    hide SlotOf, StartOf, Outranks, MatchesSlot;
    forall i, j | 0 <= i < |ops| && 0 <= j < |ops| && i != j
      ensures SlotOf(ops[i]) != SlotOf(ops[j]) && ops[i].cpuId != ops[j].cpuId
    {
      assert MatchesSlot(ops[i]) && MatchesSlot(ops[j]);
      assert SlotOf(ops[Min(i, j)]) != SlotOf(ops[Max(i, j)]);
      OtherSlotOtherCpu(ops[i], ops[j]);
    }
  }

  lemma OtherSlotOtherCpu(x: BusOp, y: BusOp)
    requires MatchesSlot(x) && MatchesSlot(y) && SlotOf(x) != SlotOf(y)
    ensures x.cpuId != y.cpuId
  {
  }

  lemma WithoutContest(pending: seq<Pending>, n: nat)
    requires n < |pending| && Contest(OpsOf(pending))
    ensures Contest(OpsOf(Without(pending, n)))
  {
    hide MatchesSlot, SlotOf;
    var ops, rest := OpsOf(pending), OpsOf(Without(pending, n));
    assert forall i :: 0 <= i < |rest| ==> rest[i] == ops[if i < n then i else i + 1];
  }

  /** A CPU that wins a tie is the one whose turn it is. */
  lemma TieWinnerIsPreferred(cfg: Config, b: BusState, p: Progress, pending: seq<Pending>)
    requires Continues(b, p, pending) && Contest(OpsOf(pending)) && TieOf(cfg, b, p, pending)
    requires IsCpu(pending[NextOf(cfg, b, p, pending)].op.cpuId)
    ensures pending[NextOf(cfg, b, p, pending)].op.cpuId == Other(b.lastGrantCpu)
  {
    hide NextOf, AllIdentified, NoInversion;
    var ops, next, idxs := OpsOf(pending), NextOf(cfg, b, p, pending), CommittableFrom(p, pending, 0);
    CommittableFacts(p, pending, 0);
    ContestNoInversion(cfg, b, OpsOf(pending));
    var a :| 0 <= a < |idxs| && idxs[a] != next && Ties(cfg, b, pending[idxs[a]].op, pending[next].op);
    var i := idxs[a];
    NextUnbeaten(cfg, b, p, pending, i);
    assert MatchesSlot(ops[i]) && MatchesSlot(ops[next]);
    assert SlotOf(ops[Min(i, next)]) != SlotOf(ops[Max(i, next)]);
  }

  lemma {:induction false} DrainAlternates(cfg: Config, b: BusState, p: Progress, pending: seq<Pending>)
    requires Contest(OpsOf(pending))
    ensures Alternates(b.lastGrantCpu, TieWinners(cfg, b, p, pending))
    ensures Drain(cfg, b, p, pending).bus.lastGrantCpu == LastWinner(b.lastGrantCpu, TieWinners(cfg, b, p, pending))
    decreases |pending|
  {
    hide Drain, Execute, NextOf, TieOf, Committable, Contest, OpsOf, Accepted;
    DrainUnfolds(cfg, b, p, pending);
    if Continues(b, p, pending) {
      var next := NextOf(cfg, b, p, pending);
      var b1, rest := Stepped(cfg, b, p, pending).bus, Without(pending, next);
      ExecuteGrant(cfg, b, pending[next].op, TieOf(cfg, b, p, pending));
      WithoutContest(pending, next);
      DrainAlternates(cfg, b1, p, rest);
      if TieOf(cfg, b, p, pending) && IsCpu(pending[next].op.cpuId) {
        TieWinnerIsPreferred(cfg, b, p, pending);
      }
    }
  }

  // ----- runs of batches -----

  datatype OfferedBatch = OfferedBatch(progress: Progress, ops: seq<BusOp>)

  function QueueOf(b: BusState, ops: seq<BusOp>): Queue {
    EnqueueFrom(b.(lastEnqueued := NOTHING_ENQUEUED), ops, 0)
  }

  function RunRounds(cfg: Config, b: BusState, rounds: seq<OfferedBatch>): BusState
    decreases |rounds|
  {
    if rounds == [] then b
    else RunRounds(cfg, CommitBatch(cfg, b, rounds[0].progress, rounds[0].ops).bus, rounds[1..])
  }

  function WinnersOfRun(cfg: Config, b: BusState, rounds: seq<OfferedBatch>): seq<int>
    decreases |rounds|
  {
    if rounds == [] then []
    else
      var queue := QueueOf(b, rounds[0].ops);
      TieWinners(cfg, queue.bus, rounds[0].progress, queue.pending)
      + WinnersOfRun(cfg, CommitBatch(cfg, b, rounds[0].progress, rounds[0].ops).bus, rounds[1..])
  }

  lemma {:induction false} AlternatesAppend(previous: int, u: seq<int>, v: seq<int>)
    requires Alternates(previous, u) && Alternates(LastWinner(previous, u), v)
    ensures Alternates(previous, u + v) && LastWinner(previous, u + v) == LastWinner(LastWinner(previous, u), v)
    decreases |u|
  {
    if u == [] {
      assert u + v == v;
    } else {
      AlternatesAppend(u[0], u[1..], v);
      assert (u + v)[1..] == u[1..] + v;
    }
  }

  lemma QueueContest(b: BusState, ops: seq<BusOp>)
    requires Contest(ops)
    ensures Contest(OpsOf(QueueOf(b, ops).pending)) && QueueOf(b, ops).bus.lastGrantCpu == b.lastGrantCpu
  {
    hide EnqueueFrom, MatchesSlot, SlotOf;
    QueueFacts(b.(lastEnqueued := NOTHING_ENQUEUED), ops, 0);
    var pending := QueueOf(b, ops).pending;
    var q := OpsOf(pending);
    assert forall k :: 0 <= k < |q| ==> q[k] == ops[pending[k].index];
  }

  /** Over any run of batches with at most one operation per producer, the CPUs win ties in strict alternation,
      starting with the one that did not hold the last grant; nothing else, and DMA in particular, moves the rotation. */
  lemma {:induction false} TiesAlternate(cfg: Config, b: BusState, rounds: seq<OfferedBatch>)
    requires forall k :: 0 <= k < |rounds| ==> Contest(rounds[k].ops)
    ensures Alternates(b.lastGrantCpu, WinnersOfRun(cfg, b, rounds))
    ensures RunRounds(cfg, b, rounds).lastGrantCpu == LastWinner(b.lastGrantCpu, WinnersOfRun(cfg, b, rounds))
    decreases |rounds|
  {
    hide Drain, EnqueueFrom, TieWinners, Contest, OpsOf, Alternates, LastWinner;
    if rounds == [] {
      assert Alternates(b.lastGrantCpu, []) && LastWinner(b.lastGrantCpu, []) == b.lastGrantCpu by {
        NoWinners(b.lastGrantCpu);
      }
    } else {
      var round := rounds[0];
      var queue := QueueOf(b, round.ops);
      QueueContest(b, round.ops);
      DrainAlternates(cfg, queue.bus, round.progress, queue.pending);
      var b1 := CommitBatch(cfg, b, round.progress, round.ops).bus;
      TiesAlternate(cfg, b1, rounds[1..]);
      AlternatesAppend(b.lastGrantCpu, TieWinners(cfg, queue.bus, round.progress, queue.pending), WinnersOfRun(cfg, b1, rounds[1..]));
    }
  }

  lemma NoWinners(previous: int)
    ensures Alternates(previous, []) && LastWinner(previous, []) == previous
  {
  }

  // ----- the default classes -----

  /** DMA above a CPU's device access above a CPU's memory access. */
  function ClassOf(op: BusOp): nat {
    if op.cpuId < 0 then 2
    else if op.kind == MmioRead || op.kind == MmioWrite || DeviceAddress(op.addr) then 1
    else 0
  }

  /** Under the default policy, of the operations of different producers that could start together, none of a lower class
      is taken before one of a higher class. */
  lemma DefaultWinner(b: BusState, m: LatencyModel, p: Progress, pending: seq<Pending>, i: nat)
    requires Continues(b, p, pending) && Contest(OpsOf(pending))
    requires i < |pending| && Committable(p, pending[i].op)
    requires Max(pending[i].op.reqTime, b.freeTime) == Max(pending[NextOf(Config(DefaultPolicy, m), b, p, pending)].op.reqTime, b.freeTime)
    ensures ClassOf(pending[i].op) <= ClassOf(pending[NextOf(Config(DefaultPolicy, m), b, p, pending)].op)
  {
    hide NextOf, AllIdentified, NoInversion;
    var cfg := Config(DefaultPolicy, m);
    var next := NextOf(cfg, b, p, pending);
    ContestNoInversion(cfg, b, OpsOf(pending));
    NextUnbeaten(cfg, b, p, pending, i);
    if i != next {
      var ops := OpsOf(pending);
      assert SlotOf(ops[Min(i, next)]) != SlotOf(ops[Max(i, next)]);
    }
  }
}
