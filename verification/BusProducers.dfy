/** One producer's operations are never reordered, so none is refused for coming too late. */
module BusProducers {
  import opened Prelude
  import opened Bus
  import opened BusBatch
  import opened BusOrder

  /** A queue whose entries of each producer are numbered, timed and placed in the same order. */
  predicate ProducerSorted(pending: seq<Pending>) {
    forall i, j :: 0 <= i < j < |pending| && SlotOf(pending[i].op) == SlotOf(pending[j].op) ==>
      && pending[i].op.sequence < pending[j].op.sequence
      && pending[i].op.reqTime <= pending[j].op.reqTime
      && pending[i].index < pending[j].index
  }

  /** The next commit is the first queued operation of its producer. */
  lemma NextIsFirst(cfg: Config, b: BusState, p: Progress, pending: seq<Pending>, i: nat)
    requires Continues(b, p, pending) && AllIdentified(OpsOf(pending)) && NoInversion(cfg, b, OpsOf(pending)) && ProducerSorted(pending)
    requires i < NextOf(cfg, b, p, pending)
    ensures SlotOf(pending[i].op) != SlotOf(pending[NextOf(cfg, b, p, pending)].op)
  {
    hide AllIdentified, NoInversion, NextOf;
    DrainUnfolds(cfg, b, p, pending);
    var n := NextOf(cfg, b, p, pending);
    if SlotOf(pending[i].op) == SlotOf(pending[n].op) {
      assert pending[i].op.reqTime <= pending[n].op.reqTime;
      NextUnbeaten(cfg, b, p, pending, i);
      assert false;
    }
  }

  lemma WithoutSorted(pending: seq<Pending>, n: nat)
    requires n < |pending| && ProducerSorted(pending)
    ensures ProducerSorted(Without(pending, n))
  {
    var rest := Without(pending, n);
    forall i, j | 0 <= i < j < |rest| && SlotOf(rest[i].op) == SlotOf(rest[j].op)
      ensures rest[i].op.sequence < rest[j].op.sequence && rest[i].op.reqTime <= rest[j].op.reqTime && rest[i].index < rest[j].index
    {
      var i', j' := if i < n then i else i + 1, if j < n then j else j + 1;
      assert rest[i] == pending[i'] && rest[j] == pending[j'] && i' < j';
    }
  }

  /** Every result of a batch names an entry of its queue. */
  lemma ResultEntry(cfg: Config, b: BusState, p: Progress, pending: seq<Pending>, k: nat) returns (i: nat)
    requires k < |Drain(cfg, b, p, pending).results|
    ensures i < |pending| && pending[i] == Pending(Drain(cfg, b, p, pending).results[k].inputIndex, Drain(cfg, b, p, pending).results[k].op)
  {
    hide Drain, Committable;
    DrainCommits(cfg, b, p, pending);
    var e := Entries(Drain(cfg, b, p, pending).results)[k];
    assert e in multiset(Entries(Drain(cfg, b, p, pending).results));
    assert e in multiset(Selected(p, pending));
    assert e in Selected(p, pending);
    i :| 0 <= i < |pending| && pending[i] == e;
  }

  lemma {:induction false} DrainKeepsProducerOrder(cfg: Config, b: BusState, p: Progress, pending: seq<Pending>, k: nat, l: nat)
    requires AllIdentified(OpsOf(pending)) && StaysOrderly(cfg, b, p, pending) && ProducerSorted(pending)
    requires k < l < |Drain(cfg, b, p, pending).results|
    requires SlotOf(Drain(cfg, b, p, pending).results[k].op) == SlotOf(Drain(cfg, b, p, pending).results[l].op)
    ensures Drain(cfg, b, p, pending).results[k].inputIndex < Drain(cfg, b, p, pending).results[l].inputIndex
    decreases k
  {
    hide Drain, Execute, NextOf, TieOf, Committable, AllIdentified, NoInversion, ProducerSorted, SlotOf;
    DrainUnfolds(cfg, b, p, pending);
    var next := NextOf(cfg, b, p, pending);
    var b1, rest := Stepped(cfg, b, p, pending).bus, Without(pending, next);
    if k > 0 {
      WithoutIdentified(pending, next);
      WithoutSorted(pending, next);
      DrainKeepsProducerOrder(cfg, b1, p, rest, k - 1, l - 1);
    } else {
      var i := ResultEntry(cfg, b1, p, rest, l - 1);
      var i' := if i < next then i else i + 1;
      assert rest[i] == pending[i'];
      if i' < next {
        NextIsFirst(cfg, b, p, pending, i');
      }
      assert ProducerSorted(pending) && next < i' && SlotOf(pending[next].op) == SlotOf(pending[i'].op);
      SortedPair(pending, next, i');
    }
  }

  lemma SortedPair(pending: seq<Pending>, i: nat, j: nat)
    requires ProducerSorted(pending) && i < j < |pending| && SlotOf(pending[i].op) == SlotOf(pending[j].op)
    ensures pending[i].index < pending[j].index
  {
  }

  // ----- no late refusals -----

  /** The arbiter has granted this producer nothing later than the operation. */
  predicate NotLate(b: BusState, op: BusOp) {
    var previous := b.lastReq.Get(SlotOf(op));
    previous.None? || previous.value <= op.reqTime
  }

  predicate NoneLate(b: BusState, pending: seq<Pending>) {
    forall i :: 0 <= i < |pending| ==> NotLate(b, pending[i].op)
  }

  /** No refusal for a request time below the producer's previous one among these events. */
  predicate NoLateRefusal(events: seq<Event>) {
    forall e :: e in events ==> !(e.Faulted? && e.reason == NonMonotonicReqTime)
  }

  lemma ExecuteNotLate(cfg: Config, b: BusState, op: BusOp, hadTie: bool)
    requires NotLate(b, op)
    ensures b.trace.events <= Execute(cfg, b, op, hadTie).bus.trace.events
    ensures NoLateRefusal(Execute(cfg, b, op, hadTie).bus.trace.events[|b.trace.events|..])
    ensures forall x :: NotLate(b, x) && (SlotOf(x) == SlotOf(op) ==> op.reqTime <= x.reqTime)
              ==> NotLate(Execute(cfg, b, op, hadTie).bus, x)
  {
    hide ValueOf, RamAfter, DevAfter, LatencyOf;
  }

  lemma {:induction false} DrainRefusesNothingLate(cfg: Config, b: BusState, p: Progress, pending: seq<Pending>)
    requires AllIdentified(OpsOf(pending)) && StaysOrderly(cfg, b, p, pending) && ProducerSorted(pending) && NoneLate(b, pending)
    ensures b.trace.events <= Drain(cfg, b, p, pending).bus.trace.events
    ensures NoLateRefusal(Drain(cfg, b, p, pending).bus.trace.events[|b.trace.events|..])
    decreases |pending|
  {
    hide Drain, Execute, NextOf, TieOf, Committable, AllIdentified, NoInversion, NotLate;
    DrainUnfolds(cfg, b, p, pending);
    if Continues(b, p, pending) {
      var next := NextOf(cfg, b, p, pending);
      var b1, rest := Stepped(cfg, b, p, pending).bus, Without(pending, next);
      ExecuteNotLate(cfg, b, pending[next].op, TieOf(cfg, b, p, pending));
      forall i | 0 <= i < |rest|
        ensures NotLate(b1, rest[i].op)
      {
        var i' := if i < next then i else i + 1;
        assert rest[i] == pending[i'];
        if i' < next {
          NextIsFirst(cfg, b, p, pending, i');
        }
      }
      WithoutIdentified(pending, next);
      WithoutSorted(pending, next);
      DrainRefusesNothingLate(cfg, b1, p, rest);
      var e0, e1, e2 := b.trace.events, b1.trace.events, Drain(cfg, b1, p, rest).bus.trace.events;
      assert e2[|e0|..] == e1[|e0|..] + e2[|e1|..];
    }
  }

  // ----- the producers of a batch -----

  /** The queue of a well-numbered submission is sorted for each producer. */
  lemma QueueSorted(ops: seq<BusOp>)
    requires WellNumbered(ops)
    ensures AllIdentified(OpsOf(Admitted(ops, 0))) && ProducerSorted(Admitted(ops, 0))
  {
    hide WellNumbered, EnqueueValid, SlotOf, AllIdentified;
    var pending := Admitted(ops, 0);
    var q := OpsOf(pending);
    AdmittedIdentified(ops);
    AdmittedInOrder(ops);
    forall i, j | 0 <= i < j < |pending| && SlotOf(pending[i].op) == SlotOf(pending[j].op)
      ensures pending[i].op.sequence < pending[j].op.sequence && pending[i].op.reqTime <= pending[j].op.reqTime
    {
      assert SlotOf(q[i]) == SlotOf(q[j]);
      assert InOrder(q[i], q[j]);
    }
  }

  /** Each producer's admitted operations are committed in the order they were submitted, and if the arbiter had
      not already gone past them, none of them is refused as late. */
  lemma ProducerOrderKept(cfg: Config, b: BusState, p: Progress, ops: seq<BusOp>)
    requires NeverHalts(b) && WellNumbered(ops) && BatchOrderly(cfg, b, p, ops)
    ensures forall k, l :: 0 <= k < l < |CommitBatch(cfg, b, p, ops).results|
              && SlotOf(CommitBatch(cfg, b, p, ops).results[k].op) == SlotOf(CommitBatch(cfg, b, p, ops).results[l].op)
              ==> CommitBatch(cfg, b, p, ops).results[k].inputIndex < CommitBatch(cfg, b, p, ops).results[l].inputIndex
    ensures var queued := EnqueueFrom(b.(lastEnqueued := NOTHING_ENQUEUED), ops, 0).bus.trace.events;
            (forall i :: 0 <= i < |ops| && EnqueueValid(ops, i) ==> NotLate(b, ops[i]))
            ==> queued <= CommitBatch(cfg, b, p, ops).bus.trace.events
                && NoLateRefusal(CommitBatch(cfg, b, p, ops).bus.trace.events[|queued|..])
  {
    hide Drain, EnqueueFrom, WellNumbered, AllIdentified, StaysOrderly, OpsOf, ProducerSorted, EnqueueTracks, EnqueueValid, NotLate, SlotOf, NoLateRefusal;
    var b0 := b.(lastEnqueued := NOTHING_ENQUEUED);
    NothingEnqueuedTracks(b0, ops);
    EnqueueAdmits(b0, ops, 0);
    EnqueueTracksAll(b0, ops, 0);
    QueueSorted(ops);
    var queue := EnqueueFrom(b0, ops, 0);
    forall k, l | 0 <= k < l < |Drain(cfg, queue.bus, p, queue.pending).results|
                  && SlotOf(Drain(cfg, queue.bus, p, queue.pending).results[k].op) == SlotOf(Drain(cfg, queue.bus, p, queue.pending).results[l].op)
      ensures Drain(cfg, queue.bus, p, queue.pending).results[k].inputIndex < Drain(cfg, queue.bus, p, queue.pending).results[l].inputIndex
    {
      DrainKeepsProducerOrder(cfg, queue.bus, p, queue.pending, k, l);
    }
    if forall i :: 0 <= i < |ops| && EnqueueValid(ops, i) ==> NotLate(b, ops[i]) {
      forall i | 0 <= i < |queue.pending|
        ensures NotLate(queue.bus, queue.pending[i].op)
      {
        assert NotLate(b, ops[queue.pending[i].index]);
        SameLateness(b, queue.bus, queue.pending[i].op);
      }
      DrainRefusesNothingLate(cfg, queue.bus, p, queue.pending);
    }
  }

  lemma SameLateness(b: BusState, c: BusState, op: BusOp)
    requires b.lastReq == c.lastReq
    ensures NotLate(b, op) == NotLate(c, op)
  {
  }

  // ----- what an inversion does -----

  lemma AllThreeCommittable(pending: seq<Pending>)
    requires |pending| == 3
    ensures CommittableFrom(NO_PROGRESS, pending, 0) == [0, 1, 2]
  {
    assert CommittableFrom(NO_PROGRESS, pending, 3) == [];
    assert CommittableFrom(NO_PROGRESS, pending, 2) == [2];
    assert CommittableFrom(NO_PROGRESS, pending, 1) == [1, 2];
  }

  /** Inverted operations are where the order of submission matters. Handed over as [x, z, y] the arbiter takes y
      before its own producer's x; handed over as [x, y, z], which is the same for each producer, it takes z. */
  lemma InversionBreaks(cfg: Config, b: BusState, x: BusOp, y: BusOp, z: BusOp)
    requires Inverted(cfg, b, x, y, z) && !b.trace.shouldHalt
    ensures var p, q := [Pending(0, x), Pending(1, z), Pending(2, y)], [Pending(0, x), Pending(1, y), Pending(2, z)];
            && Continues(b, NO_PROGRESS, p) && p[NextOf(cfg, b, NO_PROGRESS, p)].op == y
            && Continues(b, NO_PROGRESS, q) && q[NextOf(cfg, b, NO_PROGRESS, q)].op == z
  {
    var p, q := [Pending(0, x), Pending(1, z), Pending(2, y)], [Pending(0, x), Pending(1, y), Pending(2, z)];
    InversionIsCircle(cfg, b, x, y, z);
    hide Inverted, Beats;
    AllThreeCommittable(p);
    AllThreeCommittable(q);
    BeatsNotSelf(cfg, b, x);
    var idxs := [0, 1, 2];
    assert PickFrom(cfg, b, p, idxs, 3, 2) == 2;
    assert PickFrom(cfg, b, p, idxs, 2, 1) == 2;
    assert PickFrom(cfg, b, p, idxs, 1, 0) == 2;
    assert PickFrom(cfg, b, q, idxs, 3, 2) == 2;
    assert PickFrom(cfg, b, q, idxs, 2, 0) == 2;
    assert PickFrom(cfg, b, q, idxs, 1, 0) == 2;
  }

  const RAM_CPU0 := BusOp(0, 0, 0, Read, 0x100, 4, 0, false, 0, AutoProducer, 0)
  const RAM_CPU1 := BusOp(1, 0, 0, Read, 0x200, 4, 0, false, 0, AutoProducer, 0)
  const MMIO_CPU0 := BusOp(0, 0, 1, MmioRead, 0x05F0_0010, 4, 0, false, 0, AutoProducer, 0)

  /** Under the default policy a CPU that follows a memory access with a device access is inverted around the other
      CPU's memory access: requested at the same tick and handed over in two orders that both keep CPU 0's own order,
      in one the arbiter takes CPU 0's second operation before its first, in the other CPU 1's operation goes first. */
  lemma MixedClassesMakeACycle(b: BusState, m: LatencyModel)
    requires b.lastGrantCpu == 0 && !b.trace.shouldHalt
    ensures var cfg := Config(DefaultPolicy, m);
            var p, q := [Pending(0, RAM_CPU0), Pending(1, RAM_CPU1), Pending(2, MMIO_CPU0)],
                        [Pending(0, RAM_CPU0), Pending(1, MMIO_CPU0), Pending(2, RAM_CPU1)];
            && Inverted(cfg, b, RAM_CPU0, MMIO_CPU0, RAM_CPU1)
            && Beats(cfg, b, RAM_CPU1, RAM_CPU0) && Beats(cfg, b, MMIO_CPU0, RAM_CPU1) && Beats(cfg, b, RAM_CPU0, MMIO_CPU0)
            && Continues(b, NO_PROGRESS, p) && p[NextOf(cfg, b, NO_PROGRESS, p)].op == MMIO_CPU0
            && Continues(b, NO_PROGRESS, q) && q[NextOf(cfg, b, NO_PROGRESS, q)].op == RAM_CPU1
  {
    hide NextOf, Continues;
    var cfg := Config(DefaultPolicy, m);
    InversionIsCircle(cfg, b, RAM_CPU0, MMIO_CPU0, RAM_CPU1);
    InversionBreaks(cfg, b, RAM_CPU0, MMIO_CPU0, RAM_CPU1);
  }
}
