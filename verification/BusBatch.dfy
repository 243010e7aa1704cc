/** Which operations a batch commits: everything valid below the horizon, each exactly once. */
module BusBatch {
  import opened Prelude
  import opened Bus

  // ----- facts about the scan for committable entries -----

  lemma {:induction false} CommittableFacts(p: Progress, pending: seq<Pending>, i: nat)
    requires i <= |pending|
    ensures forall k :: 0 <= k < |CommittableFrom(p, pending, i)| ==>
      CommittableFrom(p, pending, i)[k] < |pending| && Committable(p, pending[CommittableFrom(p, pending, i)[k]].op)
    ensures forall j :: i <= j < |pending| && Committable(p, pending[j].op) ==> j in CommittableFrom(p, pending, i)
    decreases |pending| - i
  {
    if i < |pending| {
      CommittableFacts(p, pending, i + 1);
    }
  }

  // ----- what is committed -----

  /** The committable entries of a list, in order. */
  function Selected(p: Progress, pending: seq<Pending>): (r: seq<Pending>)
    ensures forall e :: e in r <==> e in pending && Committable(p, e.op)
  {
    if pending == [] then []
    else if Committable(p, pending[0].op) then [pending[0]] + Selected(p, pending[1..])
    else Selected(p, pending[1..])
  }

  /** What was committed, without the responses. */
  function Entries(results: seq<CommitResult>): (r: seq<Pending>)
    ensures |r| == |results|
    ensures forall k :: 0 <= k < |results| ==> r[k] == Pending(results[k].inputIndex, results[k].op)
  {
    seq(|results|, k requires 0 <= k < |results| => Pending(results[k].inputIndex, results[k].op))
  }

  lemma {:induction false} SelectedWithout(p: Progress, pending: seq<Pending>, n: nat)
    requires n < |pending| && Committable(p, pending[n].op)
    ensures multiset(Selected(p, pending)) == multiset(Selected(p, Without(pending, n))) + multiset{pending[n]}
  {
    hide Committable;
    var rest := pending[1..];
    if n == 0 {
      assert Without(pending, 0) == rest;
    } else {
      SelectedWithout(p, rest, n - 1);
      var w := Without(pending, n);
      assert w[1..] == Without(rest, n - 1);
      assert w[0] == pending[0] && rest[n - 1] == pending[n];
    }
  }

  predicate NeverHalts(b: BusState) {
    !b.trace.haltOnFault && !b.trace.shouldHalt
  }

  lemma ExecuteNeverHalts(cfg: Config, b: BusState, op: BusOp, hadTie: bool)
    requires NeverHalts(b)
    ensures NeverHalts(Execute(cfg, b, op, hadTie).bus)
  {
  }

  lemma {:induction false} NoneCommittable(p: Progress, pending: seq<Pending>, i: nat)
    requires i <= |pending| && forall j :: i <= j < |pending| ==> !Committable(p, pending[j].op)
    ensures CommittableFrom(p, pending, i) == []
    decreases |pending| - i
  {
    hide Committable;
    if i < |pending| {
      NoneCommittable(p, pending, i + 1);
    }
  }

  lemma {:induction false} NothingToSelect(p: Progress, pending: seq<Pending>)
    requires forall j :: 0 <= j < |pending| ==> !Committable(p, pending[j].op)
    ensures Selected(p, pending) == []
  {
    hide Committable;
    if pending != [] {
      NothingToSelect(p, pending[1..]);
    }
  }

  lemma NoneSelected(p: Progress, pending: seq<Pending>)
    requires CommittableFrom(p, pending, 0) == []
    ensures Selected(p, pending) == []
  {
    hide Committable;
    CommittableFacts(p, pending, 0);
    assert forall j :: 0 <= j < |pending| ==> !Committable(p, pending[j].op);
    NothingToSelect(p, pending);
  }

  /** The batch goes on: something is committable and the trace has not halted. */
  predicate Continues(b: BusState, p: Progress, pending: seq<Pending>) {
    !b.trace.shouldHalt && CommittableFrom(p, pending, 0) != []
  }

  /** The position a continuing batch commits next. */
  function NextOf(cfg: Config, b: BusState, p: Progress, pending: seq<Pending>): (next: nat)
    requires Continues(b, p, pending)
    ensures next < |pending|
  {
    PickNext(cfg, b, pending, CommittableFrom(p, pending, 0))
  }

  function TieOf(cfg: Config, b: BusState, p: Progress, pending: seq<Pending>): bool
    requires Continues(b, p, pending)
  {
    HadTie(cfg, b, pending, CommittableFrom(p, pending, 0), NextOf(cfg, b, p, pending))
  }

  /** The operation a continuing batch commits next, carried out. */
  function Stepped(cfg: Config, b: BusState, p: Progress, pending: seq<Pending>): Executed
    requires Continues(b, p, pending)
  {
    Execute(cfg, b, pending[NextOf(cfg, b, p, pending)].op, TieOf(cfg, b, p, pending))
  }

  function ResultOf(cfg: Config, b: BusState, p: Progress, pending: seq<Pending>): CommitResult
    requires Continues(b, p, pending)
  {
    var e := pending[NextOf(cfg, b, p, pending)];
    CommitResult(e.index, e.op, Stepped(cfg, b, p, pending).response)
  }

  lemma DrainUnfolds(cfg: Config, b: BusState, p: Progress, pending: seq<Pending>)
    ensures !Continues(b, p, pending) ==> Drain(cfg, b, p, pending) == BatchOutcome(b, [])
    ensures Continues(b, p, pending) ==>
      var rest := Drain(cfg, Stepped(cfg, b, p, pending).bus, p, Without(pending, NextOf(cfg, b, p, pending)));
      && Committable(p, pending[NextOf(cfg, b, p, pending)].op)
      && Drain(cfg, b, p, pending) == BatchOutcome(rest.bus, [ResultOf(cfg, b, p, pending)] + rest.results)
  {
    CommittableFacts(p, pending, 0);
  }

  lemma NothingContinues(b: BusState, p: Progress, pending: seq<Pending>)
    requires |pending| == 0
    ensures !Continues(b, p, pending)
  {
  }

  lemma EntriesOfMore(r: CommitResult, rest: seq<CommitResult>)
    ensures Entries([r] + rest) == [Pending(r.inputIndex, r.op)] + Entries(rest)
  {
  }

  /** A batch commits only committable entries and none twice; without a halt it commits them all. */
  lemma {:induction false} DrainCommits(cfg: Config, b: BusState, p: Progress, pending: seq<Pending>)
    ensures multiset(Entries(Drain(cfg, b, p, pending).results)) <= multiset(Selected(p, pending))
    ensures NeverHalts(b) ==> multiset(Entries(Drain(cfg, b, p, pending).results)) == multiset(Selected(p, pending))
    ensures NeverHalts(b) ==> NeverHalts(Drain(cfg, b, p, pending).bus)
    decreases |pending|
  {
    hide Drain, Execute, NextOf, TieOf, Selected, Committable, Entries;
    DrainUnfolds(cfg, b, p, pending);
    if Continues(b, p, pending) {
      var next := NextOf(cfg, b, p, pending);
      var b1 := Stepped(cfg, b, p, pending).bus;
      if NeverHalts(b) {
        ExecuteNeverHalts(cfg, b, pending[next].op, TieOf(cfg, b, p, pending));
      }
      SelectedWithout(p, pending, next);
      DrainCommits(cfg, b1, p, Without(pending, next));
      EntriesOfMore(ResultOf(cfg, b, p, pending), Drain(cfg, b1, p, Without(pending, next)).results);
    } else if !b.trace.shouldHalt {
      NoneSelected(p, pending);
    }
  }

  // ----- the enqueue contract -----

  /** An operation is admitted to a batch unless its producer already asked for something later in that batch. */
  predicate EnqueueValid(ops: seq<BusOp>, i: nat)
    requires i < |ops|
  {
    forall j :: 0 <= j < i && SlotOf(ops[j]) == SlotOf(ops[i]) ==> ops[j].reqTime <= ops[i].reqTime
  }

  /** The admitted entries from position i on. */
  function Admitted(ops: seq<BusOp>, i: nat): (r: seq<Pending>)
    requires i <= |ops|
    ensures forall k :: 0 <= k < |r| ==> i <= r[k].index < |ops| && r[k].op == ops[r[k].index] && EnqueueValid(ops, r[k].index)
    ensures forall k, l :: 0 <= k < l < |r| ==> r[k].index < r[l].index
    ensures forall j :: i <= j < |ops| && EnqueueValid(ops, j) ==> Pending(j, ops[j]) in r
    decreases |ops| - i
  {
    if i == |ops| then []
    else if EnqueueValid(ops, i) then [Pending(i, ops[i])] + Admitted(ops, i + 1)
    else Admitted(ops, i + 1)
  }

  /** The remembered time of a slot is the latest one the first i operations of that slot asked for. */
  ghost predicate LatestOfSlot(last: Option<Tick>, ops: seq<BusOp>, i: nat, s: Slot)
    requires i <= |ops|
  {
    && (forall j :: 0 <= j < i && SlotOf(ops[j]) == s ==> last.Some? && ops[j].reqTime <= last.value)
    && (last.Some? ==> exists j :: 0 <= j < i && SlotOf(ops[j]) == s && ops[j].reqTime == last.value)
  }

  ghost predicate EnqueueTracks(b: BusState, ops: seq<BusOp>, i: nat)
    requires i <= |ops|
  {
    forall s :: LatestOfSlot(b.lastEnqueued.Get(s), ops, i, s)
  }

  lemma EnqueueStep(b: BusState, ops: seq<BusOp>, i: nat)
    requires i < |ops| && EnqueueTracks(b, ops, i)
    ensures EnqueueOk(b, ops[i]) == EnqueueValid(ops, i)
    ensures EnqueueTracks(Enqueue(b, ops[i]), ops, i + 1)
    ensures NeverHalts(b) ==> NeverHalts(Enqueue(b, ops[i]))
  {
    var slot := SlotOf(ops[i]);
    assert LatestOfSlot(b.lastEnqueued.Get(slot), ops, i, slot);
    var b' := Enqueue(b, ops[i]);
    forall s
      ensures LatestOfSlot(b'.lastEnqueued.Get(s), ops, i + 1, s)
    {
      assert LatestOfSlot(b.lastEnqueued.Get(s), ops, i, s);
      if s == slot && EnqueueOk(b, ops[i]) {
        assert b'.lastEnqueued.Get(s) == Some(ops[i].reqTime);
      } else {
        assert b'.lastEnqueued.Get(s) == b.lastEnqueued.Get(s);
        if b.lastEnqueued.Get(s).Some? {
          var j :| 0 <= j < i && SlotOf(ops[j]) == s && ops[j].reqTime == b.lastEnqueued.Get(s).value;
          assert 0 <= j < i + 1;
        }
      }
    }
  }

  lemma {:induction false} EnqueueAdmits(b: BusState, ops: seq<BusOp>, i: nat)
    requires i <= |ops| && EnqueueTracks(b, ops, i) && NeverHalts(b)
    ensures EnqueueFrom(b, ops, i).pending == Admitted(ops, i)
    ensures NeverHalts(EnqueueFrom(b, ops, i).bus)
    decreases |ops| - i
  {
    hide Enqueue, EnqueueOk, EnqueueValid, EnqueueTracks;
    if i < |ops| {
      EnqueueStep(b, ops, i);
      EnqueueAdmits(Enqueue(b, ops[i]), ops, i + 1);
    }
  }

  lemma NothingEnqueuedTracks(b: BusState, ops: seq<BusOp>)
    requires b.lastEnqueued == NOTHING_ENQUEUED
    ensures EnqueueTracks(b, ops, 0)
  {
  }

  // ----- the batch as a whole -----

  /** The entries a batch commits, as a reordering of the admitted ones below the horizon. */
  lemma BatchEntries(cfg: Config, b: BusState, p: Progress, ops: seq<BusOp>)
    requires NeverHalts(b)
    ensures multiset(Entries(CommitBatch(cfg, b, p, ops).results)) == multiset(Selected(p, Admitted(ops, 0)))
    ensures NeverHalts(CommitBatch(cfg, b, p, ops).bus)
  {
    hide Drain, EnqueueFrom, Entries, Selected, Admitted;
    var b0 := b.(lastEnqueued := NOTHING_ENQUEUED);
    NothingEnqueuedTracks(b0, ops);
    EnqueueAdmits(b0, ops, 0);
    var queue := EnqueueFrom(b0, ops, 0);
    DrainCommits(cfg, queue.bus, p, queue.pending);
  }

  /** Without a halt, a batch commits exactly the enqueue-valid operations below the horizon, each once. */
  lemma BatchCommitsExactly(cfg: Config, b: BusState, p: Progress, ops: seq<BusOp>)
    requires NeverHalts(b)
    ensures forall r :: r in CommitBatch(cfg, b, p, ops).results ==> r.inputIndex < |ops| && r.op == ops[r.inputIndex]
    ensures forall k, l :: 0 <= k < l < |CommitBatch(cfg, b, p, ops).results| ==>
      CommitBatch(cfg, b, p, ops).results[k].inputIndex != CommitBatch(cfg, b, p, ops).results[l].inputIndex
    ensures forall i :: 0 <= i < |ops| ==>
      ((exists r :: r in CommitBatch(cfg, b, p, ops).results && r.inputIndex == i) <==> EnqueueValid(ops, i) && Committable(p, ops[i]))
  {
    hide CommitBatch, Committable, EnqueueValid;
    BatchEntries(cfg, b, p, ops);
    ExactlySelected(p, ops, CommitBatch(cfg, b, p, ops).results);
  }

  lemma ExactlySelected(p: Progress, ops: seq<BusOp>, results: seq<CommitResult>)
    requires multiset(Entries(results)) == multiset(Selected(p, Admitted(ops, 0)))
    ensures forall r :: r in results ==> r.inputIndex < |ops| && r.op == ops[r.inputIndex]
    ensures forall k, l :: 0 <= k < l < |results| ==> results[k].inputIndex != results[l].inputIndex
    ensures forall i :: 0 <= i < |ops| ==>
      ((exists r :: r in results && r.inputIndex == i) <==> EnqueueValid(ops, i) && Committable(p, ops[i]))
  {
    hide Committable, EnqueueValid, Admitted, Selected;
    var pending := Admitted(ops, 0);
    var entries, chosen := Entries(results), Selected(p, pending);
    SameMembers(entries, chosen);
    forall r | r in results
      ensures Pending(r.inputIndex, r.op) in chosen
    {
      var k :| 0 <= k < |results| && results[k] == r;
      assert entries[k] in entries;
    }
    forall i | 0 <= i < |ops| && EnqueueValid(ops, i) && Committable(p, ops[i])
      ensures exists r :: r in results && r.inputIndex == i
    {
      assert Pending(i, ops[i]) in chosen;
      var k :| 0 <= k < |entries| && entries[k] == Pending(i, ops[i]);
      assert results[k] in results && results[k].inputIndex == i;
    }
    NoRepeats(p, pending, entries);
    forall k, l | 0 <= k < l < |results|
      ensures results[k].inputIndex != results[l].inputIndex
    {
      assert entries[k].index != entries[l].index;
    }
  }

  lemma SelectedMember(p: Progress, pending: seq<Pending>, entries: seq<Pending>, k: nat)
    requires multiset(entries) <= multiset(Selected(p, pending)) && k < |entries|
    ensures entries[k] in Selected(p, pending)
  {
    hide Selected;
    assert entries[k] in multiset(entries);
    assert entries[k] in multiset(Selected(p, pending));
  }

  /** Distinct indices stay distinct in any part of a selection, however reordered. */
  lemma NoRepeats(p: Progress, pending: seq<Pending>, entries: seq<Pending>)
    requires forall k, l :: 0 <= k < l < |pending| ==> pending[k].index < pending[l].index
    requires multiset(entries) <= multiset(Selected(p, pending))
    ensures forall k, l :: 0 <= k < l < |entries| ==> entries[k].index != entries[l].index
  {
    hide Committable;
    SelectedOnce(p, pending);
    forall k, l | 0 <= k < l < |entries|
      ensures entries[k].index != entries[l].index
    {
      if entries[k].index == entries[l].index {
        SelectedMember(p, pending, entries, k);
        SelectedMember(p, pending, entries, l);
        var x :| 0 <= x < |pending| && pending[x] == entries[k];
        var y :| 0 <= y < |pending| && pending[y] == entries[l];
        assert x == y;
        RepeatCountsTwice(entries, k, l);
        assert false;
      }
    }
  }

  lemma {:induction false} SelectedOnce(p: Progress, pending: seq<Pending>)
    requires forall k, l :: 0 <= k < l < |pending| ==> pending[k].index < pending[l].index
    ensures forall e :: multiset(Selected(p, pending))[e] <= 1
  {
    if pending != [] {
      var rest := pending[1..];
      SelectedOnce(p, rest);
      forall e
        ensures multiset(Selected(p, pending))[e] <= 1
      {
        if e == pending[0] {
          assert e !in rest;
          assert e !in Selected(p, rest);
        }
      }
    }
  }

  // ----- what stays queued -----

  function CommittedIndices(results: seq<CommitResult>): set<nat> {
    set r | r in results :: r.inputIndex
  }

  /** The operations a caller keeps for later: the input without the committed positions, in the same order. */
  function Remaining(ops: seq<BusOp>, done: set<nat>, i: nat): seq<BusOp>
    requires i <= |ops|
    decreases |ops| - i
  {
    if i == |ops| then []
    else if i in done then Remaining(ops, done, i + 1)
    else [ops[i]] + Remaining(ops, done, i + 1)
  }

  lemma {:induction false} RemainingAll(ops: seq<BusOp>, i: nat)
    requires i <= |ops|
    ensures Remaining(ops, {}, i) == ops[i..]
    decreases |ops| - i
  {
    if i < |ops| {
      RemainingAll(ops, i + 1);
    }
  }

  /** The positions from i on that were not committed, in order. */
  function Kept(n: nat, done: set<nat>, i: nat): (r: seq<nat>)
    requires i <= n
    ensures forall j :: 0 <= j < |r| ==> i <= r[j] < n && r[j] !in done
    ensures forall j, l :: 0 <= j < l < |r| ==> r[j] < r[l]
    ensures forall x :: i <= x < n && x !in done ==> x in r
    decreases n - i
  {
    if i == n then []
    else if i in done then Kept(n, done, i + 1)
    else [i] + Kept(n, done, i + 1)
  }

  lemma RemainingStep(ops: seq<BusOp>, done: set<nat>, i: nat)
    requires i < |ops|
    ensures Remaining(ops, done, i) == if i in done then Remaining(ops, done, i + 1) else [ops[i]] + Remaining(ops, done, i + 1)
    ensures Kept(|ops|, done, i) == if i in done then Kept(|ops|, done, i + 1) else [i] + Kept(|ops|, done, i + 1)
  {
  }

  lemma RemainingEnd(ops: seq<BusOp>, done: set<nat>)
    ensures Remaining(ops, done, |ops|) == [] && Kept(|ops|, done, |ops|) == []
  {
  }

  predicate PicksOut(ops: seq<BusOp>, positions: seq<nat>, picked: seq<BusOp>) {
    |picked| == |positions| && forall j :: 0 <= j < |positions| ==> positions[j] < |ops| && picked[j] == ops[positions[j]]
  }

  lemma PicksOneMore(ops: seq<BusOp>, positions: seq<nat>, picked: seq<BusOp>, i: nat)
    requires PicksOut(ops, positions, picked) && i < |ops|
    ensures PicksOut(ops, [i] + positions, [ops[i]] + picked)
  {
  }

  lemma {:induction false} RemainingIsKept(ops: seq<BusOp>, done: set<nat>, i: nat)
    requires i <= |ops|
    ensures PicksOut(ops, Kept(|ops|, done, i), Remaining(ops, done, i))
    decreases |ops| - i
  {
    hide Remaining, Kept;
    if i == |ops| {
      RemainingEnd(ops, done);
    } else {
      RemainingIsKept(ops, done, i + 1);
      RemainingStep(ops, done, i);
      hide PicksOut;
      PicksOneMore(ops, Kept(|ops|, done, i + 1), Remaining(ops, done, i + 1), i);
    }
  }

  lemma NoneCommitted(ops: seq<BusOp>)
    ensures CommittedIndices([]) == {} && Remaining(ops, CommittedIndices([]), 0) == ops
  {
    RemainingAll(ops, 0);
    assert CommittedIndices([]) == {};
  }

  lemma OneMoreCommitted(results: seq<CommitResult>, k: nat)
    requires k < |results|
    ensures CommittedIndices(results[..k + 1]) == CommittedIndices(results[..k]) + {results[k].inputIndex}
  {
    assert results[..k + 1] == results[..k] + [results[k]];
  }

  lemma OneMoreRemaining(before: seq<BusOp>, ops: seq<BusOp>, done: set<nat>, i: nat)
    requires i < |ops|
    ensures before + Remaining(ops, done, i) == (if i in done then before else before + [ops[i]]) + Remaining(ops, done, i + 1)
  {
  }

  lemma NothingRemains(before: seq<BusOp>, ops: seq<BusOp>, done: set<nat>)
    ensures before + Remaining(ops, done, |ops|) == before
  {
  }

  lemma {:induction false} RemainingPast(ops: seq<BusOp>, done: set<nat>, x: nat, i: nat)
    requires x < i <= |ops|
    ensures Remaining(ops, done + {x}, i) == Remaining(ops, done, i)
    decreases |ops| - i
  {
    hide Remaining, Kept;
    if i == |ops| {
      RemainingEnd(ops, done);
      RemainingEnd(ops, done + {x});
    } else {
      RemainingPast(ops, done, x, i + 1);
      RemainingStep(ops, done, i);
      RemainingStep(ops, done + {x}, i);
    }
  }

  lemma WithoutBehind(op: BusOp, rest: seq<BusOp>, q: nat)
    requires q < |rest|
    ensures Without([op] + rest, q + 1) == [op] + Without(rest, q) && ([op] + rest)[q + 1] == rest[q]
  {
  }

  lemma WithoutFirst(op: BusOp, rest: seq<BusOp>)
    ensures Without([op] + rest, 0) == rest
  {
  }

  /** Committing one more position takes its operation out of what remains. */
  lemma {:induction false} RemainingWithout(ops: seq<BusOp>, done: set<nat>, x: nat, i: nat) returns (p: nat)
    requires i <= x < |ops| && x !in done
    ensures p < |Remaining(ops, done, i)| && Remaining(ops, done, i)[p] == ops[x]
    ensures Remaining(ops, done + {x}, i) == Without(Remaining(ops, done, i), p)
    decreases |ops| - i
  {
    hide Remaining, Kept, Without;
    RemainingStep(ops, done, i);
    RemainingStep(ops, done + {x}, i);
    if i == x {
      RemainingPast(ops, done, x, i + 1);
      WithoutFirst(ops[x], Remaining(ops, done, i + 1));
      p := 0;
    } else {
      var q := RemainingWithout(ops, done, x, i + 1);
      WithoutBehind(ops[i], Remaining(ops, done, i + 1), q);
      p := if i in done then q else q + 1;
    }
  }

  lemma RemainingDrops(ops: seq<BusOp>, done: set<nat>, x: nat)
    requires x < |ops| && x !in done
    ensures multiset(Remaining(ops, done, 0)) == multiset(Remaining(ops, done + {x}, 0)) + multiset{ops[x]}
  {
    hide Remaining, Without;
    var p := RemainingWithout(ops, done, x, 0);
    WithoutMultiset(Remaining(ops, done, 0), p);
    assert ops[x] in multiset(Remaining(ops, done, 0));
  }

  function ResultOps(results: seq<CommitResult>): (r: seq<BusOp>)
    ensures |r| == |results|
  {
    seq(|results|, k requires 0 <= k < |results| => results[k].op)
  }

  /** The results name distinct positions of the queue, each with the operation that stands there. */
  predicate NamesPositions(ops: seq<BusOp>, results: seq<CommitResult>) {
    && (forall k :: 0 <= k < |results| ==> results[k].inputIndex < |ops| && results[k].op == ops[results[k].inputIndex])
    && forall k, l :: 0 <= k < l < |results| ==> results[k].inputIndex != results[l].inputIndex
  }

  lemma OneMoreResult(init: seq<CommitResult>, r: CommitResult)
    ensures CommittedIndices(init + [r]) == CommittedIndices(init) + {r.inputIndex}
    ensures multiset(ResultOps(init + [r])) == multiset(ResultOps(init)) + multiset{r.op}
  {
    assert ResultOps(init + [r]) == ResultOps(init) + [r.op];
  }

  lemma NamesFewer(ops: seq<BusOp>, init: seq<CommitResult>, r: CommitResult)
    requires NamesPositions(ops, init + [r])
    ensures NamesPositions(ops, init) && r.inputIndex < |ops| && r.op == ops[r.inputIndex] && r.inputIndex !in CommittedIndices(init)
  {
    var all := init + [r];
    assert all[|init|] == r;
    assert forall k :: 0 <= k < |init| ==> all[k] == init[k];
  }

  lemma NothingResulted(ops: seq<BusOp>)
    ensures multiset(ResultOps([])) + multiset(Remaining(ops, CommittedIndices([]), 0)) == multiset(ops)
  {
    RemainingAll(ops, 0);
    assert CommittedIndices([]) == {};
    assert ops[0..] == ops;
  }

  lemma {:induction false} NothingLost(ops: seq<BusOp>, results: seq<CommitResult>)
    requires NamesPositions(ops, results)
    ensures multiset(ResultOps(results)) + multiset(Remaining(ops, CommittedIndices(results), 0)) == multiset(ops)
  {
    hide *;
    if results == [] {
      NothingResulted(ops);
    } else {
      var init, r := results[..|results| - 1], results[|results| - 1];
      assert results == init + [r];
      NamesFewer(ops, init, r);
      NothingLost(ops, init);
      OneMoreResult(init, r);
      RemainingDrops(ops, CommittedIndices(init), r.inputIndex);
    }
  }

  /** A queue split in two: the results name distinct positions and their own operations, the remaining operations are
      the other positions in their original order, and together they are the queue. */
  ghost predicate Splits(ops: seq<BusOp>, results: seq<CommitResult>, remaining: seq<BusOp>) {
    var kept := Kept(|ops|, CommittedIndices(results), 0);
    && NamesPositions(ops, results) && PicksOut(ops, kept, remaining)
    && multiset(ResultOps(results)) + multiset(remaining) == multiset(ops)
  }

  /** Whatever the queue of a batch holds, entries keep their positions and stay in order. */
  lemma {:induction false} QueueFacts(b: BusState, ops: seq<BusOp>, i: nat)
    requires i <= |ops|
    ensures var queue := EnqueueFrom(b, ops, i);
            && queue.bus.lastGrantCpu == b.lastGrantCpu
            && (forall k :: 0 <= k < |queue.pending| ==> i <= queue.pending[k].index < |ops| && queue.pending[k].op == ops[queue.pending[k].index])
            && (forall k, l :: 0 <= k < l < |queue.pending| ==> queue.pending[k].index < queue.pending[l].index)
    decreases |ops| - i
  {
    hide EnqueueOk;
    if i < |ops| {
      QueueFacts(Enqueue(b, ops[i]), ops, i + 1);
    }
  }

  /** A batch names distinct positions and their own operations, even when a fault halts it half-way. */
  lemma BatchNamesPositions(cfg: Config, b: BusState, p: Progress, ops: seq<BusOp>)
    ensures NamesPositions(ops, CommitBatch(cfg, b, p, ops).results)
  {
    hide Drain, EnqueueFrom, Committable;
    var b0 := b.(lastEnqueued := NOTHING_ENQUEUED);
    QueueFacts(b0, ops, 0);
    var queue := EnqueueFrom(b0, ops, 0);
    DrainCommits(cfg, queue.bus, p, queue.pending);
    var results := Drain(cfg, queue.bus, p, queue.pending).results;
    var entries := Entries(results);
    NoRepeats(p, queue.pending, entries);
    forall k | 0 <= k < |results|
      ensures results[k].inputIndex < |ops| && results[k].op == ops[results[k].inputIndex]
    {
      SelectedMember(p, queue.pending, entries, k);
      assert entries[k] in queue.pending;
    }
    assert forall k :: 0 <= k < |results| ==> entries[k].index == results[k].inputIndex;
  }

  /** A queue is always split in two, what was committed and what remains, halt or no halt. */
  lemma PendingSplits(cfg: Config, b: BusState, p: Progress, ops: seq<BusOp>)
    ensures var results := CommitBatch(cfg, b, p, ops).results;
            Splits(ops, results, Remaining(ops, CommittedIndices(results), 0))
  {
    hide CommitBatch, NamesPositions;
    var results := CommitBatch(cfg, b, p, ops).results;
    BatchNamesPositions(cfg, b, p, ops);
    RemainingIsKept(ops, CommittedIndices(results), 0);
    NothingLost(ops, results);
  }
}
