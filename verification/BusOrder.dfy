/** Arbitration does not depend on the order in which producers happened to submit, and never reorders one producer. */
module BusOrder {
  import opened Prelude
  import opened Bus
  import opened BusBatch

  function OpsOf(pending: seq<Pending>): (r: seq<BusOp>)
    ensures |r| == |pending| && forall i :: 0 <= i < |r| ==> r[i] == pending[i].op
  {
    seq(|pending|, i requires 0 <= i < |pending| => pending[i].op)
  }

  // ----- when the tie-break is an order -----

  /** Two operations the arbiter can tell apart: by sequence number within a producer, by CPU number between producers. */
  predicate Identified(x: BusOp, y: BusOp) {
    if SlotOf(x) == SlotOf(y) then x.sequence != y.sequence else x.cpuId != y.cpuId
  }

  predicate AllIdentified(ops: seq<BusOp>) {
    forall i, j :: 0 <= i < |ops| && 0 <= j < |ops| && i != j ==> Identified(ops[i], ops[j])
  }

  /** Where a CPU number stands in the rotation: DMA before the CPU whose turn it is before the other one. */
  function Rank(turn: int, cpuId: int): int {
    if !IsCpu(cpuId) then cpuId else if cpuId == turn then 0 else 1
  }

  /** How operations of different producers compare when they could start at the same tick. */
  predicate Outranks(cfg: Config, turn: int, x: BusOp, y: BusOp) {
    cfg.policy(x) > cfg.policy(y) || (cfg.policy(x) == cfg.policy(y) && Rank(turn, x.cpuId) < Rank(turn, y.cpuId))
  }

  /** A producer's later operation outranks another producer's, which in turn outranks the first producer's earlier one. */
  predicate Straddled(cfg: Config, turn: int, x: BusOp, y: BusOp, z: BusOp) {
    && SlotOf(x) == SlotOf(y) && SlotOf(z) != SlotOf(x) && x.sequence < y.sequence
    && Outranks(cfg, turn, y, z) && Outranks(cfg, turn, z, x)
  }

  /** The same with all three able to start at the same tick: the tie-break runs in a circle. */
  predicate Inverted(cfg: Config, b: BusState, x: BusOp, y: BusOp, z: BusOp) {
    StartOf(b, x) == StartOf(b, y) == StartOf(b, z) && Straddled(cfg, Preferred(b), x, y, z)
  }

  predicate NoInversion(cfg: Config, b: BusState, ops: seq<BusOp>) {
    forall i, j, k :: 0 <= i < |ops| && 0 <= j < |ops| && 0 <= k < |ops| ==> !Inverted(cfg, b, ops[i], ops[j], ops[k])
  }

  predicate Transitive(cfg: Config, b: BusState, ops: seq<BusOp>) {
    forall i, j, k :: 0 <= i < |ops| && 0 <= j < |ops| && 0 <= k < |ops| && Beats(cfg, b, ops[i], ops[j]) && Beats(cfg, b, ops[j], ops[k])
      ==> Beats(cfg, b, ops[i], ops[k])
  }

  lemma BeatsIs(cfg: Config, b: BusState, x: BusOp, y: BusOp)
    requires Identified(x, y)
    ensures Beats(cfg, b, x, y) ==
      if StartOf(b, x) != StartOf(b, y) then StartOf(b, x) < StartOf(b, y)
      else if SlotOf(x) == SlotOf(y) then x.sequence < y.sequence
      else Outranks(cfg, Preferred(b), x, y)
  {
    hide SlotOf, StartOf;
  }

  /** Of two producers' operations that start together, exactly one outranks the other. */
  lemma OneOutranks(cfg: Config, turn: int, x: BusOp, y: BusOp)
    requires x.cpuId != y.cpuId && IsCpu(turn)
    ensures Outranks(cfg, turn, x, y) != Outranks(cfg, turn, y, x)
  {
  }

  /** Exactly one of two identified operations wins. */
  lemma OneWins(cfg: Config, b: BusState, ops: seq<BusOp>, i: nat, j: nat)
    requires AllIdentified(ops) && i < |ops| && j < |ops| && i != j
    ensures Beats(cfg, b, ops[i], ops[j]) != Beats(cfg, b, ops[j], ops[i])
  {
    hide Beats, SlotOf, Outranks;
    assert Identified(ops[i], ops[j]) && Identified(ops[j], ops[i]);
    BeatsIs(cfg, b, ops[i], ops[j]);
    BeatsIs(cfg, b, ops[j], ops[i]);
    if SlotOf(ops[i]) != SlotOf(ops[j]) {
      OneOutranks(cfg, Preferred(b), ops[i], ops[j]);
    }
  }

  lemma OutranksComposes(cfg: Config, turn: int, x: BusOp, y: BusOp, z: BusOp)
    requires Outranks(cfg, turn, x, y) && Outranks(cfg, turn, y, z)
    ensures Outranks(cfg, turn, x, z)
  {
  }

  /** Three operations that beat each other in a row either compose or are inverted. */
  lemma WinsComposeOrInvert(cfg: Config, b: BusState, x: BusOp, y: BusOp, z: BusOp)
    requires Identified(x, y) && Identified(y, z) && Identified(x, z)
    requires Beats(cfg, b, x, y) && Beats(cfg, b, y, z)
    ensures Beats(cfg, b, x, z) || Inverted(cfg, b, z, x, y) || Inverted(cfg, b, x, y, z) || Inverted(cfg, b, y, z, x)
  {
    hide Beats, SlotOf, Outranks, StartOf;
    var turn := Preferred(b);
    BeatsIs(cfg, b, x, y);
    BeatsIs(cfg, b, y, z);
    BeatsIs(cfg, b, x, z);
    if SlotOf(x) != SlotOf(z) {
      OneOutranks(cfg, turn, x, z);
    }
    if Outranks(cfg, turn, x, y) && Outranks(cfg, turn, y, z) {
      OutranksComposes(cfg, turn, x, y, z);
    }
  }

  /** ... and winning is transitive while nothing is inverted. */
  lemma WinsCompose(cfg: Config, b: BusState, ops: seq<BusOp>, i: nat, j: nat, k: nat)
    requires AllIdentified(ops) && NoInversion(cfg, b, ops) && i < |ops| && j < |ops| && k < |ops|
    requires Beats(cfg, b, ops[i], ops[j]) && Beats(cfg, b, ops[j], ops[k])
    ensures Beats(cfg, b, ops[i], ops[k])
  {
    BeatsNotSelf(cfg, b, ops[i]);
    BeatsNotSelf(cfg, b, ops[k]);
    hide Beats, Identified, Inverted;
    if i == k {
      OneWins(cfg, b, ops, i, j);
    } else {
      assert Identified(ops[i], ops[j]) && Identified(ops[j], ops[k]) && Identified(ops[i], ops[k]);
      WinsComposeOrInvert(cfg, b, ops[i], ops[j], ops[k]);
      assert !Inverted(cfg, b, ops[k], ops[i], ops[j]) && !Inverted(cfg, b, ops[i], ops[j], ops[k]) && !Inverted(cfg, b, ops[j], ops[k], ops[i]);
    }
  }

  lemma BeatsNotSelf(cfg: Config, b: BusState, x: BusOp)
    ensures !Beats(cfg, b, x, x)
  {
  }

  /** An inversion is a circle: the earlier operation beats the later one of its producer, which beats the other
      producer's, which beats the earlier one. */
  lemma InversionIsCircle(cfg: Config, b: BusState, x: BusOp, y: BusOp, z: BusOp)
    requires Inverted(cfg, b, x, y, z)
    ensures Beats(cfg, b, x, y) && Beats(cfg, b, y, z) && Beats(cfg, b, z, x) && !Beats(cfg, b, y, x)
  {
    hide SlotOf, StartOf;
  }

  /** The tie-break is transitive on identified operations exactly when none of them are inverted. */
  lemma TransitiveExactly(cfg: Config, b: BusState, ops: seq<BusOp>)
    requires AllIdentified(ops)
    ensures Transitive(cfg, b, ops) <==> NoInversion(cfg, b, ops)
  {
    hide Beats, Inverted, Identified;
    if NoInversion(cfg, b, ops) {
      forall i, j, k | 0 <= i < |ops| && 0 <= j < |ops| && 0 <= k < |ops| && Beats(cfg, b, ops[i], ops[j]) && Beats(cfg, b, ops[j], ops[k])
        ensures Beats(cfg, b, ops[i], ops[k])
      {
        WinsCompose(cfg, b, ops, i, j, k);
      }
    } else {
      var i, j, k :| 0 <= i < |ops| && 0 <= j < |ops| && 0 <= k < |ops| && Inverted(cfg, b, ops[i], ops[j], ops[k]);
      InversionIsCircle(cfg, b, ops[i], ops[j], ops[k]);
    }
  }

  // ----- what decides between operations that are not identified -----

  /** By start, then by sequence number, then by request time. */
  predicate Earlier(b: BusState, x: BusOp, y: BusOp) {
    var sx, sy := Max(x.reqTime, b.freeTime), Max(y.reqTime, b.freeTime);
    sx < sy || (sx == sy && (x.sequence < y.sequence || (x.sequence == y.sequence && x.reqTime < y.reqTime)))
  }

  lemma {:induction false} PickFromEarliest(cfg: Config, b: BusState, pending: seq<Pending>, idxs: seq<nat>, k: nat, best: nat)
    requires k <= |idxs| && best < |pending| && forall j :: 0 <= j < |idxs| ==> idxs[j] < |pending|
    requires forall i, j :: 0 <= i < |pending| && 0 <= j < |pending| ==> SlotOf(pending[i].op) == SlotOf(pending[j].op)
    ensures var r := PickFrom(cfg, b, pending, idxs, k, best);
            && r < |pending| && !Earlier(b, pending[best].op, pending[r].op)
            && forall j :: k <= j < |idxs| ==> !Earlier(b, pending[idxs[j]].op, pending[r].op)
    decreases |idxs| - k
  {
    hide SlotOf;
    if k < |idxs| {
      PickFromEarliest(cfg, b, pending, idxs, k + 1, if Beats(cfg, b, pending[idxs[k]].op, pending[best].op) then idxs[k] else best);
    }
  }

  /** One producer's operations are taken by start, sequence number and request time, whatever the policy says. */
  lemma OneProducerEarliest(cfg: Config, b: BusState, p: Progress, pending: seq<Pending>, i: nat)
    requires Continues(b, p, pending) && i < |pending| && Committable(p, pending[i].op)
    requires forall i, j :: 0 <= i < |pending| && 0 <= j < |pending| ==> SlotOf(pending[i].op) == SlotOf(pending[j].op)
    ensures !Earlier(b, pending[i].op, pending[NextOf(cfg, b, p, pending)].op)
  {
    hide Beats, SlotOf, Earlier;
    var idxs := CommittableFrom(p, pending, 0);
    CommittableFacts(p, pending, 0);
    PickFromEarliest(cfg, b, pending, idxs, 0, idxs[0]);
    var j :| 0 <= j < |idxs| && idxs[j] == i;
  }

  /** Two operations of different producers with one CPU number, class and start go by sequence number, then by position. */
  lemma LastResort(cfg: Config, b: BusState, x: BusOp, y: BusOp)
    requires !b.trace.shouldHalt && SlotOf(x) != SlotOf(y) && x.cpuId == y.cpuId && cfg.policy(x) == cfg.policy(y)
    requires Max(x.reqTime, b.freeTime) == Max(y.reqTime, b.freeTime)
    ensures var queue := [Pending(0, x), Pending(1, y)];
            Continues(b, NO_PROGRESS, queue) && NextOf(cfg, b, NO_PROGRESS, queue) == if y.sequence < x.sequence then 1 else 0
  {
    hide SlotOf;
    var queue := [Pending(0, x), Pending(1, y)];
    assert CommittableFrom(NO_PROGRESS, queue, 2) == [];
    assert CommittableFrom(NO_PROGRESS, queue, 1) == [1];
    var idxs := [0, 1];
    assert CommittableFrom(NO_PROGRESS, queue, 0) == idxs;
    assert PickFrom(cfg, b, queue, idxs, 2, 0) == 0 && PickFrom(cfg, b, queue, idxs, 2, 1) == 1;
    assert PickFrom(cfg, b, queue, idxs, 0, 0) == PickFrom(cfg, b, queue, idxs, 1, 0);
  }

  // ----- conditions on the classes alone -----

  /** Whoever's turn it is, no producer's operations straddle another's in class. */
  predicate NeverStraddled(cfg: Config, ops: seq<BusOp>) {
    forall turn, i, j, k :: 0 <= turn < 2 && 0 <= i < |ops| && 0 <= j < |ops| && 0 <= k < |ops| ==>
      !Straddled(cfg, turn, ops[i], ops[j], ops[k])
  }

  lemma NeverStraddledNoInversion(cfg: Config, b: BusState, ops: seq<BusOp>)
    requires NeverStraddled(cfg, ops)
    ensures NoInversion(cfg, b, ops)
  {
    hide Straddled, StartOf;
  }

  /** One CPU number and one class per producer rule straddling out ... */
  lemma OneClassNeverStraddled(cfg: Config, ops: seq<BusOp>)
    requires forall x, y :: x in ops && y in ops && SlotOf(x) == SlotOf(y) ==> x.cpuId == y.cpuId && cfg.policy(x) == cfg.policy(y)
    ensures NeverStraddled(cfg, ops)
  {
    hide SlotOf;
  }

  /** ... and so does having a single producer. */
  lemma OneProducerNeverStraddled(cfg: Config, ops: seq<BusOp>)
    requires forall x, y :: x in ops && y in ops ==> SlotOf(x) == SlotOf(y)
    ensures NeverStraddled(cfg, ops)
  {
    hide SlotOf, Outranks;
  }

  // ----- the scan finds the best -----

  lemma {:induction false} PickFromUnbeaten(cfg: Config, b: BusState, pending: seq<Pending>, idxs: seq<nat>, k: nat, best: nat)
    requires k <= |idxs| && best < |pending| && AllIdentified(OpsOf(pending)) && NoInversion(cfg, b, OpsOf(pending))
    requires forall j :: 0 <= j < |idxs| ==> idxs[j] < |pending|
    ensures var r := PickFrom(cfg, b, pending, idxs, k, best);
            && r < |pending|
            && !Beats(cfg, b, pending[best].op, pending[r].op)
            && forall j :: k <= j < |idxs| ==> !Beats(cfg, b, pending[idxs[j]].op, pending[r].op)
    decreases |idxs| - k
  {
    hide AllIdentified, NoInversion;
    if k < |idxs| {
      var ops := OpsOf(pending);
      var cand := idxs[k];
      var best' := if Beats(cfg, b, pending[cand].op, pending[best].op) then cand else best;
      PickFromUnbeaten(cfg, b, pending, idxs, k + 1, best');
      var r := PickFrom(cfg, b, pending, idxs, k, best);
      hide Beats;
      if best' == cand && Beats(cfg, b, ops[best], ops[r]) {
        WinsCompose(cfg, b, ops, cand, best, r);
      } else if best' == best && Beats(cfg, b, ops[cand], ops[r]) {
        if r != best {
          OneWins(cfg, b, ops, r, best);
          WinsCompose(cfg, b, ops, cand, r, best);
        }
      }
    } else {
      BeatsNotSelf(cfg, b, pending[best].op);
    }
  }

  /** Nothing committable beats the operation a batch commits next. */
  lemma NextUnbeaten(cfg: Config, b: BusState, p: Progress, pending: seq<Pending>, i: nat)
    requires Continues(b, p, pending) && AllIdentified(OpsOf(pending)) && NoInversion(cfg, b, OpsOf(pending))
    requires i < |pending| && Committable(p, pending[i].op)
    ensures !Beats(cfg, b, pending[i].op, pending[NextOf(cfg, b, p, pending)].op)
  {
    hide Beats, AllIdentified, NoInversion;
    var idxs := CommittableFrom(p, pending, 0);
    CommittableFacts(p, pending, 0);
    PickFromUnbeaten(cfg, b, pending, idxs, 0, idxs[0]);
    var j :| 0 <= j < |idxs| && idxs[j] == i;
  }

  /** Nothing is inverted at any bus the queue drains through. */
  ghost predicate StaysOrderly(cfg: Config, b: BusState, p: Progress, pending: seq<Pending>)
    decreases |pending|
  {
    && NoInversion(cfg, b, OpsOf(pending))
    && (Continues(b, p, pending) ==>
         StaysOrderly(cfg, Stepped(cfg, b, p, pending).bus, p, Without(pending, NextOf(cfg, b, p, pending))))
  }

  lemma WithoutOps(pending: seq<Pending>, n: nat)
    requires n < |pending|
    ensures OpsOf(Without(pending, n)) == Without(OpsOf(pending), n)
    ensures multiset(OpsOf(Without(pending, n))) == multiset(OpsOf(pending)) - multiset{pending[n].op}
  {
    WithoutMultiset(OpsOf(pending), n);
  }

  lemma WithoutIdentified(pending: seq<Pending>, n: nat)
    requires n < |pending| && AllIdentified(OpsOf(pending))
    ensures AllIdentified(OpsOf(Without(pending, n)))
  {
    hide Identified;
    var ops, rest := OpsOf(pending), OpsOf(Without(pending, n));
    forall i, j | 0 <= i < |rest| && 0 <= j < |rest| && i != j
      ensures Identified(rest[i], rest[j])
    {
      var i', j' := if i < n then i else i + 1, if j < n then j else j + 1;
      assert rest[i] == ops[i'] && rest[j] == ops[j'];
    }
  }

  lemma FewerNeverStraddled(cfg: Config, ops: seq<BusOp>, fewer: seq<BusOp>)
    requires NeverStraddled(cfg, ops) && forall x :: x in fewer ==> x in ops
    ensures NeverStraddled(cfg, fewer)
  {
    hide Straddled;
    forall turn, i, j, k | 0 <= turn < 2 && 0 <= i < |fewer| && 0 <= j < |fewer| && 0 <= k < |fewer|
      ensures !Straddled(cfg, turn, fewer[i], fewer[j], fewer[k])
    {
      assert fewer[i] in ops && fewer[j] in ops && fewer[k] in ops;
      var i' :| 0 <= i' < |ops| && ops[i'] == fewer[i];
      var j' :| 0 <= j' < |ops| && ops[j'] == fewer[j];
      var k' :| 0 <= k' < |ops| && ops[k'] == fewer[k];
    }
  }

  /** If the classes never straddle, the queue drains without an inversion, whatever the bus. */
  lemma {:induction false} NeverStraddledStaysOrderly(cfg: Config, b: BusState, p: Progress, pending: seq<Pending>)
    requires NeverStraddled(cfg, OpsOf(pending))
    ensures StaysOrderly(cfg, b, p, pending)
    decreases |pending|
  {
    hide NeverStraddled, NoInversion, Execute, NextOf, TieOf, Continues;
    NeverStraddledNoInversion(cfg, b, OpsOf(pending));
    if Continues(b, p, pending) {
      var next := NextOf(cfg, b, p, pending);
      var rest := Without(pending, next);
      WithoutOps(pending, next);
      forall x | x in OpsOf(rest)
        ensures x in OpsOf(pending)
      {
        assert x in multiset(OpsOf(rest));
      }
      FewerNeverStraddled(cfg, OpsOf(pending), OpsOf(rest));
      NeverStraddledStaysOrderly(cfg, Stepped(cfg, b, p, pending).bus, p, rest);
    }
  }

  // ----- a batch depends only on which operations are queued -----

  /** The commits of a batch, without the positions the caller used. */
  function Replies(results: seq<CommitResult>): (r: seq<(BusOp, Response)>)
    ensures |r| == |results|
  {
    seq(|results|, k requires 0 <= k < |results| => (results[k].op, results[k].response))
  }

  lemma RepliesOfMore(r: CommitResult, rest: seq<CommitResult>)
    ensures Replies([r] + rest) == [(r.op, r.response)] + Replies(rest)
  {
  }

  lemma SamePlace(p: seq<Pending>, q: seq<Pending>, i: nat) returns (j: nat)
    requires multiset(OpsOf(p)) == multiset(OpsOf(q)) && i < |p|
    ensures j < |q| && q[j].op == p[i].op
  {
    SameMembers(OpsOf(p), OpsOf(q));
    assert OpsOf(p)[i] in OpsOf(p);
    j :| 0 <= j < |OpsOf(q)| && OpsOf(q)[j] == p[i].op;
  }

  lemma ContinuesTransfers(b: BusState, prog: Progress, p: seq<Pending>, q: seq<Pending>)
    requires multiset(OpsOf(p)) == multiset(OpsOf(q)) && Continues(b, prog, p)
    ensures Continues(b, prog, q)
  {
    CommittableFacts(prog, p, 0);
    CommittableFacts(prog, q, 0);
    var j := SamePlace(p, q, CommittableFrom(prog, p, 0)[0]);
    assert j in CommittableFrom(prog, q, 0);
  }

  lemma SameChoice(cfg: Config, b: BusState, prog: Progress, p: seq<Pending>, q: seq<Pending>)
    requires multiset(OpsOf(p)) == multiset(OpsOf(q)) && Continues(b, prog, p) && Continues(b, prog, q)
    requires AllIdentified(OpsOf(p)) && AllIdentified(OpsOf(q)) && NoInversion(cfg, b, OpsOf(p))
    ensures p[NextOf(cfg, b, prog, p)].op == q[NextOf(cfg, b, prog, q)].op
  {
    hide Beats, AllIdentified, NoInversion, NextOf, Committable;
    NoInversionTransfers(cfg, b, OpsOf(p), OpsOf(q));
    DrainUnfolds(cfg, b, prog, p);
    DrainUnfolds(cfg, b, prog, q);
    var n, m := NextOf(cfg, b, prog, p), NextOf(cfg, b, prog, q);
    var x, y := p[n].op, q[m].op;
    if x != y {
      var n' := SamePlace(p, q, n);
      var m' := SamePlace(q, p, m);
      NextUnbeaten(cfg, b, prog, q, n');
      NextUnbeaten(cfg, b, prog, p, m');
      OneWins(cfg, b, OpsOf(p), n, m');
      assert false;
    }
  }

  lemma TieTransfers(cfg: Config, b: BusState, prog: Progress, p: seq<Pending>, q: seq<Pending>)
    requires multiset(OpsOf(p)) == multiset(OpsOf(q)) && Continues(b, prog, p) && Continues(b, prog, q)
    requires AllIdentified(OpsOf(p))
    requires p[NextOf(cfg, b, prog, p)].op == q[NextOf(cfg, b, prog, q)].op
    requires TieOf(cfg, b, prog, p)
    ensures TieOf(cfg, b, prog, q)
  {
    hide AllIdentified, NextOf, Committable;
    var openP, openQ := CommittableFrom(prog, p, 0), CommittableFrom(prog, q, 0);
    CommittableFacts(prog, p, 0);
    CommittableFacts(prog, q, 0);
    var n, m := NextOf(cfg, b, prog, p), NextOf(cfg, b, prog, q);
    var a :| 0 <= a < |openP| && openP[a] != n && Ties(cfg, b, p[openP[a]].op, p[n].op);
    OneWins(cfg, b, OpsOf(p), openP[a], n);
    var j := SamePlace(p, q, openP[a]);
    assert j in openQ && j != m;
    var c :| 0 <= c < |openQ| && openQ[c] == j;
    assert Ties(cfg, b, q[openQ[c]].op, q[m].op);
  }

  lemma NoInversionTransfers(cfg: Config, b: BusState, ops: seq<BusOp>, other: seq<BusOp>)
    requires multiset(ops) == multiset(other) && NoInversion(cfg, b, ops)
    ensures NoInversion(cfg, b, other)
  {
    hide Inverted;
    SameMembers(ops, other);
    forall i, j, k | 0 <= i < |other| && 0 <= j < |other| && 0 <= k < |other|
      ensures !Inverted(cfg, b, other[i], other[j], other[k])
    {
      assert other[i] in ops && other[j] in ops && other[k] in ops;
      var i' :| 0 <= i' < |ops| && ops[i'] == other[i];
      var j' :| 0 <= j' < |ops| && ops[j'] == other[j];
      var k' :| 0 <= k' < |ops| && ops[k'] == other[k];
    }
  }

  /** Two queues holding the same operations, in whatever order, drain to the same commits and the same state. */
  lemma {:induction false} DrainPermutes(cfg: Config, b: BusState, prog: Progress, p: seq<Pending>, q: seq<Pending>)
    requires multiset(OpsOf(p)) == multiset(OpsOf(q))
    requires AllIdentified(OpsOf(p)) && AllIdentified(OpsOf(q)) && StaysOrderly(cfg, b, prog, p)
    ensures Drain(cfg, b, prog, p).bus == Drain(cfg, b, prog, q).bus
    ensures Replies(Drain(cfg, b, prog, p).results) == Replies(Drain(cfg, b, prog, q).results)
    decreases |p|
  {
    hide Drain, Execute, NextOf, TieOf, Committable, AllIdentified, NoInversion, Replies, Continues;
    DrainUnfolds(cfg, b, prog, p);
    DrainUnfolds(cfg, b, prog, q);
    if Continues(b, prog, p) {
      ContinuesTransfers(b, prog, p, q);
      SameChoice(cfg, b, prog, p, q);
      SameTie(cfg, b, prog, p, q);
      var n, m := NextOf(cfg, b, prog, p), NextOf(cfg, b, prog, q);
      WithoutOps(p, n);
      WithoutOps(q, m);
      WithoutIdentified(p, n);
      WithoutIdentified(q, m);
      var b1 := Stepped(cfg, b, prog, p).bus;
      DrainPermutes(cfg, b1, prog, Without(p, n), Without(q, m));
      RepliesOfMore(ResultOf(cfg, b, prog, p), Drain(cfg, b1, prog, Without(p, n)).results);
      RepliesOfMore(ResultOf(cfg, b, prog, q), Drain(cfg, b1, prog, Without(q, m)).results);
    } else if Continues(b, prog, q) {
      ContinuesTransfers(b, prog, q, p);
    }
  }

  lemma SameTie(cfg: Config, b: BusState, prog: Progress, p: seq<Pending>, q: seq<Pending>)
    requires multiset(OpsOf(p)) == multiset(OpsOf(q)) && Continues(b, prog, p) && Continues(b, prog, q)
    requires AllIdentified(OpsOf(p)) && AllIdentified(OpsOf(q))
    requires p[NextOf(cfg, b, prog, p)].op == q[NextOf(cfg, b, prog, q)].op
    ensures TieOf(cfg, b, prog, p) == TieOf(cfg, b, prog, q)
  {
    hide *;
    if TieOf(cfg, b, prog, p) {
      TieTransfers(cfg, b, prog, p, q);
    }
    if TieOf(cfg, b, prog, q) {
      TieTransfers(cfg, b, prog, q, p);
    }
  }

  // ----- producer streams -----

  /** What one producer submitted, in its own order. */
  function Stream(ops: seq<BusOp>, s: Slot): (r: seq<BusOp>)
    ensures forall x :: x in r <==> x in ops && SlotOf(x) == s
  {
    if ops == [] then []
    else
      var init, last := ops[..|ops| - 1], ops[|ops| - 1];
      assert ops == init + [last];
      if SlotOf(last) == s then Stream(init, s) + [last] else Stream(init, s)
  }

  /** The part of a stream that is not asked for earlier than something before it. */
  function Nondecreasing(stream: seq<BusOp>): (r: seq<BusOp>)
    ensures forall x :: x in r ==> x in stream
  {
    if stream == [] then []
    else
      var init, last := stream[..|stream| - 1], stream[|stream| - 1];
      if forall x :: x in init ==> x.reqTime <= last.reqTime then Nondecreasing(init) + [last] else Nondecreasing(init)
  }

  /** Each producer numbers its operations upwards. */
  predicate OrderedStream(stream: seq<BusOp>) {
    forall a, c :: 0 <= a < c < |stream| ==> stream[a].sequence < stream[c].sequence
  }

  /** Producers number their operations upwards, and different producers have different CPU numbers. */
  predicate WellNumbered(ops: seq<BusOp>) {
    && (forall s :: OrderedStream(Stream(ops, s)))
    && forall x, y :: x in ops && y in ops && SlotOf(x) != SlotOf(y) ==> x.cpuId != y.cpuId
  }

  /** Two submission orders that agree on every producer's own order. */
  predicate SameStreams(ops: seq<BusOp>, other: seq<BusOp>) {
    forall s :: Stream(ops, s) == Stream(other, s)
  }

  /** The admitted operations of a submission, in submission order. */
  function AdmittedOps(ops: seq<BusOp>): (r: seq<BusOp>)
    ensures forall x :: x in r ==> x in ops
  {
    if ops == [] then []
    else
      var init := AdmittedOps(ops[..|ops| - 1]);
      if EnqueueValid(ops, |ops| - 1) then init + [ops[|ops| - 1]] else init
  }

  lemma AdmittedPrefix(ops: seq<BusOp>, i: nat)
    requires i < |ops|
    ensures AdmittedOps(ops[..i + 1]) == if EnqueueValid(ops, i) then AdmittedOps(ops[..i]) + [ops[i]] else AdmittedOps(ops[..i])
  {
    hide SlotOf;
    var prefix := ops[..i + 1];
    assert prefix[..|prefix| - 1] == ops[..i];
    assert EnqueueValid(prefix, i) == EnqueueValid(ops, i);
  }

  lemma AdmittedRest(ops: seq<BusOp>, i: nat)
    requires i < |ops|
    ensures OpsOf(Admitted(ops, i)) == if EnqueueValid(ops, i) then [ops[i]] + OpsOf(Admitted(ops, i + 1)) else OpsOf(Admitted(ops, i + 1))
  {
    hide EnqueueValid;
  }

  lemma AdmittedEnd(ops: seq<BusOp>)
    ensures OpsOf(Admitted(ops, |ops|)) == []
  {
  }

  lemma JoinedInTheMiddle(a: seq<BusOp>, x: BusOp, b: seq<BusOp>)
    ensures a + ([x] + b) == (a + [x]) + b
  {
  }

  lemma {:induction false} AdmittedOpsAre(ops: seq<BusOp>, i: nat)
    requires i <= |ops|
    ensures AdmittedOps(ops[..i]) + OpsOf(Admitted(ops, i)) == AdmittedOps(ops)
    decreases |ops| - i
  {
    hide *;
    if i == |ops| {
      AdmittedEnd(ops);
      assert ops[..i] == ops;
    } else {
      AdmittedOpsAre(ops, i + 1);
      AdmittedPrefix(ops, i);
      AdmittedRest(ops, i);
      JoinedInTheMiddle(AdmittedOps(ops[..i]), ops[i], OpsOf(Admitted(ops, i + 1)));
    }
  }

  /** The last operation passes the enqueue contract when nothing earlier of its producer's stream is later. */
  lemma LastIsValid(ops: seq<BusOp>)
    requires ops != []
    ensures var init, last := ops[..|ops| - 1], ops[|ops| - 1];
            EnqueueValid(ops, |ops| - 1) <==> forall x :: x in Stream(init, SlotOf(last)) ==> x.reqTime <= last.reqTime
  {
    hide SlotOf;
    var init, last := ops[..|ops| - 1], ops[|ops| - 1];
    if EnqueueValid(ops, |ops| - 1) {
      forall x | x in Stream(init, SlotOf(last))
        ensures x.reqTime <= last.reqTime
      {
        var j :| 0 <= j < |init| && init[j] == x;
        assert ops[j] == x;
      }
    } else {
      var j :| 0 <= j < |ops| - 1 && SlotOf(ops[j]) == SlotOf(last) && ops[j].reqTime > last.reqTime;
      assert init[j] in init;
    }
  }

  lemma StreamSnoc(ops: seq<BusOp>, last: BusOp, s: Slot)
    ensures Stream(ops + [last], s) == if SlotOf(last) == s then Stream(ops, s) + [last] else Stream(ops, s)
  {
    hide SlotOf;
    assert (ops + [last])[..|ops + [last]| - 1] == ops;
  }

  lemma NondecreasingSnoc(stream: seq<BusOp>, last: BusOp)
    ensures Nondecreasing(stream + [last]) ==
      if forall x :: x in stream ==> x.reqTime <= last.reqTime then Nondecreasing(stream) + [last] else Nondecreasing(stream)
  {
    assert (stream + [last])[..|stream + [last]| - 1] == stream;
  }

  lemma {:induction false} AdmittedStream(ops: seq<BusOp>, s: Slot)
    ensures Stream(AdmittedOps(ops), s) == Nondecreasing(Stream(ops, s))
  {
    hide SlotOf, EnqueueValid, Stream, Nondecreasing;
    if ops == [] {
      StreamNothing(s);
    } else {
      var init, last := ops[..|ops| - 1], ops[|ops| - 1];
      assert ops == init + [last];
      AdmittedStream(init, s);
      LastIsValid(ops);
      StreamSnoc(init, last, s);
      NondecreasingSnoc(Stream(init, s), last);
      StreamSnoc(AdmittedOps(init), last, s);
    }
  }

  lemma StreamNothing(s: Slot)
    ensures Stream([], s) == [] && Nondecreasing([]) == []
  {
  }

  lemma {:induction false} StreamsMakeWhole(ops: seq<BusOp>)
    ensures multiset(ops) == multiset(Stream(ops, Cpu0Slot)) + multiset(Stream(ops, Cpu1Slot)) + multiset(Stream(ops, DmaSlot))
  {
    if ops != [] {
      var init, last := ops[..|ops| - 1], ops[|ops| - 1];
      assert ops == init + [last];
      StreamsMakeWhole(init);
    }
  }

  /** What the arbiter needs of one producer's queued operations, position by position. */
  predicate InOrder(x: BusOp, y: BusOp) {
    x.sequence < y.sequence && x.reqTime <= y.reqTime
  }

  predicate InOrderStream(stream: seq<BusOp>) {
    forall a, c :: 0 <= a < c < |stream| ==> InOrder(stream[a], stream[c])
  }

  predicate ProducersInOrder(ops: seq<BusOp>) {
    forall i, j :: 0 <= i < j < |ops| && SlotOf(ops[i]) == SlotOf(ops[j]) ==> InOrder(ops[i], ops[j])
  }

  lemma {:induction false} NondecreasingFacts(stream: seq<BusOp>)
    requires OrderedStream(stream)
    ensures InOrderStream(Nondecreasing(stream))
  {
    if stream != [] {
      var init, last := stream[..|stream| - 1], stream[|stream| - 1];
      NondecreasingFacts(init);
      if forall x :: x in init ==> x.reqTime <= last.reqTime {
        var r := Nondecreasing(init);
        forall a | 0 <= a < |r|
          ensures InOrder(r[a], last)
        {
          assert r[a] in r;
          var j :| 0 <= j < |init| && init[j] == r[a];
          assert stream[j] == init[j];
        }
      }
    }
  }

  lemma {:induction false} PositionsInOrder(ops: seq<BusOp>)
    requires forall s :: InOrderStream(Stream(ops, s))
    ensures ProducersInOrder(ops)
  {
    hide InOrder;
    if ops != [] {
      var init, last := ops[..|ops| - 1], ops[|ops| - 1];
      forall s
        ensures InOrderStream(Stream(init, s))
      {
        var whole := Stream(ops, s);
        assert InOrderStream(whole);
        assert Stream(init, s) == whole[..|Stream(init, s)|];
      }
      PositionsInOrder(init);
      forall i | 0 <= i < |init| && SlotOf(init[i]) == SlotOf(last)
        ensures InOrder(init[i], last)
      {
        LastFollows(ops, i);
      }
    }
  }

  lemma LastFollows(ops: seq<BusOp>, i: nat)
    requires i < |ops| - 1 && SlotOf(ops[i]) == SlotOf(ops[|ops| - 1])
    requires InOrderStream(Stream(ops, SlotOf(ops[i])))
    ensures InOrder(ops[i], ops[|ops| - 1])
  {
    hide InOrder;
    var init, last, s := ops[..|ops| - 1], ops[|ops| - 1], SlotOf(ops[i]);
    assert init[i] in Stream(init, s);
    var a :| 0 <= a < |Stream(init, s)| && Stream(init, s)[a] == init[i];
    var whole := Stream(ops, s);
    assert whole[a] == init[i] && whole[|whole| - 1] == last;
  }

  /** The queue of a well-numbered submission is in order for each producer ... */
  lemma AdmittedInOrder(ops: seq<BusOp>)
    requires WellNumbered(ops)
    ensures ProducersInOrder(OpsOf(Admitted(ops, 0)))
  {
    hide InOrder, Admitted, InOrderStream, OrderedStream;
    AdmittedOpsAre(ops, 0);
    var q := OpsOf(Admitted(ops, 0));
    assert AdmittedOps(ops[..0]) + q == q;
    forall s
      ensures InOrderStream(Stream(q, s))
    {
      AdmittedStream(ops, s);
      NondecreasingFacts(Stream(ops, s));
    }
    PositionsInOrder(q);
  }

  /** ... and all its operations can be told apart. */
  lemma AdmittedIdentified(ops: seq<BusOp>)
    requires WellNumbered(ops)
    ensures AllIdentified(OpsOf(Admitted(ops, 0)))
  {
    AdmittedInOrder(ops);
    var q := OpsOf(Admitted(ops, 0));
    forall i, j | 0 <= i < |q| && 0 <= j < |q| && i != j
      ensures Identified(q[i], q[j])
    {
      if SlotOf(q[i]) == SlotOf(q[j]) {
        var lo, hi := Min(i, j), Max(i, j);
        assert 0 <= lo < hi < |q| && SlotOf(q[lo]) == SlotOf(q[hi]);
        assert InOrder(q[lo], q[hi]);
      } else {
        assert q[i] == ops[Admitted(ops, 0)[i].index] && q[j] == ops[Admitted(ops, 0)[j].index];
      }
    }
  }

  lemma AdmittedMultiset(ops: seq<BusOp>, other: seq<BusOp>)
    requires SameStreams(ops, other)
    ensures multiset(OpsOf(Admitted(ops, 0))) == multiset(OpsOf(Admitted(other, 0)))
  {
    var q, r := AdmittedOps(ops), AdmittedOps(other);
    AdmittedOpsAre(ops, 0);
    AdmittedOpsAre(other, 0);
    assert AdmittedOps(ops[..0]) + OpsOf(Admitted(ops, 0)) == OpsOf(Admitted(ops, 0));
    assert AdmittedOps(other[..0]) + OpsOf(Admitted(other, 0)) == OpsOf(Admitted(other, 0));
    StreamsMakeWhole(q);
    StreamsMakeWhole(r);
    forall s
      ensures Stream(q, s) == Stream(r, s)
    {
      AdmittedStream(ops, s);
      AdmittedStream(other, s);
    }
  }

  lemma WellNumberedTransfers(ops: seq<BusOp>, other: seq<BusOp>)
    requires SameStreams(ops, other) && WellNumbered(ops)
    ensures WellNumbered(other)
  {
    forall s
      ensures OrderedStream(Stream(other, s))
    {
      assert OrderedStream(Stream(ops, s));
    }
    forall x, y | x in other && y in other && SlotOf(x) != SlotOf(y)
      ensures x.cpuId != y.cpuId
    {
      assert x in Stream(ops, SlotOf(x)) && y in Stream(ops, SlotOf(y));
    }
  }

  // ----- the trace only records -----

  function OverTrace(b: BusState, events: seq<Event>): BusState {
    b.(trace := Trace(events, false, false))
  }

  lemma {:induction false} PickIgnoresTrace(cfg: Config, b: BusState, c: BusState, pending: seq<Pending>, idxs: seq<nat>, k: nat, best: nat)
    requires k <= |idxs| && best < |pending| && OverTrace(b, []) == OverTrace(c, [])
    requires forall j :: 0 <= j < |idxs| ==> idxs[j] < |pending|
    ensures PickFrom(cfg, b, pending, idxs, k, best) == PickFrom(cfg, c, pending, idxs, k, best)
    decreases |idxs| - k
  {
    if k < |idxs| {
      PickIgnoresTrace(cfg, b, c, pending, idxs, k + 1, if Beats(cfg, b, pending[idxs[k]].op, pending[best].op) then idxs[k] else best);
    }
  }

  lemma ChoiceIgnoresTrace(cfg: Config, b: BusState, c: BusState, p: Progress, pending: seq<Pending>)
    requires OverTrace(b, []) == OverTrace(c, []) && Continues(b, p, pending) && Continues(c, p, pending)
    ensures NextOf(cfg, b, p, pending) == NextOf(cfg, c, p, pending)
    ensures TieOf(cfg, b, p, pending) == TieOf(cfg, c, p, pending)
  {
    var idxs := CommittableFrom(p, pending, 0);
    PickIgnoresTrace(cfg, b, c, pending, idxs, 0, idxs[0]);
    var next := NextOf(cfg, b, p, pending);
    assert forall j :: 0 <= j < |idxs| ==>
      (Ties(cfg, b, pending[idxs[j]].op, pending[next].op) <==> Ties(cfg, c, pending[idxs[j]].op, pending[next].op));
  }

  lemma ExecuteOverTrace(cfg: Config, b: BusState, op: BusOp, hadTie: bool)
    requires NeverHalts(b)
    ensures var quiet := Execute(cfg, OverTrace(b, []), op, hadTie);
            && NeverHalts(quiet.bus)
            && Execute(cfg, b, op, hadTie) == Executed(OverTrace(quiet.bus, b.trace.events + quiet.bus.trace.events), quiet.response)
  {
    hide ValueOf, RamAfter, DevAfter, LatencyOf, Validate, FillsLine;
  }

  lemma {:induction false} DrainOverTrace(cfg: Config, b: BusState, p: Progress, pending: seq<Pending>)
    requires NeverHalts(b)
    ensures var quiet := Drain(cfg, OverTrace(b, []), p, pending);
            && NeverHalts(quiet.bus)
            && Drain(cfg, b, p, pending) == BatchOutcome(OverTrace(quiet.bus, b.trace.events + quiet.bus.trace.events), quiet.results)
    decreases |pending|
  {
    hide Drain, Execute, NextOf, TieOf, Committable;
    var c := OverTrace(b, []);
    DrainUnfolds(cfg, b, p, pending);
    DrainUnfolds(cfg, c, p, pending);
    if Continues(b, p, pending) {
      ChoiceIgnoresTrace(cfg, b, c, p, pending);
      var next := NextOf(cfg, b, p, pending);
      ExecuteOverTrace(cfg, b, pending[next].op, TieOf(cfg, b, p, pending));
      var b1, c1, rest := Stepped(cfg, b, p, pending).bus, Stepped(cfg, c, p, pending).bus, Without(pending, next);
      DrainOverTrace(cfg, b1, p, rest);
      DrainOverTrace(cfg, c1, p, rest);
      assert OverTrace(b1, []) == OverTrace(c1, []);
      var tail := Drain(cfg, OverTrace(b1, []), p, rest).bus.trace.events;
      assert (b.trace.events + c1.trace.events) + tail == b.trace.events + (c1.trace.events + tail);
    } else {
      assert b.trace.events + [] == b.trace.events;
    }
  }

  // ----- submission-order independence -----

  predicate AllAdmitted(ops: seq<BusOp>) {
    forall i :: 0 <= i < |ops| ==> EnqueueValid(ops, i)
  }

  /** Enqueueing changes nothing but the enqueue bookkeeping and the trace. */
  lemma {:induction false} EnqueueTracksAll(b: BusState, ops: seq<BusOp>, i: nat)
    requires i <= |ops| && EnqueueTracks(b, ops, i) && NeverHalts(b)
    ensures var c := EnqueueFrom(b, ops, i).bus;
            && NeverHalts(c) && EnqueueTracks(c, ops, |ops|)
            && c == b.(lastEnqueued := c.lastEnqueued, trace := c.trace)
            && (AllAdmitted(ops) ==> c.trace == b.trace)
    decreases |ops| - i
  {
    hide EnqueueTracks, EnqueueValid;
    if i < |ops| {
      EnqueueStep(b, ops, i);
      EnqueueTracksAll(Enqueue(b, ops[i]), ops, i + 1);
    }
  }

  lemma LatestAtMost(last: Option<Tick>, ops: seq<BusOp>, last': Option<Tick>, other: seq<BusOp>, s: Slot)
    requires Stream(ops, s) == Stream(other, s)
    requires LatestOfSlot(last, ops, |ops|, s) && LatestOfSlot(last', other, |other|, s)
    ensures last.Some? ==> last'.Some? && last.value <= last'.value
  {
    if last.Some? {
      var j :| 0 <= j < |ops| && SlotOf(ops[j]) == s && ops[j].reqTime == last.value;
      var x := ops[j];
      assert x in Stream(ops, s);
      assert x in Stream(other, s);
      var k :| 0 <= k < |other| && other[k] == x;
    }
  }

  lemma LatestAgrees(last: Option<Tick>, ops: seq<BusOp>, last': Option<Tick>, other: seq<BusOp>, s: Slot)
    requires Stream(ops, s) == Stream(other, s)
    requires LatestOfSlot(last, ops, |ops|, s) && LatestOfSlot(last', other, |other|, s)
    ensures last == last'
  {
    hide LatestOfSlot, Stream;
    LatestAtMost(last, ops, last', other, s);
    LatestAtMost(last', other, last, ops, s);
  }

  /** After enqueueing either interleaving, the two buses differ at most in the faults they have traced. */
  lemma EnqueueAgrees(b: BusState, ops: seq<BusOp>, other: seq<BusOp>)
    requires NeverHalts(b) && b.lastEnqueued == NOTHING_ENQUEUED && SameStreams(ops, other)
    ensures OverTrace(EnqueueFrom(b, ops, 0).bus, []) == OverTrace(EnqueueFrom(b, other, 0).bus, [])
  {
    hide EnqueueFrom, LatestOfSlot;
    NothingEnqueuedTracks(b, ops);
    NothingEnqueuedTracks(b, other);
    EnqueueTracksAll(b, ops, 0);
    EnqueueTracksAll(b, other, 0);
    var x, y := EnqueueFrom(b, ops, 0).bus, EnqueueFrom(b, other, 0).bus;
    forall s
      ensures x.lastEnqueued.Get(s) == y.lastEnqueued.Get(s)
    {
      LatestAgrees(x.lastEnqueued.Get(s), ops, y.lastEnqueued.Get(s), other, s);
    }
    assert x.lastEnqueued.Get(Cpu0Slot) == y.lastEnqueued.Get(Cpu0Slot);
    assert x.lastEnqueued.Get(Cpu1Slot) == y.lastEnqueued.Get(Cpu1Slot);
    assert x.lastEnqueued.Get(DmaSlot) == y.lastEnqueued.Get(DmaSlot);
  }

  /** The admitted part of a stream keeps everything exactly when the enqueue phase refuses nothing of it. */
  lemma {:induction false} AdmittedLength(ops: seq<BusOp>)
    ensures |AdmittedOps(ops)| <= |ops|
    ensures |AdmittedOps(ops)| == |ops| <==> AllAdmitted(ops)
  {
    if ops != [] {
      var init := ops[..|ops| - 1];
      AdmittedLength(init);
      PrefixAdmitted(ops);
    }
  }

  lemma PrefixAdmitted(ops: seq<BusOp>)
    requires ops != []
    ensures AllAdmitted(ops) <==> AllAdmitted(ops[..|ops| - 1]) && EnqueueValid(ops, |ops| - 1)
  {
    hide EnqueueValid;
    var init := ops[..|ops| - 1];
    forall i | 0 <= i < |init|
      ensures EnqueueValid(ops, i) == EnqueueValid(init, i)
    {
      PrefixValid(ops, i);
    }
    assert forall i :: 0 <= i < |ops| ==> i == |init| || (0 <= i < |init| && EnqueueValid(ops, i) == EnqueueValid(init, i));
  }

  lemma PrefixValid(ops: seq<BusOp>, i: nat)
    requires i < |ops| - 1
    ensures EnqueueValid(ops, i) == EnqueueValid(ops[..|ops| - 1], i)
  {
    hide SlotOf;
  }

  /** Refusing nothing is a property of the streams and not of their interleaving. */
  lemma AllAdmittedTransfers(ops: seq<BusOp>, other: seq<BusOp>)
    requires SameStreams(ops, other) && AllAdmitted(ops)
    ensures AllAdmitted(other)
  {
    hide EnqueueValid, AllAdmitted, Stream;
    AdmittedLength(ops);
    AdmittedLength(other);
    AdmittedMultiset(ops, other);
    AdmittedAll(ops);
    AdmittedAll(other);
    StreamsMakeWhole(ops);
    StreamsMakeWhole(other);
    assert multiset(ops) == multiset(other);
    assert |multiset(ops)| == |ops| && |multiset(other)| == |other|;
    assert |multiset(AdmittedOps(ops))| == |AdmittedOps(ops)| && |multiset(AdmittedOps(other))| == |AdmittedOps(other)|;
  }

  lemma AdmittedAll(ops: seq<BusOp>)
    ensures OpsOf(Admitted(ops, 0)) == AdmittedOps(ops)
  {
    hide EnqueueValid;
    AdmittedOpsAre(ops, 0);
    assert AdmittedOps(ops[..0]) + OpsOf(Admitted(ops, 0)) == OpsOf(Admitted(ops, 0));
  }

  // ----- the guard on a whole batch -----

  lemma InversionIgnoresTrace(cfg: Config, b: BusState, c: BusState, ops: seq<BusOp>)
    requires OverTrace(b, []) == OverTrace(c, [])
    ensures NoInversion(cfg, b, ops) == NoInversion(cfg, c, ops)
  {
    hide Straddled;
    assert forall x :: StartOf(b, x) == StartOf(c, x);
    assert forall x, y, z :: Inverted(cfg, b, x, y, z) == Inverted(cfg, c, x, y, z);
  }

  lemma {:induction false} OrderlyOverTrace(cfg: Config, b: BusState, c: BusState, p: Progress, pending: seq<Pending>)
    requires NeverHalts(b) && NeverHalts(c) && OverTrace(b, []) == OverTrace(c, []) && StaysOrderly(cfg, b, p, pending)
    ensures StaysOrderly(cfg, c, p, pending)
    decreases |pending|
  {
    hide NoInversion, Execute, NextOf, TieOf, Committable;
    InversionIgnoresTrace(cfg, b, c, OpsOf(pending));
    if Continues(c, p, pending) {
      ChoiceIgnoresTrace(cfg, b, c, p, pending);
      var next := NextOf(cfg, b, p, pending);
      ExecuteOverTrace(cfg, b, pending[next].op, TieOf(cfg, b, p, pending));
      ExecuteOverTrace(cfg, c, pending[next].op, TieOf(cfg, b, p, pending));
      OrderlyOverTrace(cfg, Stepped(cfg, b, p, pending).bus, Stepped(cfg, c, p, pending).bus, p, Without(pending, next));
    }
  }

  /** No commit of this batch meets an inversion among the operations still queued. */
  ghost predicate BatchOrderly(cfg: Config, b: BusState, p: Progress, ops: seq<BusOp>) {
    var queue := EnqueueFrom(b.(lastEnqueued := NOTHING_ENQUEUED), ops, 0);
    StaysOrderly(cfg, queue.bus, p, queue.pending)
  }

  /** A caller can rule inversions out beforehand from the classes alone. */
  lemma NeverStraddledIsOrderly(cfg: Config, b: BusState, p: Progress, ops: seq<BusOp>)
    requires NeverStraddled(cfg, ops)
    ensures BatchOrderly(cfg, b, p, ops)
  {
    hide NeverStraddled, StaysOrderly, EnqueueFrom;
    var queue := EnqueueFrom(b.(lastEnqueued := NOTHING_ENQUEUED), ops, 0);
    QueueFacts(b.(lastEnqueued := NOTHING_ENQUEUED), ops, 0);
    forall x | x in OpsOf(queue.pending)
      ensures x in ops
    {
      var k :| 0 <= k < |queue.pending| && queue.pending[k].op == x;
    }
    FewerNeverStraddled(cfg, ops, OpsOf(queue.pending));
    NeverStraddledStaysOrderly(cfg, queue.bus, p, queue.pending);
  }

  /** In particular there is nothing to invert when one producer submits alone, or each keeps to one class. */
  lemma OneClassOrProducerIsOrderly(cfg: Config, b: BusState, p: Progress, ops: seq<BusOp>)
    requires || (forall x, y :: x in ops && y in ops ==> SlotOf(x) == SlotOf(y))
             || (forall x, y :: x in ops && y in ops && SlotOf(x) == SlotOf(y) ==> x.cpuId == y.cpuId && cfg.policy(x) == cfg.policy(y))
    ensures BatchOrderly(cfg, b, p, ops)
  {
    hide NeverStraddled, BatchOrderly;
    if forall x, y :: x in ops && y in ops ==> SlotOf(x) == SlotOf(y) {
      OneProducerNeverStraddled(cfg, ops);
    } else {
      OneClassNeverStraddled(cfg, ops);
    }
    NeverStraddledIsOrderly(cfg, b, p, ops);
  }

  /** However the producers' streams are interleaved, a batch commits the same operations in the same order with
      the same replies, and leaves bus, memory and devices in the same state; past the faults of the enqueue
      phase the traces agree event for event, and entirely when there are no such faults. */
  lemma SubmissionOrderIrrelevant(cfg: Config, b: BusState, p: Progress, ops: seq<BusOp>, other: seq<BusOp>)
    requires NeverHalts(b) && WellNumbered(ops) && SameStreams(ops, other) && BatchOrderly(cfg, b, p, ops)
    ensures var x, y := CommitBatch(cfg, b, p, ops), CommitBatch(cfg, b, p, other);
            && Replies(x.results) == Replies(y.results)
            && OverTrace(x.bus, []) == OverTrace(y.bus, [])
            && (exists drained ::
                 && x.bus.trace.events == EnqueueFrom(b.(lastEnqueued := NOTHING_ENQUEUED), ops, 0).bus.trace.events + drained
                 && y.bus.trace.events == EnqueueFrom(b.(lastEnqueued := NOTHING_ENQUEUED), other, 0).bus.trace.events + drained)
            && (AllAdmitted(ops) ==> x.bus == y.bus)
  {
    hide Drain, EnqueueFrom, WellNumbered, AllIdentified, OpsOf, Replies, EnqueueTracks, EnqueueValid, Admitted, StaysOrderly, SameStreams, AllAdmitted;
    var b0 := b.(lastEnqueued := NOTHING_ENQUEUED);
    EnqueueAgrees(b0, ops, other);
    NothingEnqueuedTracks(b0, ops);
    NothingEnqueuedTracks(b0, other);
    EnqueueAdmits(b0, ops, 0);
    EnqueueAdmits(b0, other, 0);
    EnqueueTracksAll(b0, ops, 0);
    EnqueueTracksAll(b0, other, 0);
    WellNumberedTransfers(ops, other);
    AdmittedIdentified(ops);
    AdmittedIdentified(other);
    AdmittedMultiset(ops, other);
    if AllAdmitted(ops) {
      AllAdmittedTransfers(ops, other);
    }
    var x, y := EnqueueFrom(b0, ops, 0), EnqueueFrom(b0, other, 0);
    OrderlyOverTrace(cfg, x.bus, OverTrace(x.bus, []), p, x.pending);
    DrainOverTrace(cfg, x.bus, p, x.pending);
    DrainOverTrace(cfg, y.bus, p, y.pending);
    DrainPermutes(cfg, OverTrace(x.bus, []), p, x.pending, y.pending);
  }
}
