/** What the arbiter makes of the one or two operations a driver offers it. */
module DualBatch {
  import opened Prelude
  import opened Bus
  import opened BusBatch
  import opened BusOrder
  import opened ScriptedCpus
  import opened DualMachine

  /** What a driver offers: the operations at hand, CPU 0 first. */
  function Offer(p0: Option<PendingOp>, p1: Option<PendingOp>): seq<BusOp> {
    (if p0.Some? then [p0.value.op] else []) + (if p1.Some? then [p1.value.op] else [])
  }

  /** Whose operation stands at a position of the offer. */
  function OwnerOf(p0: Option<PendingOp>, inputIndex: nat): nat {
    if p0.Some? && inputIndex == 0 then 0 else 1
  }

  lemma ExecuteCore(cfg: Config, b: BusState, op: BusOp, hadTie: bool)
    ensures Execute(cfg, b, op, hadTie).response == Execute(cfg, Core(b), op, hadTie).response
    ensures Core(Execute(cfg, b, op, hadTie).bus) == Execute(cfg, Core(b), op, hadTie).bus
  {
    hide ValueOf, RamAfter, DevAfter, LatencyOf, Validate, FillsLine;
  }

  lemma CoreNeverHalts(b: BusState)
    ensures NeverHalts(Core(b)) == NeverHalts(b)
  {
  }

  /** Draining one entry. */
  lemma DrainOne(cfg: Config, b: BusState, p: Progress, e: Pending)
    requires NeverHalts(b)
    ensures Committable(p, e.op) ==>
      && Drain(cfg, b, p, [e]).results == [CommitResult(e.index, e.op, Execute(cfg, Core(b), e.op, false).response)]
      && Core(Drain(cfg, b, p, [e]).bus) == Execute(cfg, Core(b), e.op, false).bus
    ensures !Committable(p, e.op) ==> Drain(cfg, b, p, [e]) == BatchOutcome(b, [])
  {
    hide Drain, Execute, Beats, Committable;
    var pending := [e];
    DrainUnfolds(cfg, b, p, pending);
    assert CommittableFrom(p, pending, 1) == [];
    if Committable(p, e.op) {
      assert CommittableFrom(p, pending, 0) == [0];
      assert !TieOf(cfg, b, p, pending);
      ExecuteCore(cfg, b, e.op, false);
      var b1 := Stepped(cfg, b, p, pending).bus;
      assert Without(pending, 0) == [];
      DrainUnfolds(cfg, b1, p, []);
    }
  }

  /** Position the arbiter takes first out of two committable entries. */
  function FirstOfTwo(cfg: Config, b: BusState, x0: BusOp, x1: BusOp): (r: nat)
    ensures r < 2
  {
    if Beats(cfg, b, x1, x0) then 1 else 0
  }

  lemma PairCommittable(p: Progress, e0: Pending, e1: Pending)
    ensures CommittableFrom(p, [e0, e1], 0)
         == if Committable(p, e0.op) then (if Committable(p, e1.op) then [0, 1] else [0])
            else if Committable(p, e1.op) then [1] else []
  {
    hide Committable;
    var pending := [e0, e1];
    assert CommittableFrom(p, pending, 2) == [];
    assert CommittableFrom(p, pending, 1) == if Committable(p, e1.op) then [1] else [];
  }

  /** Draining two entries of which only one is below the horizon. */
  lemma DrainOneOfTwo(cfg: Config, b: BusState, p: Progress, e0: Pending, e1: Pending, w: nat)
    requires NeverHalts(b) && w < 2
    requires Committable(p, e0.op) == (w == 0) && Committable(p, e1.op) == (w == 1)
    ensures var e := if w == 0 then e0 else e1;
            && Drain(cfg, b, p, [e0, e1]).results == [CommitResult(e.index, e.op, Execute(cfg, Core(b), e.op, false).response)]
            && Core(Drain(cfg, b, p, [e0, e1]).bus) == Execute(cfg, Core(b), e.op, false).bus
  {
    hide Drain, Execute, Beats, Committable;
    var pending := [e0, e1];
    var e := if w == 0 then e0 else e1;
    var other := if w == 0 then e1 else e0;
    DrainUnfolds(cfg, b, p, pending);
    PairCommittable(p, e0, e1);
    assert CommittableFrom(p, pending, 0) == [w];
    assert NextOf(cfg, b, p, pending) == w;
    assert !TieOf(cfg, b, p, pending);
    assert Without(pending, w) == [other];
    ExecuteCore(cfg, b, e.op, false);
    ExecuteNeverHalts(cfg, b, e.op, false);
    DrainOne(cfg, Stepped(cfg, b, p, pending).bus, p, other);
  }

  /** Draining two committable entries. */
  lemma DrainTwo(cfg: Config, b: BusState, p: Progress, e0: Pending, e1: Pending)
    requires NeverHalts(b) && Committable(p, e0.op) && Committable(p, e1.op) && SlotOf(e0.op) != SlotOf(e1.op)
    ensures var w := FirstOfTwo(cfg, Core(b), e0.op, e1.op);
            var first, second := if w == 0 then e0 else e1, if w == 0 then e1 else e0;
            var x := Execute(cfg, Core(b), first.op, Ties(cfg, Core(b), e0.op, e1.op));
            var y := Execute(cfg, x.bus, second.op, false);
            && Drain(cfg, b, p, [e0, e1]).results == [CommitResult(first.index, first.op, x.response), CommitResult(second.index, second.op, y.response)]
            && Core(Drain(cfg, b, p, [e0, e1]).bus) == y.bus
  {
    hide Drain, Execute, Committable;
    var pending := [e0, e1];
    DrainUnfolds(cfg, b, p, pending);
    PairCommittable(p, e0, e1);
    var idxs := [0, 1];
    assert CommittableFrom(p, pending, 0) == idxs;
    var w := FirstOfTwo(cfg, Core(b), e0.op, e1.op);
    assert PickFrom(cfg, b, pending, idxs, 2, w) == w;
    assert PickFrom(cfg, b, pending, idxs, 1, 0) == w;
    assert NextOf(cfg, b, p, pending) == w;
    hide Beats;
    var tie := Ties(cfg, Core(b), e0.op, e1.op);
    assert TieOf(cfg, b, p, pending) == tie by {
      if tie {
        assert idxs[1 - w] != w && Ties(cfg, b, pending[idxs[1 - w]].op, pending[w].op);
      }
    }
    var first, second := if w == 0 then e0 else e1, if w == 0 then e1 else e0;
    assert Without(pending, w) == [second];
    ExecuteCore(cfg, b, first.op, tie);
    ExecuteNeverHalts(cfg, b, first.op, tie);
    DrainOne(cfg, Stepped(cfg, b, p, pending).bus, p, second);
  }

  lemma DrainNone(cfg: Config, b: BusState, p: Progress, pending: seq<Pending>)
    requires forall i :: 0 <= i < |pending| ==> !Committable(p, pending[i].op)
    ensures Drain(cfg, b, p, pending) == BatchOutcome(b, [])
  {
    hide Drain, Committable;
    NoneCommittable(p, pending, 0);
    DrainUnfolds(cfg, b, p, pending);
  }

  // ----- whole batches of one or two operations -----

  lemma QueueOfOne(b: BusState, x: BusOp)
    requires NeverHalts(b)
    ensures var queue := EnqueueFrom(b.(lastEnqueued := NOTHING_ENQUEUED), [x], 0);
            queue.pending == [Pending(0, x)] && NeverHalts(queue.bus) && Core(queue.bus) == Core(b)
  {
    hide EnqueueTracks;
    var b0 := b.(lastEnqueued := NOTHING_ENQUEUED);
    var ops := [x];
    NothingEnqueuedTracks(b0, ops);
    EnqueueAdmits(b0, ops, 0);
    EnqueueTracksAll(b0, ops, 0);
    assert EnqueueValid(ops, 0);
    assert Admitted(ops, 1) == [];
  }

  lemma QueueOfTwo(b: BusState, x0: BusOp, x1: BusOp)
    requires NeverHalts(b) && SlotOf(x0) != SlotOf(x1)
    ensures var queue := EnqueueFrom(b.(lastEnqueued := NOTHING_ENQUEUED), [x0, x1], 0);
            queue.pending == [Pending(0, x0), Pending(1, x1)] && NeverHalts(queue.bus) && Core(queue.bus) == Core(b)
  {
    hide EnqueueTracks;
    var b0 := b.(lastEnqueued := NOTHING_ENQUEUED);
    var ops := [x0, x1];
    NothingEnqueuedTracks(b0, ops);
    EnqueueAdmits(b0, ops, 0);
    EnqueueTracksAll(b0, ops, 0);
    assert EnqueueValid(ops, 0) && EnqueueValid(ops, 1);
    assert Admitted(ops, 2) == [];
    assert Admitted(ops, 1) == [Pending(1, x1)];
  }

  /** A batch of one: committed alone if it is below the horizon. */
  lemma SingleBatch(cfg: Config, b: BusState, p: Progress, x: BusOp)
    requires NeverHalts(b)
    ensures Committable(p, x) ==>
      && CommitBatch(cfg, b, p, [x]).results == [CommitResult(0, x, Execute(cfg, Core(b), x, false).response)]
      && Core(CommitBatch(cfg, b, p, [x]).bus) == Execute(cfg, Core(b), x, false).bus
    ensures !Committable(p, x) ==> CommitBatch(cfg, b, p, [x]).results == [] && Core(CommitBatch(cfg, b, p, [x]).bus) == Core(b)
  {
    hide Drain, EnqueueFrom, Execute, Committable;
    QueueOfOne(b, x);
    DrainOne(cfg, EnqueueFrom(b.(lastEnqueued := NOTHING_ENQUEUED), [x], 0).bus, p, Pending(0, x));
  }

  lemma PairBatchNone(cfg: Config, b: BusState, p: Progress, x0: BusOp, x1: BusOp)
    requires NeverHalts(b) && SlotOf(x0) != SlotOf(x1) && !Committable(p, x0) && !Committable(p, x1)
    ensures CommitBatch(cfg, b, p, [x0, x1]).results == [] && Core(CommitBatch(cfg, b, p, [x0, x1]).bus) == Core(b)
  {
    hide Drain, EnqueueFrom, Execute, Committable;
    QueueOfTwo(b, x0, x1);
    DrainNone(cfg, EnqueueFrom(b.(lastEnqueued := NOTHING_ENQUEUED), [x0, x1], 0).bus, p, [Pending(0, x0), Pending(1, x1)]);
  }

  lemma PairBatchOne(cfg: Config, b: BusState, p: Progress, x0: BusOp, x1: BusOp, w: nat)
    requires NeverHalts(b) && SlotOf(x0) != SlotOf(x1) && w < 2
    requires Committable(p, x0) == (w == 0) && Committable(p, x1) == (w == 1)
    ensures var x := if w == 0 then x0 else x1;
            && CommitBatch(cfg, b, p, [x0, x1]).results == [CommitResult(w, x, Execute(cfg, Core(b), x, false).response)]
            && Core(CommitBatch(cfg, b, p, [x0, x1]).bus) == Execute(cfg, Core(b), x, false).bus
  {
    hide Drain, EnqueueFrom, Execute, Committable;
    QueueOfTwo(b, x0, x1);
    DrainOneOfTwo(cfg, EnqueueFrom(b.(lastEnqueued := NOTHING_ENQUEUED), [x0, x1], 0).bus, p, Pending(0, x0), Pending(1, x1), w);
  }

  lemma PairBatchTwo(cfg: Config, b: BusState, p: Progress, x0: BusOp, x1: BusOp)
    requires NeverHalts(b) && SlotOf(x0) != SlotOf(x1) && Committable(p, x0) && Committable(p, x1)
    ensures var w := FirstOfTwo(cfg, Core(b), x0, x1);
            var first, second := if w == 0 then x0 else x1, if w == 0 then x1 else x0;
            var x := Execute(cfg, Core(b), first, Ties(cfg, Core(b), x0, x1));
            var y := Execute(cfg, x.bus, second, false);
            && CommitBatch(cfg, b, p, [x0, x1]).results == [CommitResult(w, first, x.response), CommitResult(1 - w, second, y.response)]
            && Core(CommitBatch(cfg, b, p, [x0, x1]).bus) == y.bus
  {
    hide Drain, EnqueueFrom, Execute, Committable, FirstOfTwo, Ties;
    QueueOfTwo(b, x0, x1);
    DrainTwo(cfg, EnqueueFrom(b.(lastEnqueued := NOTHING_ENQUEUED), [x0, x1], 0).bus, p, Pending(0, x0), Pending(1, x1));
  }

  // ----- batches as commits of the dual machine -----

  /** The commits a batch makes when the operations of CPU 0 and CPU 1 are, or are not, offered below the horizon. */
  function BatchChoices(cfg: Config, m: Dual, c0: bool, c1: bool): seq<Choice>
    requires c0 ==> m.side0.op.Some?
    requires c1 ==> m.side1.op.Some?
  {
    if c0 && c1 then [Choice(TieWinner(cfg, m), SameClass(cfg, m)), Choice(1 - TieWinner(cfg, m), false)]
    else if c0 then [Choice(0, false)]
    else if c1 then [Choice(1, false)]
    else []
  }

  lemma ChoicesAreClaims(cfg: Config, m: Dual, c0: bool, c1: bool)
    requires c0 ==> m.side0.op.Some?
    requires c1 ==> m.side1.op.Some?
    ensures var choices := BatchChoices(cfg, m, c0, c1);
            && |choices| == (if c0 then 1 else 0) + (if c1 then 1 else 0)
            && forall k :: 0 <= k < |choices| ==> choices[k].cpu < 2 && if choices[k].cpu == 0 then c0 else c1
  {
    hide Beats;
  }

  predicate Claimed(p: Progress, h: Option<PendingOp>) {
    h.Some? && Committable(p, h.value.op)
  }

  /** The k-th result answers the CPU of the k-th commit with that commit's reply. */
  ghost predicate Answers(cfg: Config, m: Dual, choices: seq<Choice>, h0: Option<PendingOp>, n: nat, results: seq<CommitResult>)
    requires Possible(cfg, m, choices)
    decreases |choices|
  {
    && |results| == |choices|
    && (choices != [] ==>
         && results[0].inputIndex < n && OwnerOf(h0, results[0].inputIndex) == choices[0].cpu
         && results[0].response == Committing(cfg, m, choices[0]).response
         && Answers(cfg, Step(cfg, m, choices[0]), choices[1..], h0, n, results[1..]))
  }

  /** Operations on offer are the ones the sides are stopped at, and the watermarks are honest. */
  ghost predicate Honest(cfg: Config, m: Dual, h0: Option<PendingOp>, h1: Option<PendingOp>, p: Progress) {
    && DualOk(cfg, m) && p.enabled && NotAhead(p, m)
    && (h0.Some? ==> m.side0.op == h0) && (h1.Some? ==> m.side1.op == h1)
  }

  lemma BothClaimedTie(cfg: Config, m: Dual, h0: Option<PendingOp>, h1: Option<PendingOp>, p: Progress)
    requires Honest(cfg, m, h0, h1, p) && Claimed(p, h0) && Claimed(p, h1)
    ensures Tied(m) && BatchChoices(cfg, m, true, true) == [Next(cfg, m).value, Loser(cfg, m)]
  {
    hide DualOk, Beats;
    SideFacts(cfg, m);
  }

  /** Honest watermarks let through only what no other CPU can still precede. */
  lemma BatchIsLegal(cfg: Config, m: Dual, h0: Option<PendingOp>, h1: Option<PendingOp>, p: Progress)
    requires Honest(cfg, m, h0, h1, p)
    ensures LegalRun(cfg, m, BatchChoices(cfg, m, Claimed(p, h0), Claimed(p, h1)))
    ensures OnePerCpu(BatchChoices(cfg, m, Claimed(p, h0), Claimed(p, h1)))
  {
    hide DualOk, Beats, Step;
    SideFacts(cfg, m);
    var choices := BatchChoices(cfg, m, Claimed(p, h0), Claimed(p, h1));
    if choices != [] {
      var m1 := Step(cfg, m, choices[0]);
      StepOk(cfg, m, choices[0]);
      if |choices| == 2 {
        BothClaimedTie(cfg, m, h0, h1, p);
        LoserIsNext(cfg, m);
        NextIsLegal(cfg, m);
        NextIsLegal(cfg, m1);
        StepOk(cfg, m1, choices[1]);
        var rest := [choices[1]];
        assert choices[1..] == rest && rest[1..] == [];
        assert LegalRun(cfg, m1, rest);
      } else {
        assert choices[1..] == [];
      }
    }
  }

  lemma PossibleOne(cfg: Config, m: Dual, ch: Choice)
    requires DualOk(cfg, m) && ch.cpu < 2 && m.At(ch.cpu).op.Some?
    ensures Possible(cfg, m, [ch]) && Replay(cfg, m, [ch]) == Step(cfg, m, ch)
    ensures forall h0, n, r: CommitResult ::
      r.inputIndex < n && OwnerOf(h0, r.inputIndex) == ch.cpu && r.response == Committing(cfg, m, ch).response ==>
      Answers(cfg, m, [ch], h0, n, [r])
  {
    hide Step, DualOk, Committing;
    StepOk(cfg, m, ch);
    assert [ch][1..] == [];
    assert Possible(cfg, Step(cfg, m, ch), []);
    forall h0, n: nat, r: CommitResult | r.inputIndex < n && OwnerOf(h0, r.inputIndex) == ch.cpu && r.response == Committing(cfg, m, ch).response
      ensures Answers(cfg, m, [ch], h0, n, [r])
    {
      assert [r][1..] == [];
    }
  }

  lemma BothBatch(cfg: Config, b: BusState, m: Dual, h0: Option<PendingOp>, h1: Option<PendingOp>, p: Progress)
    requires Honest(cfg, m, h0, h1, p) && m.bus == Core(b) && Claimed(p, h0) && Claimed(p, h1)
    ensures var choices := BatchChoices(cfg, m, true, true);
            var batch := CommitBatch(cfg, b, p, Offer(h0, h1));
            && Possible(cfg, m, choices) && Answers(cfg, m, choices, h0, 2, batch.results)
            && Core(batch.bus) == Replay(cfg, m, choices).bus
  {
    hide CommitBatch, Execute, Resumed, Beats, DualOk;
    SideFacts(cfg, m);
    CoreNeverHalts(b);
    BothClaimedTie(cfg, m, h0, h1, p);
    LoserIsNext(cfg, m);
    var x0, x1 := h0.value.op, h1.value.op;
    assert Offer(h0, h1) == [x0, x1];
    PairBatchTwo(cfg, b, p, x0, x1);
    var choices := BatchChoices(cfg, m, true, true);
    var m1 := Step(cfg, m, choices[0]);
    PossibleOne(cfg, m1, choices[1]);
    assert choices[1..] == [choices[1]];
    var results := CommitBatch(cfg, b, p, Offer(h0, h1)).results;
    assert results[1..] == [results[1]];
  }

  lemma OneBatch(cfg: Config, b: BusState, m: Dual, h0: Option<PendingOp>, h1: Option<PendingOp>, p: Progress, i: nat)
    requires Honest(cfg, m, h0, h1, p) && m.bus == Core(b) && i < 2
    requires Claimed(p, h0) == (i == 0) && Claimed(p, h1) == (i == 1)
    ensures var choices := [Choice(i, false)];
            var batch := CommitBatch(cfg, b, p, Offer(h0, h1));
            && Possible(cfg, m, choices) && Answers(cfg, m, choices, h0, |Offer(h0, h1)|, batch.results)
            && Core(batch.bus) == Replay(cfg, m, choices).bus
  {
    hide CommitBatch, Execute, Resumed, Beats, DualOk, Committable;
    SideFacts(cfg, m);
    CoreNeverHalts(b);
    PossibleOne(cfg, m, Choice(i, false));
    if h0.Some? && h1.Some? {
      assert Offer(h0, h1) == [h0.value.op, h1.value.op];
      PairBatchOne(cfg, b, p, h0.value.op, h1.value.op, i);
    } else {
      var h := if i == 0 then h0 else h1;
      assert Offer(h0, h1) == [h.value.op];
      SingleBatch(cfg, b, p, h.value.op);
    }
  }

  lemma NoBatch(cfg: Config, b: BusState, m: Dual, h0: Option<PendingOp>, h1: Option<PendingOp>, p: Progress)
    requires Honest(cfg, m, h0, h1, p) && m.bus == Core(b) && !Claimed(p, h0) && !Claimed(p, h1)
    ensures var batch := CommitBatch(cfg, b, p, Offer(h0, h1));
            batch.results == [] && Core(batch.bus) == m.bus
  {
    hide CommitBatch, Execute, Resumed, Beats, DualOk, Committable;
    SideFacts(cfg, m);
    CoreNeverHalts(b);
    if h0.Some? && h1.Some? {
      assert Offer(h0, h1) == [h0.value.op, h1.value.op];
      PairBatchNone(cfg, b, p, h0.value.op, h1.value.op);
    } else if h0.Some? || h1.Some? {
      var h := if h0.Some? then h0 else h1;
      assert Offer(h0, h1) == [h.value.op];
      SingleBatch(cfg, b, p, h.value.op);
    } else {
      assert Offer(h0, h1) == [];
      EmptyBatch(cfg, b, p);
    }
  }

  lemma EmptyBatch(cfg: Config, b: BusState, p: Progress)
    ensures CommitBatch(cfg, b, p, []).results == [] && Core(CommitBatch(cfg, b, p, []).bus) == Core(b)
  {
    hide Drain;
    DrainNone(cfg, b.(lastEnqueued := NOTHING_ENQUEUED), p, []);
  }

  /** Under honest watermarks a batch of the operations at hand is a replay of commits, each one legal where it happens. */
  lemma BatchReplays(cfg: Config, b: BusState, m: Dual, h0: Option<PendingOp>, h1: Option<PendingOp>, p: Progress)
    requires Honest(cfg, m, h0, h1, p) && m.bus == Core(b)
    ensures var choices := BatchChoices(cfg, m, Claimed(p, h0), Claimed(p, h1));
            var batch := CommitBatch(cfg, b, p, Offer(h0, h1));
            && Possible(cfg, m, choices) && Answers(cfg, m, choices, h0, |Offer(h0, h1)|, batch.results)
            && Core(batch.bus) == Replay(cfg, m, choices).bus
  {
    hide CommitBatch, Possible, Replay, Answers, DualOk, NotAhead, Committable, TieWinner, SameClass;
    if Claimed(p, h0) && Claimed(p, h1) {
      BothBatch(cfg, b, m, h0, h1, p);
    } else if Claimed(p, h0) {
      OneBatch(cfg, b, m, h0, h1, p, 0);
    } else if Claimed(p, h1) {
      OneBatch(cfg, b, m, h0, h1, p, 1);
    } else {
      NoBatch(cfg, b, m, h0, h1, p);
      NothingReplays(cfg, m, h0, |Offer(h0, h1)|);
    }
  }

  lemma NothingReplays(cfg: Config, m: Dual, h0: Option<PendingOp>, n: nat)
    requires DualOk(cfg, m)
    ensures Possible(cfg, m, []) && Replay(cfg, m, []) == m && Answers(cfg, m, [], h0, n, [])
  {
  }

  // ----- who is answered -----

  /** Position of the reply to CPU i among the results of a batch, or their number if there is none. */
  function ReplyPosition(h0: Option<PendingOp>, results: seq<CommitResult>, i: nat): (r: nat)
    ensures r <= |results|
  {
    if |results| > 0 && OwnerOf(h0, results[0].inputIndex) == i then 0
    else if |results| > 1 && OwnerOf(h0, results[1].inputIndex) == i then 1
    else |results|
  }

  predicate OnePerCpu(choices: seq<Choice>) {
    |choices| <= 2 && (|choices| == 2 ==> choices[1].cpu == 1 - choices[0].cpu)
  }

  ghost predicate CanAnswer(s: Side) {
    s.op.Some? && s.cpu.Valid() && s.op.value.scriptIndex < |s.cpu.script|
  }

  /** What a batch means for CPU i: answered and resumed if a reply is addressed to it, untouched otherwise. */
  ghost predicate AnsweredIn(before: Side, after: Side, results: seq<CommitResult>, pos: nat)
    requires pos <= |results|
  {
    if pos < |results| then
      && CanAnswer(before) && after == Resumed(before, results[pos].response)
      && !FillMismatch(before.cpu, before.op.value.scriptIndex, results[pos].response)
      && results[pos].response.stall >= 1
    else after == before
  }

  /** A reply to a CPU's own operation always fits its cache. */
  lemma ReplyFits(cfg: Config, b: BusState, c: Cpu, p: PendingOp, i: nat, hadTie: bool)
    requires CpuOk(c, i) && OpMatches(c, p, i)
    ensures !FillMismatch(c, p.scriptIndex, Execute(cfg, b, p.op, hadTie).response)
  {
    hide ValueOf, RamAfter, DevAfter, LatencyOf;
  }

  lemma StepAnswers(cfg: Config, m: Dual, ch: Choice)
    requires DualOk(cfg, m) && ch.cpu < 2 && m.At(ch.cpu).op.Some?
    ensures var s := m.At(ch.cpu);
            && CanAnswer(s) && Step(cfg, m, ch).At(ch.cpu) == Resumed(s, Committing(cfg, m, ch).response)
            && !FillMismatch(s.cpu, s.op.value.scriptIndex, Committing(cfg, m, ch).response)
            && Committing(cfg, m, ch).response.stall >= 1
    ensures Step(cfg, m, ch).At(1 - ch.cpu) == m.At(1 - ch.cpu)
  {
    hide Execute, Resumed, OpMatches, CpuOk;
    var s := m.At(ch.cpu);
    OpMatchesFacts(s.cpu, s.op.value, ch.cpu);
    CpuOkValid(s.cpu, ch.cpu);
    ReplyFits(cfg, m.bus, s.cpu, s.op.value, ch.cpu, ch.tie);
    ExecuteFacts(cfg, m.bus, s.op.value.op, ch.cpu, ch.tie);
  }

  lemma CpuOkValid(c: Cpu, i: nat)
    requires CpuOk(c, i)
    ensures c.Valid()
  {
  }

  lemma AnswersCount(cfg: Config, m: Dual, choices: seq<Choice>, h0: Option<PendingOp>, n: nat, results: seq<CommitResult>)
    requires Possible(cfg, m, choices) && Answers(cfg, m, choices, h0, n, results)
    ensures |results| == |choices|
  {
  }

  lemma AnswersReach(cfg: Config, m: Dual, choices: seq<Choice>, h0: Option<PendingOp>, n: nat, results: seq<CommitResult>)
    requires Possible(cfg, m, choices) && Answers(cfg, m, choices, h0, n, results) && OnePerCpu(choices)
    ensures forall i :: 0 <= i < 2 ==> AnsweredIn(m.At(i), Replay(cfg, m, choices).At(i), results, ReplyPosition(h0, results, i))
    ensures forall i :: 0 <= i < 2 && ReplyPosition(h0, results, i) < |results| ==> choices[ReplyPosition(h0, results, i)].cpu == i
    ensures forall k :: 0 <= k < |results| ==>
      && results[k].inputIndex < n && OwnerOf(h0, results[k].inputIndex) == choices[k].cpu < 2
      && ReplyPosition(h0, results, choices[k].cpu) == k
  {
    hide Execute, Resumed, DualOk, Step, Committing, CanAnswer, FillMismatch;
    if choices != [] {
      StepAnswers(cfg, m, choices[0]);
      var m1 := Step(cfg, m, choices[0]);
      if |choices| == 2 {
        StepAnswers(cfg, m1, choices[1]);
        assert choices[1..][1..] == [];
        var m2 := Step(cfg, m1, choices[1]);
        assert Replay(cfg, m2, []) == m2;
        assert Replay(cfg, m1, choices[1..]) == m2;
      } else {
        assert Replay(cfg, m, choices) == m1;
      }
    }
  }
}
