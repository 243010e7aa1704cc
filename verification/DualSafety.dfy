/** What holds of every run of single legal commits, whatever their order. */
module DualSafety {
  import opened Prelude
  import opened Bus
  import opened ScriptedCpus
  import opened DualMachine

  /** The trace events a run has added. */
  function Added(before: Dual, after: Dual): seq<Event>
    requires |before.bus.trace.events| <= |after.bus.trace.events|
  {
    after.bus.trace.events[|before.bus.trace.events|..]
  }

  predicate Extends(before: Dual, after: Dual) {
    before.bus.trace.events <= after.bus.trace.events
  }

  /** Commits only, none of them before the given time, in nondecreasing order of request time. */
  predicate Orderly(events: seq<Event>, from: Tick)
    decreases |events|
  {
    events != [] ==>
      events[0].Committed? && from <= events[0].op.reqTime && Orderly(events[1..], events[0].op.reqTime)
  }

  predicate NothingBefore(m: Dual, t: Tick) {
    t <= m.side0.cpu.time && t <= m.side1.cpu.time
  }

  /** Whatever the other CPU goes on to ask for comes no earlier than a legal commit. */
  lemma LegalStep(cfg: Config, m: Dual, ch: Choice, t: Tick)
    requires DualOk(cfg, m) && Legal(m, ch) && NothingBefore(m, t)
    ensures var m1 := Step(cfg, m, ch);
            && DualOk(cfg, m1) && Extends(m, m1) && |Added(m, m1)| == 1
            && Added(m, m1)[0].Committed? && Added(m, m1)[0].op == m.At(ch.cpu).op.value.op
            && t <= ReqTime(m.At(ch.cpu)) && NothingBefore(m1, ReqTime(m.At(ch.cpu)))
  {
    hide DualOk, Step, Execute;
    SideFacts(cfg, m);
    StepFacts(cfg, m, ch);
  }

  lemma AddedSplits(m: Dual, m1: Dual, end: Dual)
    requires Extends(m, m1) && Extends(m1, end) && |Added(m, m1)| == 1
    ensures Extends(m, end) && Added(m, end) == Added(m, m1) + Added(m1, end) && Added(m, end)[1..] == Added(m1, end)
  {
  }

  /** Every legal run commits in globally nondecreasing order of request time and never faults. */
  lemma {:induction false} LegalRunIsOrderly(cfg: Config, m: Dual, choices: seq<Choice>, t: Tick)
    requires LegalRun(cfg, m, choices) && Possible(cfg, m, choices) && NothingBefore(m, t)
    ensures var end := Replay(cfg, m, choices);
            Extends(m, end) && |Added(m, end)| == |choices| && Orderly(Added(m, end), t)
    decreases |choices|
  {
    hide DualOk, Step, Legal, NothingBefore;
    var end := Replay(cfg, m, choices);
    if choices == [] {
      assert Added(m, end) == [];
    } else {
      LegalStep(cfg, m, choices[0], t);
      var m1 := Step(cfg, m, choices[0]);
      LegalIsPossible(cfg, m1, choices[1..]);
      LegalRunIsOrderly(cfg, m1, choices[1..], ReqTime(m.At(choices[0].cpu)));
      AddedSplits(m, m1, end);
    }
  }

  lemma {:induction false} OrderlyMeansSorted(events: seq<Event>, from: Tick, j: nat, k: nat)
    requires Orderly(events, from) && j <= k < |events|
    ensures events[j].Committed? && events[k].Committed? && from <= events[j].op.reqTime <= events[k].op.reqTime
    decreases |events|
  {
    if j > 0 {
      OrderlyMeansSorted(events[1..], events[0].op.reqTime, j - 1, k - 1);
    } else if k > 0 {
      OrderlyMeansSorted(events[1..], events[0].op.reqTime, 0, k - 1);
    }
  }

  // ----- every operation of a CPU is committed once, in script order -----

  /** The number of the operation a side has to commit next. */
  function NextNumber(s: Side): nat {
    if s.op.Some? then s.op.value.op.sequence else s.cpu.sequence
  }

  /** The commits of CPU i among the events carry the numbers from `first` up to but not including `last`, in order. */
  predicate Numbered(events: seq<Event>, i: int, first: nat, last: nat)
    decreases |events|
  {
    if events == [] then first == last
    else if events[0].Committed? && events[0].op.cpuId == i then
      events[0].op.sequence == first && Numbered(events[1..], i, first + 1, last)
    else Numbered(events[1..], i, first, last)
  }

  lemma {:induction false} RunAheadNumbers(c: Cpu)
    requires c.Valid()
    ensures NextNumber(Settled(c)) == c.sequence
    decreases |c.script| - c.pc
  {
    hide LocalValue, AfterStore;
    if !c.Done() {
      match c.script[c.pc]
      case Compute(cycles) => RunAheadNumbers(c.(time := c.time + cycles, pc := c.pc + 1));
      case ScriptRead(vaddr, size) =>
        var local := LocalValue(c, vaddr, size);
        if local.Some? {
          RunAheadNumbers(c.(history := c.history + [local.value], pc := c.pc + 1));
        }
      case _ =>
    }
  }

  lemma StepNumbers(cfg: Config, m: Dual, ch: Choice)
    requires ch.cpu < 2 && DualOk(cfg, m) && m.At(ch.cpu).op.Some?
    ensures m.At(ch.cpu).op.value.op.cpuId == ch.cpu
    ensures NextNumber(Step(cfg, m, ch).At(ch.cpu)) == NextNumber(m.At(ch.cpu)) + 1
    ensures Step(cfg, m, ch).At(1 - ch.cpu) == m.At(1 - ch.cpu)
  {
    hide Execute, RunAhead, WellFormed, Validate;
    var s := m.At(ch.cpu);
    var r := Committing(cfg, m, ch).response;
    var c := Answered(s.cpu, s.op.value.scriptIndex, r, s.op.value.op.token);
    RunAheadNumbers(c);
  }

  /** In every legal run each CPU's operations are committed exactly once, in the order its script issues them. */
  lemma {:induction false} CommittedOnceInOrder(cfg: Config, m: Dual, choices: seq<Choice>, i: nat)
    requires LegalRun(cfg, m, choices) && Possible(cfg, m, choices) && i < 2
    ensures var end := Replay(cfg, m, choices);
            Extends(m, end) && Numbered(Added(m, end), i, NextNumber(m.At(i)), NextNumber(end.At(i)))
    decreases |choices|
  {
    hide DualOk, Step, NextNumber;
    var end := Replay(cfg, m, choices);
    if choices == [] {
      assert Added(m, end) == [];
    } else {
      LegalStep(cfg, m, choices[0], 0);
      StepNumbers(cfg, m, choices[0]);
      NextIsSequence(m.At(choices[0].cpu));
      var m1 := Step(cfg, m, choices[0]);
      LegalIsPossible(cfg, m1, choices[1..]);
      CommittedOnceInOrder(cfg, m1, choices[1..], i);
      AddedSplits(m, m1, end);
      assert Added(m, end)[0] == Added(m, m1)[0];
    }
  }

  lemma NextIsSequence(s: Side)
    requires s.op.Some?
    ensures NextNumber(s) == s.op.value.op.sequence
  {
  }
}
