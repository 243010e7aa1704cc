/** Exactly when the drivers' loop ends: a CPU that has finished stops the other one at its own clock. */
module SequentialEnding {
  import opened Prelude
  import opened Bus
  import opened DualMachine

  predicate BothDone(m: Dual) {
    m.side0.op.None? && m.side1.op.None?
  }

  lemma OverWhenIdle(cfg: Config, m: Dual)
    requires DualOk(cfg, m) && BothDone(m)
    ensures Finish(cfg, m) == m
  {
    hide Step, DualOk;
  }

  // ----- one CPU running on by itself -----

  lemma AloneStep(cfg: Config, m: Dual, i: nat)
    requires i < 2 && DualOk(cfg, m) && m.At(i).op.Some?
    ensures var r := Step(cfg, m, Choice(i, false));
            && DualOk(cfg, r) && Unfinished(r.At(i)) < Unfinished(m.At(i)) && r.At(1 - i) == m.At(1 - i)
            && (r.At(i).op.Some? ==> ReqTime(r.At(i)) > ReqTime(m.At(i)))
  {
    hide Step, DualOk, Unfinished;
    StepFacts(cfg, m, Choice(i, false));
    SideFacts(cfg, m);
    SideFacts(cfg, Step(cfg, m, Choice(i, false)));
  }

  /** When CPU i would ask for its remaining operations if nothing held it up. */
  ghost function SoloTimes(cfg: Config, m: Dual, i: nat): (r: seq<Tick>)
    requires i < 2 && DualOk(cfg, m)
    ensures r == [] <==> m.At(i).op.None?
    ensures forall k :: 0 <= k < |r| ==> r[0] <= r[k]
    decreases Unfinished(m.At(i))
  {
    if m.At(i).op.None? then []
    else
      AloneStep(cfg, m, i);
      [ReqTime(m.At(i))] + SoloTimes(cfg, Step(cfg, m, Choice(i, false)), i)
  }

  predicate AllBefore(times: seq<Tick>, limit: Tick) {
    forall k :: 0 <= k < |times| ==> times[k] < limit
  }

  lemma NextWhenAlone(cfg: Config, m: Dual, i: nat)
    requires i < 2 && DualOk(cfg, m) && m.At(i).op.Some? && m.At(1 - i).op.None?
    ensures Next(cfg, m) == if ReqTime(m.At(i)) < m.At(1 - i).cpu.time then Some(Choice(i, false)) else None
  {
    hide DualOk, Beats;
  }

  /** Once one CPU has finished, the run ends both scripts exactly when the other one would ask for everything it still
      has to do before the finished CPU's clock. */
  lemma {:induction false} SurvivorEnds(cfg: Config, m: Dual, i: nat)
    requires i < 2 && DualOk(cfg, m) && m.At(1 - i).op.None?
    ensures BothDone(Finish(cfg, m)) <==> AllBefore(SoloTimes(cfg, m, i), m.At(1 - i).cpu.time)
    decreases Unfinished(m.At(i))
  {
    hide DualOk, Step, Unfinished, Next, AllBefore;
    if m.At(i).op.None? {
      OverWhenIdle(cfg, m);
      NothingBefore(m.At(1 - i).cpu.time);
    } else {
      NextWhenAlone(cfg, m, i);
      AloneStep(cfg, m, i);
      var rest := SoloTimes(cfg, Step(cfg, m, Choice(i, false)), i);
      BeforeAlso(ReqTime(m.At(i)), rest, m.At(1 - i).cpu.time);
      if ReqTime(m.At(i)) < m.At(1 - i).cpu.time {
        SurvivorEnds(cfg, Step(cfg, m, Choice(i, false)), i);
      }
    }
  }

  lemma NothingBefore(limit: Tick)
    ensures AllBefore([], limit)
  {
  }

  lemma BeforeAlso(t: Tick, rest: seq<Tick>, limit: Tick)
    ensures AllBefore([t] + rest, limit) <==> t < limit && AllBefore(rest, limit)
  {
    if AllBefore([t] + rest, limit) {
      assert ([t] + rest)[0] == t;
      assert forall k :: 0 <= k < |rest| ==> ([t] + rest)[k + 1] == rest[k];
    }
  }

  // ----- from any state -----

  /** The reference run up to the moment one of the CPUs has finished. */
  ghost function UntilOneDone(cfg: Config, m: Dual): (r: Dual)
    requires DualOk(cfg, m)
    ensures DualOk(cfg, r) && (r.side0.op.None? || r.side1.op.None?)
    decreases Unfinished(m.side0) + Unfinished(m.side1)
  {
    if m.side0.op.None? || m.side1.op.None? then m
    else
      StepFacts(cfg, m, Next(cfg, m).value);
      UntilOneDone(cfg, Step(cfg, m, Next(cfg, m).value))
  }

  lemma {:induction false} SameFinish(cfg: Config, m: Dual)
    requires DualOk(cfg, m)
    ensures Finish(cfg, UntilOneDone(cfg, m)) == Finish(cfg, m)
    decreases Unfinished(m.side0) + Unfinished(m.side1)
  {
    hide DualOk, Step, Unfinished;
    if m.side0.op.Some? && m.side1.op.Some? {
      StepFacts(cfg, m, Next(cfg, m).value);
      SameFinish(cfg, Step(cfg, m, Next(cfg, m).value));
    }
  }

  /** As the first CPU finishes, the other one would go on to ask for nothing at or after the finished one's clock. */
  ghost predicate NothingTooLate(cfg: Config, m: Dual)
    requires DualOk(cfg, m)
  {
    var e := UntilOneDone(cfg, m);
    && (e.side1.op.None? ==> AllBefore(SoloTimes(cfg, e, 0), e.side1.cpu.time))
    && (e.side0.op.None? ==> AllBefore(SoloTimes(cfg, e, 1), e.side0.cpu.time))
  }

  /** From any state, the run ends both scripts exactly then. */
  lemma EndsExactly(cfg: Config, m: Dual)
    requires DualOk(cfg, m)
    ensures BothDone(Finish(cfg, m)) <==> NothingTooLate(cfg, m)
  {
    hide DualOk, Finish, AllBefore, SoloTimes;
    var e := UntilOneDone(cfg, m);
    SameFinish(cfg, m);
    if e.side1.op.None? {
      SurvivorEnds(cfg, e, 0);
    }
    if e.side0.op.None? {
      SurvivorEnds(cfg, e, 1);
    }
  }
}
