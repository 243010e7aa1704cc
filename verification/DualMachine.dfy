/** Two scripted CPUs on one bus, one commit at a time: the reference both drivers are measured against. */
module DualMachine {
  import opened Prelude
  import opened Memory
  import opened Bus
  import opened BusBatch
  import opened BusTiming
  import opened ScriptedCpus

  /** A CPU stopped at its next bus operation, or at the end of its script. */
  datatype Side = Side(cpu: Cpu, op: Option<PendingOp>)

  datatype Dual = Dual(side0: Side, side1: Side, bus: BusState) {
    function At(i: nat): Side {
      if i == 0 then side0 else side1
    }

    function With(i: nat, s: Side, b: BusState): Dual {
      if i == 0 then Dual(s, side1, b) else Dual(side0, s, b)
    }
  }

  /** The bus without the bookkeeping that each batch resets. */
  function Core(b: BusState): BusState {
    b.(lastEnqueued := NOTHING_ENQUEUED)
  }

  function Settled(c: Cpu): (s: Side)
    requires c.Valid()
  {
    Side(RunAhead(c).cpu, RunAhead(c).op)
  }

  /** The side after its operation has been answered and the CPU has run on. */
  function Resumed(s: Side, r: Response): Side
    requires s.cpu.Valid() && s.op.Some? && s.op.value.scriptIndex < |s.cpu.script|
  {
    Settled(Answered(s.cpu, s.op.value.scriptIndex, r, s.op.value.op.token))
  }

  // ----- what may be assumed of the scripts -----

  predicate WellFormed(ins: ScriptOp) {
    (ins.ScriptRead? || ins.ScriptWrite?) ==>
      ins.size in {1, 2, 4} && (IsMmio(ToPhys(ins.vaddr)) ==> ToPhys(ins.vaddr) % ins.size == 0)
  }

  /** A CPU whose script holds only operations the bus accepts and whose line size fits the eight bits it travels in. */
  ghost predicate CpuOk(c: Cpu, i: nat) {
    && c.Valid() && c.id == i && c.cache.lineSize < 256
    && forall k :: 0 <= k < |c.script| ==> WellFormed(c.script[k])
  }

  /** The operation a stopped CPU shows is the one its script asks for, at its own clock. */
  ghost predicate OpMatches(c: Cpu, p: PendingOp, i: nat) {
    && p.scriptIndex + 1 == c.pc <= |c.script| && p.op.sequence + 1 == c.sequence
    && p.op.reqTime == c.time && p.op.cpuId == i && p.op.producer == AutoProducer && Validate(p.op) == None
    && match c.script[p.scriptIndex]
       case Compute(_) => false
       case ScriptBarrier => p.op.kind == Barrier
       case ScriptWrite(vaddr, size, value) =>
         && p.op.kind == (if IsMmio(ToPhys(vaddr)) then MmioWrite else Write)
         && p.op.addr == ToPhys(vaddr) && p.op.size == size && p.op.data == value
       case ScriptRead(vaddr, size) =>
         && p.op.kind == (if IsMmio(ToPhys(vaddr)) then MmioRead else Read)
         && p.op.addr == ToPhys(vaddr) && p.op.size == size
         && p.op.fillLine == !Uncached(vaddr) && (p.op.fillLine ==> p.op.lineSize == c.cache.lineSize)
  }

  ghost predicate SideOk(s: Side, i: nat) {
    && CpuOk(s.cpu, i)
    && (s.op.None? ==> s.cpu.Done())
    && (s.op.Some? ==> OpMatches(s.cpu, s.op.value, i))
  }

  /** The arbiter has granted this CPU nothing beyond its clock. */
  predicate ClockOk(b: BusState, i: nat, time: Tick) {
    var last := b.lastReq.Get(SlotFor(i));
    last.None? || last.value <= time
  }

  ghost predicate DualOk(cfg: Config, m: Dual) {
    && PositiveLatency(cfg.latency)
    && SideOk(m.side0, 0) && SideOk(m.side1, 1)
    && ClockOk(m.bus, 0, m.side0.cpu.time) && ClockOk(m.bus, 1, m.side1.cpu.time)
    && NeverHalts(m.bus)
  }

  // ----- facts about one CPU -----

  function Unfinished(s: Side): nat
  {
    (if s.cpu.pc < |s.cpu.script| then |s.cpu.script| - s.cpu.pc else 0) + if s.op.Some? then 1 else 0
  }

  lemma IssueMatches(c: Cpu, i: nat)
    requires CpuOk(c, i) && !c.Done()
    ensures match c.script[c.pc]
      case Compute(_) => true
      case ScriptBarrier => OpMatches(Issued(c), PendingOp(BarrierOp(c), c.pc), i)
      case ScriptWrite(vaddr, size, value) =>
        OpMatches(Issued(AfterStore(c, vaddr, size, value)), PendingOp(WriteOp(c, vaddr, size, value), c.pc), i)
      case ScriptRead(vaddr, size) => OpMatches(Issued(c), PendingOp(ReadOp(c, vaddr, size), c.pc), i)
  {
    hide ToPhys, Cache.Updated;
    assert WellFormed(c.script[c.pc]);
  }

  /** Running ahead never turns the clock back, changes no identity and stops at a proper operation. */
  lemma {:induction false} RunAheadFacts(c: Cpu, i: nat)
    requires CpuOk(c, i)
    ensures SideOk(Settled(c), i)
    ensures Settled(c).cpu.time >= c.time && Settled(c).cpu.script == c.script
    ensures Unfinished(Settled(c)) <= Unfinished(Side(c, None))
    ensures Settled(c).op.None? ==> Settled(Settled(c).cpu) == Settled(c)
    decreases |c.script| - c.pc
  {
    hide ToPhys, Cache.Updated, Cache.Lookup, Forwarded, OpMatches, BarrierOp, WriteOp, ReadOp;
    if !c.Done() {
      IssueMatches(c, i);
      match c.script[c.pc]
      case Compute(cycles) =>
        RunAheadFacts(c.(time := c.time + cycles, pc := c.pc + 1), i);
      case ScriptRead(vaddr, size) =>
        var local := LocalValue(c, vaddr, size);
        if local.Some? {
          RunAheadFacts(c.(history := c.history + [local.value], pc := c.pc + 1), i);
        }
      case _ =>
    }
  }

  lemma ApplyFacts(c: Cpu, i: nat, scriptIndex: nat, r: Response, token: nat)
    requires CpuOk(c, i) && scriptIndex < |c.script|
    ensures var d := Answered(c, scriptIndex, r, token);
            CpuOk(d, i) && d.time == c.time + r.stall && d.script == c.script && d.pc == c.pc
  {
    hide ToPhys, Cache.Updated, Cache.Filled, Retired;
  }

  /** An accepted operation of a CPU: no fault, and the reply takes the CPU's clock to the bus finish time. */
  lemma ExecuteFacts(cfg: Config, b: BusState, op: BusOp, i: nat, hadTie: bool)
    requires i < 2 && PositiveLatency(cfg.latency) && NeverHalts(b)
    requires Validate(op) == None && op.cpuId == i && op.producer == AutoProducer && ClockOk(b, i, op.reqTime)
    ensures var done := Execute(cfg, b, op, hadTie);
            && NeverHalts(done.bus)
            && done.bus.trace.events == b.trace.events + [Committed(done.response.startTime, done.response.commitTime, op, done.response.stall, done.response.value)]
            && op.reqTime + done.response.stall == done.response.commitTime == done.bus.freeTime
            && done.response.stall >= 1
            && done.bus.lastReq == b.lastReq.Set(SlotFor(i), Some(op.reqTime))
  {
    hide ValueOf, RamAfter, DevAfter, FillsLine;
  }

  /** The reply to a CPU's operation takes its clock to the moment the bus finished it. */
  lemma ReplySetsClock(cfg: Config, m: Dual, ch: Choice)
    requires ch.cpu < 2 && DualOk(cfg, m) && m.At(ch.cpu).op.Some?
    ensures var s, done := m.At(ch.cpu), Execute(cfg, m.bus, m.At(ch.cpu).op.value.op, ch.tie);
            && s.cpu.Valid() && s.op.value.scriptIndex < |s.cpu.script|
            && Answered(s.cpu, s.op.value.scriptIndex, done.response, s.op.value.op.token).time == done.response.commitTime == done.bus.freeTime
  {
    hide Execute, Answered, WellFormed;
    var i, s := ch.cpu, m.At(ch.cpu);
    var done := Execute(cfg, m.bus, s.op.value.op, ch.tie);
    OpMatchesFacts(s.cpu, s.op.value, i);
    ExecuteFacts(cfg, m.bus, s.op.value.op, i, ch.tie);
    ApplyFacts(s.cpu, i, s.op.value.scriptIndex, done.response, s.op.value.op.token);
  }

  // ----- one commit -----

  datatype Choice = Choice(cpu: nat, tie: bool)

  function Committing(cfg: Config, m: Dual, ch: Choice): Executed
    requires m.At(ch.cpu).op.Some?
  {
    Execute(cfg, m.bus, m.At(ch.cpu).op.value.op, ch.tie)
  }

  /** Commit the chosen CPU's operation, deliver the reply, and let that CPU run to its next operation. */
  function Step(cfg: Config, m: Dual, ch: Choice): Dual
    requires ch.cpu < 2 && DualOk(cfg, m) && m.At(ch.cpu).op.Some?
  {
    var done := Committing(cfg, m, ch);
    m.With(ch.cpu, Resumed(m.At(ch.cpu), done.response), done.bus)
  }

  lemma StepFacts(cfg: Config, m: Dual, ch: Choice)
    requires ch.cpu < 2 && DualOk(cfg, m) && m.At(ch.cpu).op.Some?
    ensures DualOk(cfg, Step(cfg, m, ch))
    ensures Unfinished(Step(cfg, m, ch).At(ch.cpu)) < Unfinished(m.At(ch.cpu))
    ensures Step(cfg, m, ch).At(1 - ch.cpu) == m.At(1 - ch.cpu)
    ensures m.At(ch.cpu).cpu.time + 1 <= Step(cfg, m, ch).bus.freeTime <= Step(cfg, m, ch).At(ch.cpu).cpu.time
    ensures var done := Committing(cfg, m, ch);
            Step(cfg, m, ch).bus.trace.events == m.bus.trace.events
              + [Committed(done.response.startTime, done.response.commitTime, m.At(ch.cpu).op.value.op, done.response.stall, done.response.value)]
  {
    hide Execute, RunAhead, Answered, OpMatches, WellFormed;
    var i, s := ch.cpu, m.At(ch.cpu);
    var done := Committing(cfg, m, ch);
    OpMatchesFacts(s.cpu, s.op.value, i);
    ExecuteFacts(cfg, m.bus, s.op.value.op, i, ch.tie);
    ApplyFacts(s.cpu, i, s.op.value.scriptIndex, done.response, s.op.value.op.token);
    var c := Answered(s.cpu, s.op.value.scriptIndex, done.response, s.op.value.op.token);
    RunAheadFacts(c, i);
  }

  lemma OpMatchesFacts(c: Cpu, p: PendingOp, i: nat)
    requires OpMatches(c, p, i)
    ensures p.scriptIndex + 1 == c.pc <= |c.script|
    ensures p.op.reqTime == c.time && p.op.cpuId == i && p.op.producer == AutoProducer && Validate(p.op) == None
  {
  }

  // ----- the reference order -----

  function ReqTime(s: Side): Tick
    requires s.op.Some?
  {
    s.op.value.op.reqTime
  }

  /** Which of two operations requested at the same tick goes first. */
  function TieWinner(cfg: Config, m: Dual): nat
    requires m.side0.op.Some? && m.side1.op.Some?
  {
    if Beats(cfg, m.bus, m.side1.op.value.op, m.side0.op.value.op) then 1 else 0
  }

  predicate SameClass(cfg: Config, m: Dual)
    requires m.side0.op.Some? && m.side1.op.Some?
  {
    cfg.policy(m.side0.op.value.op) == cfg.policy(m.side1.op.value.op)
  }

  /** The earliest request goes first; simultaneous ones by the arbiter's rule. Once one CPU has finished, the other
      may only commit what it asked for before the finished CPU's clock. */
  function Next(cfg: Config, m: Dual): Option<Choice> {
    if m.side0.op.Some? && m.side1.op.Some? then
      if ReqTime(m.side0) < ReqTime(m.side1) then Some(Choice(0, false))
      else if ReqTime(m.side1) < ReqTime(m.side0) then Some(Choice(1, false))
      else Some(Choice(TieWinner(cfg, m), SameClass(cfg, m)))
    else if m.side0.op.Some? && ReqTime(m.side0) < m.side1.cpu.time then Some(Choice(0, false))
    else if m.side1.op.Some? && ReqTime(m.side1) < m.side0.cpu.time then Some(Choice(1, false))
    else None
  }

  /** What a side publishes: one past its pending request, or its clock once it has nothing pending. */
  function MarkOf(s: Side): Tick {
    if s.op.Some? then ReqTime(s) + 1 else s.cpu.time
  }

  /** No watermark is beyond what the side it speaks for still has to ask for. */
  predicate NotAhead(p: Progress, m: Dual) {
    && (p.cpu0.Some? ==> p.cpu0.value <= MarkOf(m.side0))
    && (p.cpu1.Some? ==> p.cpu1.value <= MarkOf(m.side1))
  }

  predicate Tied(m: Dual) {
    m.side0.op.Some? && m.side1.op.Some? && ReqTime(m.side0) == ReqTime(m.side1)
  }

  /** The second commit of a tied round: the loser's, without a tie. */
  function Loser(cfg: Config, m: Dual): Choice
    requires Tied(m)
  {
    Choice(1 - TieWinner(cfg, m), false)
  }

  lemma SideFacts(cfg: Config, m: Dual)
    requires DualOk(cfg, m)
    ensures m.side0.op.Some? ==> ReqTime(m.side0) == m.side0.cpu.time && SlotOf(m.side0.op.value.op) == Cpu0Slot
    ensures m.side1.op.Some? ==> ReqTime(m.side1) == m.side1.cpu.time && SlotOf(m.side1.op.value.op) == Cpu1Slot
    ensures NeverHalts(m.bus)
  {
  }

  /** After the winner of a tie has run on, the loser's operation is next in reference order. */
  lemma LoserIsNext(cfg: Config, m: Dual)
    requires DualOk(cfg, m) && Tied(m)
    ensures var m1 := Step(cfg, m, Next(cfg, m).value);
            DualOk(cfg, m1) && m1.At(Loser(cfg, m).cpu) == m.At(Loser(cfg, m).cpu) && Next(cfg, m1) == Some(Loser(cfg, m))
  {
    hide Step, Beats, DualOk;
    var ch := Next(cfg, m).value;
    StepFacts(cfg, m, ch);
    SideFacts(cfg, m);
    SideFacts(cfg, Step(cfg, m, ch));
  }

  /** The reference run: commit in reference order until nothing more may be committed. */
  function Finish(cfg: Config, m: Dual): Dual
    requires DualOk(cfg, m)
    decreases Unfinished(m.side0) + Unfinished(m.side1)
  {
    if Next(cfg, m).None? then m
    else
      StepFacts(cfg, m, Next(cfg, m).value);
      Finish(cfg, Step(cfg, m, Next(cfg, m).value))
  }

  // ----- any order a driver could produce -----

  /** A commit some driver could make: the operation is not later than anything the other CPU may still ask for. */
  predicate Legal(m: Dual, ch: Choice) {
    && ch.cpu < 2 && m.At(ch.cpu).op.Some?
    && (m.At(1 - ch.cpu).op.Some? ==> ReqTime(m.At(ch.cpu)) <= ReqTime(m.At(1 - ch.cpu)))
    && (m.At(1 - ch.cpu).op.None? ==> ReqTime(m.At(ch.cpu)) < m.At(1 - ch.cpu).cpu.time)
  }

  lemma NextIsLegal(cfg: Config, m: Dual)
    requires Next(cfg, m).Some?
    ensures Legal(m, Next(cfg, m).value)
  {
  }

  /** A list of commits, each possible where it happens. */
  ghost predicate Possible(cfg: Config, m: Dual, choices: seq<Choice>)
    decreases |choices|
  {
    DualOk(cfg, m) &&
    (choices != [] ==>
      && choices[0].cpu < 2 && m.At(choices[0].cpu).op.Some?
      && Possible(cfg, Step(cfg, m, choices[0]), choices[1..]))
  }

  ghost function Replay(cfg: Config, m: Dual, choices: seq<Choice>): Dual
    requires Possible(cfg, m, choices)
    decreases |choices|
  {
    if choices == [] then m else Replay(cfg, Step(cfg, m, choices[0]), choices[1..])
  }

  lemma StepOk(cfg: Config, m: Dual, ch: Choice)
    requires ch.cpu < 2 && DualOk(cfg, m) && m.At(ch.cpu).op.Some?
    ensures DualOk(cfg, Step(cfg, m, ch))
  {
    StepFacts(cfg, m, ch);
  }

  lemma {:induction false} ReplayOk(cfg: Config, m: Dual, choices: seq<Choice>)
    requires Possible(cfg, m, choices)
    ensures DualOk(cfg, Replay(cfg, m, choices))
    decreases |choices|
  {
    hide Step, DualOk;
    if choices != [] {
      ReplayOk(cfg, Step(cfg, m, choices[0]), choices[1..]);
    }
  }

  /** A replay of commits each of which some driver could make. */
  ghost predicate LegalRun(cfg: Config, m: Dual, choices: seq<Choice>)
    decreases |choices|
  {
    DualOk(cfg, m) && (choices != [] ==> Legal(m, choices[0]) && LegalRun(cfg, Step(cfg, m, choices[0]), choices[1..]))
  }

  lemma {:induction false} LegalIsPossible(cfg: Config, m: Dual, choices: seq<Choice>)
    requires LegalRun(cfg, m, choices)
    ensures Possible(cfg, m, choices)
    decreases |choices|
  {
    hide Step, DualOk;
    if choices != [] {
      LegalIsPossible(cfg, Step(cfg, m, choices[0]), choices[1..]);
    }
  }

  /** Replays compose. */
  lemma {:induction false} ReplayTogether(cfg: Config, m: Dual, a: seq<Choice>, b: seq<Choice>)
    requires LegalRun(cfg, m, a) && Possible(cfg, m, a) && LegalRun(cfg, Replay(cfg, m, a), b)
    ensures LegalRun(cfg, m, a + b) && Possible(cfg, m, a + b) && Possible(cfg, Replay(cfg, m, a), b)
    ensures Replay(cfg, m, a + b) == Replay(cfg, Replay(cfg, m, a), b)
    decreases |a|
  {
    hide Step, DualOk, Legal;
    if a == [] {
      assert a + b == b;
      LegalIsPossible(cfg, m, b);
    } else {
      var m1 := Step(cfg, m, a[0]);
      LegalIsPossible(cfg, m1, a[1..]);
      ReplayTogether(cfg, m1, a[1..], b);
      assert (a + b)[0] == a[0] && (a + b)[1..] == a[1..] + b;
      LegalIsPossible(cfg, m, a + b);
    }
  }

  // ----- watermarks along a replay -----

  lemma StepMark(cfg: Config, m: Dual, ch: Choice)
    requires ch.cpu < 2 && DualOk(cfg, m) && m.At(ch.cpu).op.Some?
    ensures MarkOf(m.side0) <= MarkOf(Step(cfg, m, ch).side0) && MarkOf(m.side1) <= MarkOf(Step(cfg, m, ch).side1)
  {
    hide Step, DualOk;
    StepFacts(cfg, m, ch);
    SideFacts(cfg, m);
    SideFacts(cfg, Step(cfg, m, ch));
  }

  /** A watermark that was honest stays honest whatever is committed. */
  lemma {:induction false} MarksNeverFall(cfg: Config, m: Dual, choices: seq<Choice>, p: Progress)
    requires Possible(cfg, m, choices) && NotAhead(p, m)
    ensures NotAhead(p, Replay(cfg, m, choices))
    decreases |choices|
  {
    hide Step, DualOk, MarkOf;
    if choices != [] {
      StepMark(cfg, m, choices[0]);
      MarksNeverFall(cfg, Step(cfg, m, choices[0]), choices[1..], p);
    }
  }
}
