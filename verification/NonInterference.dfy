/** Two CPUs that keep out of each other's cache lines compute what they would compute alone. */
module NonInterference {
  import opened Prelude
  import opened Memory
  import opened Bus
  import opened ScriptedCpus
  import opened DualMachine
  import opened CacheTransparency

  // ----- one CPU between two commits -----

  ghost predicate ProgramOk(c: Cpu, ramSize: nat) {
    c.Valid() && Geometry(c.cache.lineSize, ramSize) && Plain(c.script, ramSize)
  }

  /** Instructions whose effect the rest of the machine has seen: all issued ones but the one pending. */
  function Completed(s: Side): nat {
    if s.op.Some? then s.op.value.scriptIndex else s.cpu.pc
  }

  /** The store buffer holds the pending write and nothing else. */
  function Outstanding(s: Side): seq<StoreEntry> {
    if s.op.Some? && s.op.value.op.kind == Write then
      var op := s.op.value.op;
      [StoreEntry(op.token, op.addr, op.size, op.data)]
    else []
  }

  /** The CPU has read what its program alone would have read, and its cache mirrors the memory its program alone would
      have left, the pending write included. */
  ghost predicate Local(s: Side, ram: seq<Byte>) {
    && ProgramOk(s.cpu, |ram|) && s.cpu.pc <= |s.cpu.script|
    && (s.op.Some? ==> s.op.value.scriptIndex + 1 == s.cpu.pc)
    && s.cpu.history == FlatAfter(s.cpu.script, ram, Completed(s)).history
    && Coherent(s.cpu.cache, FlatAfter(s.cpu.script, ram, s.cpu.pc).ram)
    && s.cpu.store == Outstanding(s)
  }

  ghost predicate SameProgram(c: Cpu, d: Cpu) {
    c.script == d.script && c.cache.lineSize == d.cache.lineSize
  }

  lemma FlatUnfolds(script: seq<ScriptOp>, ram: seq<Byte>, n: nat)
    requires WordSized(script) && n < |script|
    ensures FlatAfter(script, ram, n + 1) == FlatStep(FlatAfter(script, ram, n), script[n])
  {
  }

  lemma PlainFacts(c: Cpu, ramSize: nat, k: nat)
    requires ProgramOk(c, ramSize) && k < |c.script| && IsAccess(c.script[k])
    ensures var phys, size := ToPhys(c.script[k].vaddr), c.script[k].size;
            && !Uncached(c.script[k].vaddr) && !IsMmio(phys) && size <= 4 && size > 0 && phys + size <= ramSize
            && c.cache.lineSize > 0 && WholeWords(c.cache.lineSize) && Aligned(phys, size)
            && phys % c.cache.lineSize + size <= c.cache.lineSize
            && Touches(c.script, c.cache.lineSize, phys / c.cache.lineSize)
  {
    var phys, size := ToPhys(c.script[k].vaddr), c.script[k].size;
    hide ToPhys, WholeWords, Coherent;
    PlainIsAligned(phys, size);
    AccessInLine(phys, size, c.cache.lineSize);
  }

  /** At rest the store buffer is empty; a CPU that runs ahead from there reads what plain memory would give. */
  lemma {:induction false} RunAheadLocal(c: Cpu, ram: seq<Byte>)
    requires Local(Side(c, None), ram)
    ensures c.Valid() && Local(Settled(c), ram) && SameProgram(c, Settled(c).cpu)
    ensures FlatAfter(c.script, ram, Completed(Settled(c))).ram == FlatAfter(c.script, ram, c.pc).ram
    decreases |c.script| - c.pc
  {
    hide FlatAfter, Coherent, Plain, Geometry, Touches, ToPhys, IsMmio, Uncached, Aligned, WholeWords, Cache.Updated, Cache.Lookup, WordSized, Cache.Holds;
    if !c.Done() {
      var ins := c.script[c.pc];
      SizesFit(c.script, c.pc);
      FlatUnfolds(c.script, ram, c.pc);
      match ins
      case Compute(cycles) => RunAheadLocal(c.(time := c.time + cycles, pc := c.pc + 1), ram);
      case ScriptRead(vaddr, size) =>
        PlainFacts(c, |ram|, c.pc);
        var local := LocalValue(c, vaddr, size);
        if local.Some? {
          LookupReads(c.cache, FlatAfter(c.script, ram, c.pc).ram, ToPhys(vaddr), size);
          RunAheadLocal(c.(history := c.history + [local.value], pc := c.pc + 1), ram);
        }
      case ScriptWrite(vaddr, size, value) =>
        PlainFacts(c, |ram|, c.pc);
        UpdateKeeps(c.cache, FlatAfter(c.script, ram, c.pc).ram, ToPhys(vaddr), size, value);
        ValidUpdate(c.cache, ToPhys(vaddr), size, value);
      case ScriptBarrier =>
    }
  }

  lemma SizesFit(script: seq<ScriptOp>, k: nat)
    requires WordSized(script) && k < |script|
    ensures script[k].ScriptRead? || script[k].ScriptWrite? ==> script[k].size <= 4
  {
  }

  lemma ValidUpdate(cache: Cache, phys: nat, size: nat, value: Word)
    requires cache.Valid() && size <= 4
    ensures cache.Updated(phys, size, value).Valid() && cache.Updated(phys, size, value).lineSize == cache.lineSize
  {
  }

  lemma LookupReads(cache: Cache, m: seq<Byte>, phys: nat, size: nat)
    requires Coherent(cache, m) && size <= 4
    ensures cache.Lookup(phys, size).Some? ==> cache.Lookup(phys, size) == Some(Load(m, phys, size))
  {
    hide Mirrors, Load;
    if cache.Lookup(phys, size).Some? {
      HitReads(cache, m, phys, size);
    }
  }

  // ----- the shared memory -----

  /** On the lines a program touches, the shared memory is what the program alone would have left. */
  ghost predicate Agrees(ram: seq<Byte>, own: seq<Byte>, script: seq<ScriptOp>, lineSize: nat)
    requires lineSize > 0
  {
    && |ram| == |own|
    && forall a :: 0 <= a < |ram| && Touches(script, lineSize, a / lineSize) ==> ram[a] == own[a]
  }

  lemma SliceAgrees(ram: seq<Byte>, own: seq<Byte>, script: seq<ScriptOp>, lineSize: nat, line: nat, x: nat, n: nat)
    requires lineSize > 0 && Agrees(ram, own, script, lineSize) && Touches(script, lineSize, line)
    requires line * lineSize <= x && x + n <= line * lineSize + lineSize && x + n <= |ram|
    ensures ram[x..x + n] == own[x..x + n]
  {
    hide Touches;
    forall a | x <= a < x + n
      ensures ram[a] == own[a]
    {
      QuotientIs(a, lineSize, line);
    }
  }

  lemma LoadAgrees(ram: seq<Byte>, own: seq<Byte>, script: seq<ScriptOp>, lineSize: nat, phys: nat, size: nat)
    requires lineSize > 0 && Agrees(ram, own, script, lineSize) && Touches(script, lineSize, phys / lineSize)
    requires phys % lineSize + size <= lineSize && phys + size <= |ram| && size <= 4
    ensures Load(ram, phys, size) == Load(own, phys, size)
  {
    hide Touches, Agrees;
    Division(phys, lineSize);
    AgreesSize(ram, own, script, lineSize);
    SliceAgrees(ram, own, script, lineSize, phys / lineSize, phys, size);
    GatherSame(ram, phys, own, phys, size, size);
  }

  lemma AgreesSize(ram: seq<Byte>, own: seq<Byte>, script: seq<ScriptOp>, lineSize: nat)
    requires lineSize > 0 && Agrees(ram, own, script, lineSize)
    ensures |ram| == |own|
  {
  }

  /** The line the bus hands over mirrors the program's own memory. */
  lemma BlockMirrors(ram: seq<Byte>, own: seq<Byte>, script: seq<ScriptOp>, lineSize: nat, phys: nat)
    requires lineSize > 0 && Agrees(ram, own, script, lineSize) && Touches(script, lineSize, phys / lineSize)
    requires phys < |ram| && |ram| % lineSize == 0
    ensures Mirrors(Block(ram, phys / lineSize * lineSize, lineSize), own, phys / lineSize, lineSize)
  {
    hide Touches, Agrees;
    var line := phys / lineSize;
    Division(phys, lineSize);
    AgreesSize(ram, own, script, lineSize);
    LineInMemory(line, lineSize, |ram|);
    SliceAgrees(ram, own, script, lineSize, line, line * lineSize, lineSize);
  }

  lemma StoreAgrees(ram: seq<Byte>, own: seq<Byte>, script: seq<ScriptOp>, lineSize: nat, phys: nat, size: nat, value: Word)
    requires lineSize > 0 && Agrees(ram, own, script, lineSize) && size <= 4
    ensures Agrees(Store(ram, phys, size, value), Store(own, phys, size, value), script, lineSize)
  {
    hide Touches, ByteOf;
  }

  lemma StoreElsewhere(ram: seq<Byte>, own: seq<Byte>, script: seq<ScriptOp>, lineSize: nat, phys: nat, size: nat, value: Word)
    requires lineSize > 0 && Agrees(ram, own, script, lineSize) && size <= 4
    requires phys % lineSize + size <= lineSize && !Touches(script, lineSize, phys / lineSize)
    ensures Agrees(Store(ram, phys, size, value), own, script, lineSize)
  {
    hide Touches, ByteOf;
    var r := Store(ram, phys, size, value);
    forall a | 0 <= a < |r| && Touches(script, lineSize, a / lineSize)
      ensures r[a] == own[a]
    {
      if phys <= a < phys + size {
        SameLine(a, phys, size, lineSize);
      }
    }
  }

  // ----- one commit -----

  /** One CPU stands where its program alone would, and the shared memory agrees on its lines. */
  ghost predicate Tracks(s: Side, ram: seq<Byte>, shared: seq<Byte>) {
    Local(s, ram) && Agrees(shared, FlatAfter(s.cpu.script, ram, Completed(s)).ram, s.cpu.script, s.cpu.cache.lineSize)
  }

  /** What an accepted operation leaves in memory and replies. */
  lemma ExecuteEffect(cfg: Config, b: BusState, op: BusOp, i: nat, hadTie: bool)
    requires i < 2 && Validate(op) == None && op.cpuId == i && op.producer == AutoProducer && ClockOk(b, i, op.reqTime)
    ensures var done := Execute(cfg, b, op, hadTie);
            && done.bus.ram == RamAfter(b.ram, op) && done.response.value == ValueOf(b.ram, b.dev, op)
            && (FillsLine(op) ==>
                 && done.response.lineBase == op.addr / op.lineSize
                 && done.response.lineData == Block(b.ram, op.addr / op.lineSize * op.lineSize, op.lineSize))
  {
    hide ValueOf, RamAfter, DevAfter, FillsLine, LatencyOf;
  }

  /** The effect of a CPU's pending operation, in terms of its instruction. */
  lemma OpEffect(cfg: Config, b: BusState, c: Cpu, p: PendingOp, i: nat, hadTie: bool)
    requires i < 2 && OpMatches(c, p, i) && ClockOk(b, i, p.op.reqTime) && ProgramOk(c, |b.ram|)
    ensures var done, ins := Execute(cfg, b, p.op, hadTie), c.script[p.scriptIndex];
            match ins
            case ScriptBarrier => done.bus.ram == b.ram
            case Compute(_) => false
            case ScriptWrite(vaddr, size, value) =>
              && size <= 4 && done.bus.ram == Store(b.ram, ToPhys(vaddr), size, value)
              && p.op.kind == Write && p.op.addr == ToPhys(vaddr) && p.op.size == size && p.op.data == value
            case ScriptRead(vaddr, size) =>
              && size <= 4 && done.bus.ram == b.ram && done.response.value == Load(b.ram, ToPhys(vaddr), size)
              && done.response.lineBase == ToPhys(vaddr) / c.cache.lineSize
              && done.response.lineData == Block(b.ram, ToPhys(vaddr) / c.cache.lineSize * c.cache.lineSize, c.cache.lineSize)
              && p.op.kind != Write
  {
    hide Execute, ToPhys, Load, Store, Block, Validate, Coherent, Touches;
    var ins := c.script[p.scriptIndex];
    ExecuteEffect(cfg, b, p.op, i, hadTie);
    if IsAccess(ins) {
      PlainFacts(c, |b.ram|, p.scriptIndex);
    }
  }

  lemma RetiredAlone(e: StoreEntry)
    ensures Retired([e], e.storeId) == []
  {
  }

  /** The reply to the pending instruction brings the CPU and the memory to where its program alone would be. */
  lemma AnswerTracks(cfg: Config, b: BusState, s: Side, i: nat, hadTie: bool, ram: seq<Byte>)
    requires i < 2 && s.op.Some? && OpMatches(s.cpu, s.op.value, i) && ClockOk(b, i, s.cpu.time) && Tracks(s, ram, b.ram)
    ensures s.cpu.Valid() && s.op.value.scriptIndex < |s.cpu.script|
    ensures var done := Execute(cfg, b, s.op.value.op, hadTie);
            var c := Answered(s.cpu, s.op.value.scriptIndex, done.response, s.op.value.op.token);
            && Local(Side(c, None), ram) && SameProgram(s.cpu, c)
            && Agrees(done.bus.ram, FlatAfter(c.script, ram, c.pc).ram, c.script, c.cache.lineSize)
  {
    hide Execute, ToPhys, Load, Store, Block, Validate, Coherent, Touches, FlatAfter, Agrees, Mirrors, Uncached, IsMmio, Aligned, WholeWords, Plain, WordSized;
    var c, p := s.cpu, s.op.value;
    var n, ls := p.scriptIndex, c.cache.lineSize;
    var ins, own := c.script[n], FlatAfter(c.script, ram, n).ram;
    var done := Execute(cfg, b, p.op, hadTie);
    AgreesSize(b.ram, own, c.script, ls);
    SizesFit(c.script, n);
    FlatUnfolds(c.script, ram, n);
    OpEffect(cfg, b, c, p, i, hadTie);
    match ins
    case ScriptBarrier =>
    case ScriptWrite(vaddr, size, value) =>
      RetiredAlone(StoreEntry(p.op.token, p.op.addr, p.op.size, p.op.data));
      StoreAgrees(b.ram, own, c.script, ls, ToPhys(vaddr), size, value);
    case ScriptRead(vaddr, size) =>
      PlainFacts(c, |ram|, n);
      LoadAgrees(b.ram, own, c.script, ls, ToPhys(vaddr), size);
      BlockMirrors(b.ram, own, c.script, ls, ToPhys(vaddr));
      FillKeeps(c.cache, own, ToPhys(vaddr) / ls, done.response.lineData);
  }

  /** A commit of one CPU leaves the other's lines alone. */
  lemma OtherTracks(cfg: Config, b: BusState, s: Side, i: nat, hadTie: bool, other: Side, ram: seq<Byte>)
    requires i < 2 && s.op.Some? && OpMatches(s.cpu, s.op.value, i) && ClockOk(b, i, s.cpu.time)
    requires ProgramOk(s.cpu, |b.ram|) && Tracks(other, ram, b.ram)
    requires Undisturbed(other.cpu.script, other.cpu.cache.lineSize, s.cpu.script)
    ensures Tracks(other, ram, Execute(cfg, b, s.op.value.op, hadTie).bus.ram)
  {
    hide Execute, ToPhys, Load, Store, Block, Validate, Coherent, Touches, FlatAfter, Agrees, Mirrors, Uncached, IsMmio, Aligned, WholeWords;
    var p, ls := s.op.value, other.cpu.cache.lineSize;
    var ins, own := s.cpu.script[p.scriptIndex], FlatAfter(other.cpu.script, ram, Completed(other)).ram;
    OpEffect(cfg, b, s.cpu, p, i, hadTie);
    match ins
    case ScriptWrite(vaddr, size, value) =>
      PlainFacts(s.cpu, |b.ram|, p.scriptIndex);
      AccessInLine(ToPhys(vaddr), size, ls);
      StoreElsewhere(b.ram, own, other.cpu.script, ls, ToPhys(vaddr), size, value);
    case _ =>
  }

  // ----- whole runs -----

  ghost predicate Apart(c: Cpu, d: Cpu)
    requires c.cache.lineSize > 0 && d.cache.lineSize > 0
  {
    Undisturbed(c.script, c.cache.lineSize, d.script) && Undisturbed(d.script, d.cache.lineSize, c.script)
  }

  ghost predicate BothTrack(m: Dual, ram: seq<Byte>) {
    Tracks(m.side0, ram, m.bus.ram) && Tracks(m.side1, ram, m.bus.ram) && Apart(m.side0.cpu, m.side1.cpu)
  }

  lemma StepTracks(cfg: Config, m: Dual, ch: Choice, ram: seq<Byte>)
    requires ch.cpu < 2 && DualOk(cfg, m) && m.At(ch.cpu).op.Some? && BothTrack(m, ram)
    ensures BothTrack(Step(cfg, m, ch), ram)
    ensures SameProgram(m.side0.cpu, Step(cfg, m, ch).side0.cpu) && SameProgram(m.side1.cpu, Step(cfg, m, ch).side1.cpu)
  {
    hide Execute, Answered, RunAhead, OpMatches, WellFormed, Coherent, Undisturbed, FlatAfter, Agrees, Plain, Geometry, WordSized;
    var i, s, other := ch.cpu, m.At(ch.cpu), m.At(1 - ch.cpu);
    OpMatchesFacts(s.cpu, s.op.value, i);
    AgreesSize(m.bus.ram, FlatAfter(s.cpu.script, ram, Completed(s)).ram, s.cpu.script, s.cpu.cache.lineSize);
    AnswerTracks(cfg, m.bus, s, i, ch.tie, ram);
    OtherTracks(cfg, m.bus, s, i, ch.tie, other, ram);
    var r := Committing(cfg, m, ch).response;
    RunAheadLocal(Answered(s.cpu, s.op.value.scriptIndex, r, s.op.value.op.token), ram);
  }

  lemma {:induction false} ReplayTracks(cfg: Config, m: Dual, choices: seq<Choice>, ram: seq<Byte>)
    requires Possible(cfg, m, choices) && BothTrack(m, ram)
    ensures BothTrack(Replay(cfg, m, choices), ram)
    ensures SameProgram(m.side0.cpu, Replay(cfg, m, choices).side0.cpu) && SameProgram(m.side1.cpu, Replay(cfg, m, choices).side1.cpu)
    decreases |choices|
  {
    hide DualOk, Step, BothTrack;
    if choices != [] {
      StepTracks(cfg, m, choices[0], ram);
      ReplayTracks(cfg, Step(cfg, m, choices[0]), choices[1..], ram);
    }
  }

  /** A CPU as built: nothing run, nothing stored, nothing cached. */
  ghost predicate Fresh(c: Cpu) {
    && c.Valid() && c.pc == 0 && c.store == [] && c.history == []
    && forall i :: 0 <= i < |c.cache.lines| ==> !c.cache.lines[i].valid
  }

  lemma FreshTracks(c: Cpu, ram: seq<Byte>)
    requires Fresh(c) && ProgramOk(c, |ram|)
    ensures Tracks(Settled(c), ram, ram) && SameProgram(c, Settled(c).cpu)
  {
    hide RunAhead, Plain, Geometry, Mirrors, Touches, WordSized;
    RunAheadLocal(c, ram);
    assert FlatAfter(c.script, ram, 0) == Flat(ram, []);
  }

  /** Non-interference: if neither CPU writes to a cache line the other touches, then in every run of commits, legal or
      not, with any latencies, tie rule and cache geometries, each CPU has read exactly what its own program reads when
      run alone on plain memory, as far as it has got; and the lines it touches hold what its program alone leaves. */
  lemma EachCpuRunsAlone(cfg: Config, c0: Cpu, c1: Cpu, b: BusState, choices: seq<Choice>)
    requires Fresh(c0) && Fresh(c1) && ProgramOk(c0, |b.ram|) && ProgramOk(c1, |b.ram|) && Apart(c0, c1)
    requires Possible(cfg, Dual(Settled(c0), Settled(c1), b), choices)
    ensures var end := Replay(cfg, Dual(Settled(c0), Settled(c1), b), choices);
            && Tracks(end.side0, b.ram, end.bus.ram) && Tracks(end.side1, b.ram, end.bus.ram)
            && SameProgram(c0, end.side0.cpu) && SameProgram(c1, end.side1.cpu)
            && end.side0.cpu.history == FlatAfter(c0.script, b.ram, Completed(end.side0)).history
            && end.side1.cpu.history == FlatAfter(c1.script, b.ram, Completed(end.side1)).history
  {
    hide RunAhead, Coherent, FlatAfter, Agrees, Possible, Replay, Plain, Geometry, WordSized, Undisturbed;
    FreshTracks(c0, b.ram);
    FreshTracks(c1, b.ram);
    ReplayTracks(cfg, Dual(Settled(c0), Settled(c1), b), choices, b.ram);
  }

  lemma IdleIsApart(c: Cpu, idle: Cpu)
    requires c.cache.lineSize > 0 && idle.cache.lineSize > 0 && idle.script == []
    ensures Apart(c, idle)
  {
  }

  /** A CPU with the bus to itself: the cache and the store buffer cannot be told from plain memory. */
  lemma CacheIsTransparent(cfg: Config, c: Cpu, idle: Cpu, b: BusState, choices: seq<Choice>)
    requires Fresh(c) && Fresh(idle) && idle.script == [] && ProgramOk(c, |b.ram|) && ProgramOk(idle, |b.ram|)
    requires Possible(cfg, Dual(Settled(c), Settled(idle), b), choices)
    ensures var end := Replay(cfg, Dual(Settled(c), Settled(idle), b), choices).side0;
            && Local(end, b.ram) && SameProgram(c, end.cpu)
            && end.cpu.history == FlatAfter(c.script, b.ram, Completed(end)).history
            && (end.op.None? ==> end.cpu.store == [])
  {
    hide RunAhead, Coherent, FlatAfter, Agrees, Possible, Replay, Plain, WordSized, Apart;
    IdleIsApart(c, idle);
    EachCpuRunsAlone(cfg, c, idle, b, choices);
  }
}
