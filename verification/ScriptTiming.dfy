/** When a scripted CPU asks for its next operation, and which instructions it passes on the way. */
module ScriptTiming {
  import opened Prelude
  import opened Memory
  import opened Bus
  import opened ScriptedCpus
  import opened DualMachine

  // ----- addresses -----

  predicate Device(vaddr: nat) {
    0x05C0_0000 <= vaddr % 0x2000_0000 < 0x05E0_0000 || 0x05F0_0000 <= vaddr % 0x2000_0000 < 0x0600_0000
  }

  /** The bus sees the low 29 bits; bit 29 asks to go past the cache, and so does any device address. */
  predicate Bypasses(vaddr: nat) {
    vaddr / 0x2000_0000 % 2 == 1 || Device(vaddr)
  }

  lemma BypassesIs(vaddr: nat)
    ensures Bypasses(vaddr) <==> Uncached(vaddr)
    ensures ToPhys(vaddr) == vaddr % 0x2000_0000
  {
  }

  // ----- passing and stopping -----

  /** A store still pending, or a line in the cache, answers this read. */
  predicate AnsweredLocally(c: Cpu, vaddr: nat, size: nat)
    requires c.Valid() && size <= 4
  {
    Forwarded(c.store, vaddr % 0x2000_0000, size).Some? || c.cache.Lookup(vaddr % 0x2000_0000, size).Some?
  }

  /** The CPU goes on past this instruction without the bus. */
  predicate Passes(c: Cpu, ins: ScriptOp)
    requires c.Valid() && (ins.ScriptRead? ==> ins.size <= 4)
  {
    ins.Compute? || (ins.ScriptRead? && !Bypasses(ins.vaddr) && AnsweredLocally(c, ins.vaddr, ins.size))
  }

  /** The cycles a piece of script computes. */
  function Cycles(part: seq<ScriptOp>): nat {
    if part == [] then 0 else (if part[0].Compute? then part[0].cycles else 0) + Cycles(part[1..])
  }

  function ComputeCycles(script: seq<ScriptOp>, from: nat, to: nat): nat
    requires from <= to <= |script|
  {
    Cycles(script[from..to])
  }

  lemma CyclesFrom(script: seq<ScriptOp>, from: nat, to: nat)
    requires from < to <= |script|
    ensures ComputeCycles(script, from, to) == (if script[from].Compute? then script[from].cycles else 0) + ComputeCycles(script, from + 1, to)
  {
    assert script[from..to][1..] == script[from + 1..to];
  }

  lemma NoCycles(script: seq<ScriptOp>, at: nat)
    ensures at <= |script| ==> ComputeCycles(script, at, at) == 0
  {
  }

  function StopOf(c: Cpu): nat
    requires c.Valid()
  {
    if Settled(c).op.Some? then Settled(c).op.value.scriptIndex else if c.pc < |c.script| then |c.script| else c.pc
  }

  lemma PassingIs(c: Cpu, vaddr: nat, size: nat)
    requires c.Valid() && size <= 4
    ensures LocalValue(c, vaddr, size).Some? <==> !Bypasses(vaddr) && AnsweredLocally(c, vaddr, size)
  {
    hide ToPhys, Uncached, Forwarded, Cache.Lookup, Bypasses;
    BypassesIs(vaddr);
  }

  /** Running ahead passes exactly the instructions that need no bus, up to the first that does: the clock moves by what is
      computed on the way and by nothing else, and neither store buffer nor cache changes before the stop. */
  lemma {:induction false} RunAheadIs(c: Cpu)
    requires c.Valid()
    ensures c.pc <= StopOf(c) && (StopOf(c) < |c.script| <==> Settled(c).op.Some?)
    ensures forall k :: c.pc <= k < StopOf(c) ==> (c.script[k].ScriptRead? ==> c.script[k].size <= 4) && Passes(c, c.script[k])
    ensures StopOf(c) < |c.script| ==>
      && (c.script[StopOf(c)].ScriptRead? ==> c.script[StopOf(c)].size <= 4) && !Passes(c, c.script[StopOf(c)])
      && Settled(c).op.value.op.reqTime == Settled(c).cpu.time
    ensures Settled(c).cpu.time == c.time + (if c.pc < |c.script| then ComputeCycles(c.script, c.pc, StopOf(c)) else 0)
    decreases |c.script| - c.pc
  {
    hide ToPhys, Cache.Updated, Cache.Lookup, Forwarded, AnsweredLocally, BarrierOp, WriteOp, ReadOp, LocalValue, Bypasses, ComputeCycles;
    OpTimes(c);
    NoCycles(c.script, c.pc);
    if !c.Done() {
      match c.script[c.pc]
      case Compute(cycles) =>
        var d := c.(time := c.time + cycles, pc := c.pc + 1);
        RunAheadIs(d);
        SamePassing(c, d);
        NoCycles(c.script, d.pc);
        CyclesFrom(c.script, c.pc, StopOf(c));
      case ScriptRead(vaddr, size) =>
        PassingIs(c, vaddr, size);
        var local := LocalValue(c, vaddr, size);
        if local.Some? {
          var d := c.(history := c.history + [local.value], pc := c.pc + 1);
          RunAheadIs(d);
          SamePassing(c, d);
          NoCycles(c.script, d.pc);
          CyclesFrom(c.script, c.pc, StopOf(c));
        }
      case _ =>
    }
  }

  lemma OpTimes(c: Cpu)
    ensures BarrierOp(c).reqTime == c.time
    ensures forall vaddr, size, value :: WriteOp(c, vaddr, size, value).reqTime == c.time
    ensures forall vaddr, size :: ReadOp(c, vaddr, size).reqTime == c.time
  {
  }

  lemma SamePassing(c: Cpu, d: Cpu)
    requires c.Valid() && d.Valid() && c.store == d.store && c.cache == d.cache
    ensures forall ins: ScriptOp :: (ins.ScriptRead? ==> ins.size <= 4) ==> Passes(c, ins) == Passes(d, ins)
  {
  }

  /** After each reply, the CPU's next operation is asked for when the bus finished the last one, plus what is computed
      between the two. */
  lemma NextAskedAt(cfg: Config, m: Dual, ch: Choice)
    requires ch.cpu < 2 && DualOk(cfg, m) && m.At(ch.cpu).op.Some?
    ensures var before, after, finish := m.At(ch.cpu), Step(cfg, m, ch).At(ch.cpu), Step(cfg, m, ch).bus.freeTime;
            && before.cpu.pc == before.op.value.scriptIndex + 1 <= |before.cpu.script| && after.cpu.script == before.cpu.script
            && (if after.op.Some? then
                  && before.cpu.pc <= after.op.value.scriptIndex < |before.cpu.script|
                  && ReqTime(after) == finish + ComputeCycles(before.cpu.script, before.cpu.pc, after.op.value.scriptIndex)
                else after.cpu.time == finish + ComputeCycles(before.cpu.script, before.cpu.pc, |before.cpu.script|))
  {
    hide Execute, Answered, RunAhead, OpMatches, WellFormed, CpuOk;
    var s := m.At(ch.cpu);
    ReplySetsClock(cfg, m, ch);
    OpMatchesFacts(s.cpu, s.op.value, ch.cpu);
    var r := Committing(cfg, m, ch).response;
    var c := Answered(s.cpu, s.op.value.scriptIndex, r, s.op.value.op.token);
    ApplyFacts(s.cpu, ch.cpu, s.op.value.scriptIndex, r, s.op.value.op.token);
    RunAheadIs(c);
    RunAheadFacts(c, ch.cpu);
  }

  /** The first operation is asked for after what the script computes before it. */
  lemma FirstAskedAt(c: Cpu)
    requires c.Valid() && c.pc == 0 && c.time == 0 && Settled(c).op.Some?
    ensures var op := Settled(c).op.value;
            op.scriptIndex < |c.script| && op.op.reqTime == ComputeCycles(c.script, 0, op.scriptIndex)
  {
    RunAheadIs(c);
  }

  // ----- what is asked for -----

  /** `op` is what this CPU asks for when it stops at this instruction, and `after` is what stopping leaves. */
  predicate AsksFor(c: Cpu, ins: ScriptOp, op: BusOp, after: Cpu) {
    && op.cpuId == c.id && op.reqTime == after.time && op.sequence == c.sequence && op.producer == AutoProducer
    && after.sequence == c.sequence + 1 && after.id == c.id && after.script == c.script
    && match ins
       case Compute(_) => false
       case ScriptBarrier => op.kind == Barrier && !op.fillLine && after.store == c.store && after.nextStoreId == c.nextStoreId
       case ScriptWrite(vaddr, size, value) =>
         && op.kind == (if Device(vaddr) then MmioWrite else Write) && op.addr == vaddr % 0x2000_0000 && op.size == size && op.data == value
         && !op.fillLine && op.token == c.nextStoreId && after.nextStoreId == c.nextStoreId + 1
         && after.store == c.store + [StoreEntry(c.nextStoreId, vaddr % 0x2000_0000, size, value)]
       case ScriptRead(vaddr, size) =>
         && op.kind == (if Device(vaddr) then MmioRead else Read) && op.addr == vaddr % 0x2000_0000 && op.size == size
         && op.fillLine == !Bypasses(vaddr) && after.store == c.store && after.nextStoreId == c.nextStoreId
  }

  lemma StopAsks(c: Cpu)
    requires c.Valid() && !c.Done()
    ensures match c.script[c.pc]
      case Compute(_) => true
      case ScriptBarrier => AsksFor(c, c.script[c.pc], BarrierOp(c), Issued(c))
      case ScriptWrite(vaddr, size, value) =>
        AsksFor(c, c.script[c.pc], WriteOp(c, vaddr, size, value), Issued(AfterStore(c, vaddr, size, value)))
      case ScriptRead(vaddr, size) => AsksFor(c, c.script[c.pc], ReadOp(c, vaddr, size), Issued(c))
    ensures c.script[c.pc].ScriptWrite? ==>
      var d := AfterStore(c, c.script[c.pc].vaddr, c.script[c.pc].size, c.script[c.pc].value); d.pc == c.pc && d.script == c.script
  {
    hide Cache.Updated;
  }

  lemma SameAsking(c: Cpu, d: Cpu, s: Side)
    requires d.id == c.id && d.sequence == c.sequence && d.store == c.store && d.nextStoreId == c.nextStoreId && d.script == c.script
    requires s.op.Some? && s.op.value.scriptIndex < |c.script|
    requires AsksFor(d, c.script[s.op.value.scriptIndex], s.op.value.op, s.cpu)
    ensures AsksFor(c, c.script[s.op.value.scriptIndex], s.op.value.op, s.cpu)
  {
  }

  /** The operation a CPU stops at is the one its instruction asks for; a write is in the store buffer from then on under a
      number of its own. */
  lemma {:induction false} OperationAsked(c: Cpu)
    requires c.Valid() && Settled(c).op.Some?
    ensures var s, p := Settled(c), Settled(c).op.value;
            && c.pc <= p.scriptIndex < |c.script| && s.cpu.pc == p.scriptIndex + 1 && s.cpu.Valid() && s.cpu.script == c.script
            && AsksFor(c, c.script[p.scriptIndex], p.op, s.cpu)
    decreases |c.script| - c.pc
  {
    hide ToPhys, Cache.Updated, Cache.Lookup, Forwarded, BarrierOp, WriteOp, ReadOp, LocalValue, AsksFor, AfterStore;
    StopAsks(c);
    match c.script[c.pc]
    case Compute(cycles) =>
      var d := c.(time := c.time + cycles, pc := c.pc + 1);
      OperationAsked(d);
      SameAsking(c, d, Settled(c));
    case ScriptRead(vaddr, size) =>
      var local := LocalValue(c, vaddr, size);
      if local.Some? {
        var d := c.(history := c.history + [local.value], pc := c.pc + 1);
        OperationAsked(d);
        SameAsking(c, d, Settled(c));
      }
    case _ =>
  }

  lemma RetiredLast(entries: seq<StoreEntry>, e: StoreEntry)
    requires forall k :: 0 <= k < |entries| ==> entries[k].storeId != e.storeId
    ensures Retired(entries + [e], e.storeId) == entries
  {
    if entries != [] {
      assert (entries + [e])[1..] == entries[1..] + [e];
      RetiredLast(entries[1..], e);
    }
  }

  /** The reply to a write takes that write, and nothing else, out of the store buffer again. */
  lemma WriteAnswered(c: Cpu, r: Response)
    requires c.Valid() && Settled(c).op.Some? && Settled(c).op.value.scriptIndex < |c.script|
    requires c.script[Settled(c).op.value.scriptIndex].ScriptWrite?
    requires forall k :: 0 <= k < |c.store| ==> c.store[k].storeId < c.nextStoreId
    ensures var s := Settled(c);
            && s.cpu.Valid() && s.op.value.scriptIndex < |s.cpu.script|
            && Answered(s.cpu, s.op.value.scriptIndex, r, s.op.value.op.token).store == c.store
  {
    hide Settled, Retired;
    OperationAsked(c);
    var s := Settled(c);
    RetiredLast(c.store, s.cpu.store[|c.store|]);
  }

  /** A reply that brings the wrong line is reported and leaves the cache alone; after any other reply to a cacheable read
      the cache holds the line read. */
  lemma MismatchReported(c: Cpu, scriptIndex: nat, r: Response, token: nat)
    requires c.Valid() && scriptIndex < |c.script| && c.script[scriptIndex].ScriptRead?
    ensures var vaddr, d := c.script[scriptIndex].vaddr, Answered(c, scriptIndex, r, token);
            && (FillMismatch(c, scriptIndex, r) ==> d.cache == c.cache)
            && (!FillMismatch(c, scriptIndex, r) && !Bypasses(vaddr) ==>
                  var line := d.cache.LineFor(vaddr % 0x2000_0000); line.valid && line.tag == vaddr % 0x2000_0000 / d.cache.lineSize)
            && (r.lineData == [] || Bypasses(vaddr) ==> !FillMismatch(c, scriptIndex, r))
  {
    hide ToPhys, Uncached, Bypasses, Scatter;
    BypassesIs(c.script[scriptIndex].vaddr);
  }

  // ----- past the cache -----

  /** A read or write through the uncached mirror or of a device always goes to the bus, at the low 29 bits of its address,
      without asking for a line; neither issuing it nor its reply looks into the cache or changes it. */
  lemma UncachedAccess(c: Cpu, r: Response, token: nat)
    requires c.Valid() && !c.Done()
    requires (c.script[c.pc].ScriptRead? || c.script[c.pc].ScriptWrite?) && Bypasses(c.script[c.pc].vaddr)
    ensures var s, vaddr := Settled(c), c.script[c.pc].vaddr;
            && s.op.Some? && s.op.value.scriptIndex == c.pc && s.op.value.op.addr == vaddr % 0x2000_0000
            && !s.op.value.op.fillLine && s.op.value.op.lineSize == 0
            && s.cpu.cache == c.cache && s.cpu.history == c.history && s.cpu.script == c.script
            && Answered(s.cpu, c.pc, r, token).cache == c.cache
            && (c.script[c.pc].ScriptRead? ==> Answered(s.cpu, c.pc, r, token).history == c.history + [r.value])
  {
    hide ToPhys, Cache.Updated, Cache.Lookup, Forwarded, Bypasses, Retired, FilledBy;
    BypassesIs(c.script[c.pc].vaddr);
  }

  /** A cacheable read that misses asks for its whole line and has it afterwards, if the bus hands over the line asked for. */
  lemma MissBringsLine(c: Cpu, r: Response, token: nat)
    requires c.Valid() && !c.Done() && c.cache.lineSize < 256
    requires c.script[c.pc].ScriptRead? && !Bypasses(c.script[c.pc].vaddr) && !AnsweredLocally(c, c.script[c.pc].vaddr, c.script[c.pc].size)
    requires r.lineBase == c.script[c.pc].vaddr % 0x2000_0000 / c.cache.lineSize && |r.lineData| == c.cache.lineSize
    ensures var s, phys := Settled(c), c.script[c.pc].vaddr % 0x2000_0000;
            && s.op.Some? && s.op.value.scriptIndex == c.pc && s.op.value.op.addr == phys
            && s.op.value.op.fillLine && s.op.value.op.lineSize == c.cache.lineSize && s.cpu.script == c.script
            && Answered(s.cpu, c.pc, r, token).cache == c.cache.Filled(phys / c.cache.lineSize, r.lineData)
  {
    hide ToPhys, Cache.Updated, Cache.Lookup, Cache.Filled, Forwarded, Bypasses, AnsweredLocally, LocalValue;
    BypassesIs(c.script[c.pc].vaddr);
    PassingIs(c, c.script[c.pc].vaddr, c.script[c.pc].size);
  }

  /** The eight bits the size of a line travels in hold the whole of it exactly below 256 bytes, and nothing of it for
      any multiple of 256. */
  lemma LineAsked(c: Cpu)
    requires c.Valid() && !c.Done()
    requires c.script[c.pc].ScriptRead? && !Bypasses(c.script[c.pc].vaddr) && !AnsweredLocally(c, c.script[c.pc].vaddr, c.script[c.pc].size)
    ensures var s := Settled(c);
            && s.op.Some? && s.op.value.scriptIndex == c.pc && s.op.value.op.fillLine
            && (s.op.value.op.lineSize == c.cache.lineSize <==> c.cache.lineSize < 256)
            && (s.op.value.op.lineSize == 0 <==> c.cache.lineSize % 256 == 0)
            && s.cpu.script == c.script && s.cpu.cache == c.cache && s.cpu.store == c.store && s.cpu.history == c.history
            && s.cpu.pc == c.pc + 1
  {
    hide ToPhys, Cache.Updated, Cache.Lookup, Cache.Filled, Forwarded, Bypasses, AnsweredLocally, LocalValue;
    BypassesIs(c.script[c.pc].vaddr);
    PassingIs(c, c.script[c.pc].vaddr, c.script[c.pc].size);
  }

  /** With lines above 256 bytes of any other size, the line that comes does not fit: the read is answered, a fault is
      reported and the cache stays without the line. */
  lemma WideLineRefused(c: Cpu, r: Response, token: nat)
    requires c.Valid() && !c.Done() && c.cache.lineSize > 256 && c.cache.lineSize % 256 != 0
    requires c.script[c.pc].ScriptRead? && !Bypasses(c.script[c.pc].vaddr) && !AnsweredLocally(c, c.script[c.pc].vaddr, c.script[c.pc].size)
    requires Settled(c).op.Some? ==> |r.lineData| == Settled(c).op.value.op.lineSize
    ensures var s := Settled(c);
            && s.op.Some? && s.cpu.Valid() && c.pc < |s.cpu.script| && FillMismatch(s.cpu, c.pc, r)
            && Answered(s.cpu, c.pc, r, token).cache == c.cache && Answered(s.cpu, c.pc, r, token).history == c.history + [r.value]
  {
    hide ToPhys, Uncached, Cache.Lookup, Cache.Filled, Cache.Updated, Bypasses, AnsweredLocally, RunAhead, AsksFor;
    LineAsked(c);
    OperationAsked(c);
    BypassesIs(c.script[c.pc].vaddr);
  }

  lemma ZeroLine(bytes: seq<Byte>, offset: nat, size: nat, count: nat)
    requires count <= size <= 4 && offset + size <= |bytes| && forall k :: offset <= k < offset + size ==> bytes[k] == 0
    ensures Gather(bytes, offset, size, count) == 0
  {
    if count > 0 {
      ZeroLine(bytes, offset, size, count - 1);
      ZeroLane(size - count);
    }
  }

  lemma {:induction false} ZeroLane(k: nat)
    ensures Lane(0, k) == 0
  {
    if k > 0 {
      ZeroLane(k - 1);
    }
  }

  lemma ScatterElsewhere(n: nat, offset: nat, size: nat, value: Word, other: nat)
    requires size <= 4 && offset + size <= n && other + 4 <= n && (other + 4 <= offset || offset + size <= other)
    ensures Gather(Scatter(seq(n, _ => 0), offset, size, value), other, 4, 4) == 0
  {
    hide Gather, ByteOf;
    ZeroLine(Scatter(seq(n, _ => 0), offset, size, value), other, 4, 4);
  }

  lemma ZeroFill(cache: Cache, line: nat)
    requires cache.Valid()
    ensures var filled := cache.Filled(line, seq(cache.lineSize, _ => 0));
            filled.lines[line % |cache.lines|] == CacheLine(true, line, seq(cache.lineSize, _ => 0))
  {
  }

  lemma LookupIn(cache: Cache, phys: nat, size: nat, i: nat, offset: nat, line: CacheLine)
    requires cache.Valid() && size <= 4 && i == phys / cache.lineSize % |cache.lines| && offset == phys % cache.lineSize
    requires line == cache.lines[i] && line.valid && line.tag == phys / cache.lineSize && offset + size <= cache.lineSize
    ensures cache.Lookup(phys, size) == Some(Gather(line.bytes, offset, size, size))
  {
    hide Gather;
  }

  lemma UpdatedIn(cache: Cache, phys: nat, size: nat, value: Word, i: nat, offset: nat, line: CacheLine)
    requires cache.Valid() && size <= 4 && i == phys / cache.lineSize % |cache.lines| && offset == phys % cache.lineSize
    requires line == cache.lines[i] && line.valid && line.tag == phys / cache.lineSize
    ensures cache.Updated(phys, size, value).lines[i] ==
      if offset + size <= cache.lineSize then line.(bytes := Scatter(line.bytes, offset, size, value)) else line
  {
    hide Scatter;
  }

  lemma ZeroFillReads(cache: Cache, phys: nat, size: nat, value: Word, other: nat)
    requires cache.Valid() && size <= 4 && other / cache.lineSize == phys / cache.lineSize && other % cache.lineSize + 4 <= cache.lineSize
    requires other + 4 <= phys || phys + size <= other
    ensures cache.Filled(phys / cache.lineSize, seq(cache.lineSize, _ => 0)).Updated(phys, size, value).Lookup(other, 4) == Some(0)
  {
    var n, line := cache.lineSize, phys / cache.lineSize;
    var i, at, there := line % |cache.lines|, phys % n, other % n;
    Remainders(phys, other, n);
    ZeroFill(cache, line);
    ZeroLine(seq(n, _ => 0), there, 4, 4);
    var filled := cache.Filled(line, seq(n, _ => 0));
    if at + size <= n {
      ScatterElsewhere(n, at, size, value, there);
    }
    hide Cache.Filled, Cache.Lookup, Cache.Updated, Gather, Scatter;
    UpdatedIn(filled, phys, size, value, i, at, filled.lines[i]);
    var after := filled.Updated(phys, size, value);
    LookupIn(after, other, 4, i, there, after.lines[i]);
  }

  /** A reply without a line leaves the rest of the line reading zero, whatever the memory holds. */
  lemma EmptyReplyReadsZero(c: Cpu, scriptIndex: nat, r: Response, token: nat, other: nat)
    requires c.Valid() && scriptIndex < |c.script| && c.script[scriptIndex].ScriptRead? && !Bypasses(c.script[scriptIndex].vaddr)
    requires r.lineData == []
    requires var phys, n := c.script[scriptIndex].vaddr % 0x2000_0000, c.cache.lineSize;
             && other / n == phys / n && other % n + 4 <= n
             && (other + 4 <= phys || phys + c.script[scriptIndex].size <= other)
    ensures Answered(c, scriptIndex, r, token).cache.Lookup(other, 4) == Some(0)
  {
    hide ToPhys, Uncached, Bypasses, Cache.Lookup, Cache.Filled, Cache.Updated;
    var vaddr, size := c.script[scriptIndex].vaddr, c.script[scriptIndex].size;
    BypassesIs(vaddr);
    ZeroFillReads(c.cache, vaddr % 0x2000_0000, size, r.value, other);
  }

  lemma PassesLast(d: Cpu, value: Word)
    requires d.Valid() && d.pc + 1 == |d.script| && d.script[d.pc].ScriptRead?
    requires LocalValue(d, d.script[d.pc].vaddr, d.script[d.pc].size) == Some(value)
    ensures RunAhead(d).cpu.history == d.history + [value]
  {
    hide LocalValue;
  }

  lemma CachedValue(d: Cpu, vaddr: nat)
    requires d.Valid() && d.store == [] && !Bypasses(vaddr)
    ensures LocalValue(d, vaddr, 4) == d.cache.Lookup(vaddr % 0x2000_0000, 4)
  {
    hide ToPhys, Cache.Lookup, Bypasses;
    BypassesIs(vaddr);
  }

  /** So with lines of a multiple of 256 bytes two reads of one line give the value of the first and then zero, where the
      memory may hold anything. */
  lemma WideLineReadsZero(c: Cpu, r: Response, token: nat)
    requires c.Valid() && c.cache.lineSize % 256 == 0 && c.store == [] && c.pc + 2 == |c.script|
    requires c.script[c.pc].ScriptRead? && !Bypasses(c.script[c.pc].vaddr) && !AnsweredLocally(c, c.script[c.pc].vaddr, c.script[c.pc].size)
    requires c.script[c.pc + 1].ScriptRead? && !Bypasses(c.script[c.pc + 1].vaddr) && c.script[c.pc + 1].size == 4
    requires var phys, other, n := c.script[c.pc].vaddr % 0x2000_0000, c.script[c.pc + 1].vaddr % 0x2000_0000, c.cache.lineSize;
             && other / n == phys / n && other % n + 4 <= n
             && (other + 4 <= phys || phys + c.script[c.pc].size <= other)
    requires r.lineData == []
    ensures var s := Settled(c);
            && s.op.Some? && s.op.value.op.lineSize == 0 && s.cpu.Valid() && c.pc < |s.cpu.script|
            && Settled(Answered(s.cpu, c.pc, r, token)).cpu.history == c.history + [r.value, 0]
  {
    hide ToPhys, Uncached, Cache.Lookup, Cache.Filled, Cache.Updated, Bypasses, AnsweredLocally, LocalValue, RunAhead, FilledBy;
    LineAsked(c);
    OperationAsked(c);
    var s := Settled(c).cpu;
    var d := Answered(s, c.pc, r, token);
    var other := c.script[c.pc + 1].vaddr;
    EmptyReplyReadsZero(s, c.pc, r, token, other % 0x2000_0000);
    CachedValue(d, other);
    PassesLast(d, 0);
  }

  lemma Remainders(x: nat, y: nat, n: nat)
    requires n > 0 && x / n == y / n
    ensures x % n - y % n == x - y
  {
    assert x == x / n * n + x % n && y == y / n * n + y % n;
  }
}
