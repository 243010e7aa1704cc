/** The blocking scripted CPU: it runs ahead on cache hits and stops at every bus operation. */
module ScriptedCpus {
  import opened Prelude
  import opened Memory
  import opened Bus

  datatype ScriptOp =
    | ScriptRead(vaddr: nat, size: nat)
    | ScriptWrite(vaddr: nat, size: nat, value: Word)
    | Compute(cycles: nat)
    | ScriptBarrier

  datatype PendingOp = PendingOp(op: BusOp, scriptIndex: nat)

  /** A CPU as a value. `history` lists every value the CPU's last-read register has held, oldest first. */
  datatype Cpu = Cpu(
    id: int,
    script: seq<ScriptOp>,
    pc: nat,
    sequence: nat,
    time: Tick,
    store: seq<StoreEntry>,
    nextStoreId: nat,
    cache: Cache,
    history: seq<Word>) {

    /** The geometry is usable and no access is wider than a bus word. */
    ghost predicate Valid() {
      cache.Valid() && WordSized(script)
    }

    predicate Done() {
      pc >= |script|
    }
  }

  ghost predicate WordSized(script: seq<ScriptOp>) {
    forall i :: 0 <= i < |script| && (script[i].ScriptRead? || script[i].ScriptWrite?) ==> script[i].size <= 4
  }

  predicate Uncached(vaddr: nat) {
    IsUncachedAlias(vaddr) || IsMmio(ToPhys(vaddr))
  }

  datatype Produced = Produced(cpu: Cpu, op: Option<PendingOp>)

  // ----- one script instruction at the head of the loop -----

  function BarrierOp(c: Cpu): BusOp {
    BusOp(c.id, c.time, c.sequence, Barrier, 0, 0, 0, false, 0, AutoProducer, 0)
  }

  function WriteOp(c: Cpu, vaddr: nat, size: nat, value: Word): BusOp {
    BusOp(c.id, c.time, c.sequence, if IsMmio(ToPhys(vaddr)) then MmioWrite else Write, ToPhys(vaddr), size, value,
          false, 0, AutoProducer, c.nextStoreId)
  }

  /** The line size travels in eight bits. */
  function ReadOp(c: Cpu, vaddr: nat, size: nat): BusOp {
    BusOp(c.id, c.time, c.sequence, if IsMmio(ToPhys(vaddr)) then MmioRead else Read, ToPhys(vaddr), size, 0,
          !Uncached(vaddr), if Uncached(vaddr) then 0 else c.cache.lineSize % 256, AutoProducer, 0)
  }

  /** The CPU after issuing the operation of the current instruction. */
  function Issued(c: Cpu): Cpu {
    c.(sequence := c.sequence + 1, pc := c.pc + 1)
  }

  function AfterStore(c: Cpu, vaddr: nat, size: nat, value: Word): (r: Cpu)
    requires c.Valid() && size <= 4
    ensures r.Valid()
  {
    c.(store := c.store + [StoreEntry(c.nextStoreId, ToPhys(vaddr), size, value)],
       nextStoreId := c.nextStoreId + 1,
       cache := if Uncached(vaddr) then c.cache else c.cache.Updated(ToPhys(vaddr), size, value))
  }

  /** What a cacheable read finds without the bus: a pending store first, then the cache. */
  function LocalValue(c: Cpu, vaddr: nat, size: nat): Option<Word>
    requires c.Valid() && size <= 4
  {
    if Uncached(vaddr) then None
    else
      var forwarded := Forwarded(c.store, ToPhys(vaddr), size);
      if forwarded.Some? then forwarded else c.cache.Lookup(ToPhys(vaddr), size)
  }

  /** Runs to the next bus operation, or to the end of the script. */
  function RunAhead(c: Cpu): Produced
    requires c.Valid()
    decreases |c.script| - c.pc
  {
    if c.Done() then Produced(c, None)
    else
      match c.script[c.pc]
      case Compute(cycles) => RunAhead(c.(time := c.time + cycles, pc := c.pc + 1))
      case ScriptBarrier => Produced(Issued(c), Some(PendingOp(BarrierOp(c), c.pc)))
      case ScriptWrite(vaddr, size, value) =>
        Produced(Issued(AfterStore(c, vaddr, size, value)), Some(PendingOp(WriteOp(c, vaddr, size, value), c.pc)))
      case ScriptRead(vaddr, size) =>
        var local := LocalValue(c, vaddr, size);
        if local.Some? then RunAhead(c.(history := c.history + [local.value], pc := c.pc + 1))
        else Produced(Issued(c), Some(PendingOp(ReadOp(c, vaddr, size), c.pc)))
  }

  // ----- responses -----

  predicate FillMismatch(c: Cpu, scriptIndex: nat, response: Response)
    requires c.Valid() && scriptIndex < |c.script|
  {
    var ins := c.script[scriptIndex];
    && ins.ScriptRead? && !Uncached(ins.vaddr) && response.lineData != []
    && (response.lineBase != ToPhys(ins.vaddr) / c.cache.lineSize || |response.lineData| != c.cache.lineSize)
  }

  function FilledBy(cache: Cache, phys: nat, size: nat, response: Response): (r: Cache)
    requires cache.Valid() && size <= 4
    ensures r.Valid() && r.lineSize == cache.lineSize && |r.lines| == |cache.lines|
  {
    var lineBase := phys / cache.lineSize;
    if response.lineData == [] then
      cache.Filled(lineBase, seq(cache.lineSize, _ => 0)).Updated(phys, size, response.value)
    else if response.lineBase == lineBase && |response.lineData| == cache.lineSize then
      cache.Filled(lineBase, response.lineData)
    else cache
  }

  function Answered(c: Cpu, scriptIndex: nat, response: Response, token: nat): (r: Cpu)
    requires c.Valid() && scriptIndex < |c.script|
    ensures r.Valid()
  {
    var c1 := c.(time := c.time + response.stall);
    match c.script[scriptIndex]
    case ScriptWrite(_, _, _) => c1.(store := Retired(c1.store, token))
    case ScriptRead(vaddr, size) =>
      c1.(history := c1.history + [response.value],
          cache := if Uncached(vaddr) then c1.cache else FilledBy(c1.cache, ToPhys(vaddr), size, response))
    case _ => c1
  }

  // ----- the CPU as an object -----

  class ScriptedCPU {
    const cpuId: int
    const script: seq<ScriptOp>
    const storeBuffer: StoreBuffer
    const cache: TinyCache
    var pc: nat
    var sequence: nat
    var localTime: Tick
    var lastRead: Option<Word>
    var nextStoreId: nat
    ghost var history: seq<Word>

    ghost function State(): Cpu
      reads this, storeBuffer, cache.lines
    {
      Cpu(cpuId, script, pc, sequence, localTime, storeBuffer.entries, nextStoreId, cache.Contents(), history)
    }

    ghost predicate Valid()
      reads this, storeBuffer, cache.lines
    {
      State().Valid() && lastRead == if history == [] then None else Some(history[|history| - 1])
    }

    constructor (cpuId: int, script: seq<ScriptOp>, lineSize: nat, lineCount: nat)
      requires lineSize > 0 && lineCount > 0 && WordSized(script)
      ensures Valid() && fresh(storeBuffer) && fresh(cache) && fresh(cache.lines)
      ensures State() == Cpu(cpuId, script, 0, 0, 0, [], 1, cache.Contents(), [])
      ensures cache.lineSize == lineSize && cache.lines.Length == lineCount
      ensures forall i :: 0 <= i < lineCount ==> !cache.Contents().lines[i].valid
    {
      this.cpuId, this.script := cpuId, script;
      storeBuffer := new StoreBuffer();
      cache := new TinyCache(lineSize, lineCount);
      pc, sequence, localTime, lastRead, nextStoreId, history := 0, 0, 0, None, 1, [];
    }

    predicate Done()
      reads this
    {
      pc >= |script|
    }

    method Produce() returns (op: Option<PendingOp>)
      requires Valid()
      modifies this, storeBuffer, cache.lines
      ensures Valid()
      ensures State() == RunAhead(old(State())).cpu
      ensures op == RunAhead(old(State())).op
    {
      hide ToPhys, Uncached, IsMmio, LocalValue, AfterStore;
      while !Done()
        invariant Valid()
        invariant RunAhead(State()) == RunAhead(old(State()))
        decreases |script| - pc
      {
        var ins := script[pc];
        if ins.Compute? {
          localTime := localTime + ins.cycles;
          pc := pc + 1;
        } else if ins.ScriptBarrier? {
          op := Some(PendingOp(BusOp(cpuId, localTime, sequence, Barrier, 0, 0, 0, false, 0, AutoProducer, 0), pc));
          sequence := sequence + 1;
          pc := pc + 1;
          return;
        } else {
          var phys := ToPhys(ins.vaddr);
          var uncached := Uncached(ins.vaddr);
          if ins.ScriptWrite? {
            op := IssueWrite(ins, phys, uncached);
            return;
          }
          var local := ReadLocally(ins, phys, uncached);
          if local.None? {
            op := Some(PendingOp(
              BusOp(cpuId, localTime, sequence, if IsMmio(phys) then MmioRead else Read, phys, ins.size, 0,
                    !uncached, if uncached then 0 else cache.lineSize % 256, AutoProducer, 0), pc));
            sequence := sequence + 1;
            pc := pc + 1;
            return;
          }
          lastRead := local;
          history := history + [local.value];
          pc := pc + 1;
        }
      }
      op := None;
    }

    /** What a read finds without the bus. */
    method ReadLocally(ins: ScriptOp, phys: nat, uncached: bool) returns (local: Option<Word>)
      requires Valid() && !Done() && ins == script[pc] && ins.ScriptRead?
      requires phys == ToPhys(ins.vaddr) && uncached == Uncached(ins.vaddr)
      ensures local == LocalValue(State(), ins.vaddr, ins.size)
    {
      hide ToPhys, Uncached, Forwarded, Cache.Lookup;
      local := None;
      if !uncached {
        local := storeBuffer.Forward(phys, ins.size);
        if local.None? {
          local := cache.Read(phys, ins.size);
        }
      }
    }

    /** The store-and-issue half of a write instruction. */
    method IssueWrite(ins: ScriptOp, phys: nat, uncached: bool) returns (op: Option<PendingOp>)
      requires Valid() && !Done() && ins == script[pc] && ins.ScriptWrite?
      requires phys == ToPhys(ins.vaddr) && uncached == Uncached(ins.vaddr)
      modifies this, storeBuffer, cache.lines
      ensures Valid()
      ensures State() == Issued(AfterStore(old(State()), ins.vaddr, ins.size, ins.value))
      ensures op == Some(PendingOp(WriteOp(old(State()), ins.vaddr, ins.size, ins.value), old(pc)))
    {
      hide ToPhys, Uncached, IsMmio, Cache.Updated;
      var storeId := nextStoreId;
      nextStoreId := nextStoreId + 1;
      storeBuffer.Push(StoreEntry(storeId, phys, ins.size, ins.value));
      if !uncached {
        cache.Write(phys, ins.size, ins.value);
      }
      op := Some(PendingOp(
        BusOp(cpuId, localTime, sequence, if IsMmio(phys) then MmioWrite else Write, phys, ins.size, ins.value,
              false, 0, AutoProducer, storeId), pc));
      sequence := sequence + 1;
      pc := pc + 1;
    }

    /** Applies the reply to an operation; reports a line that does not fit this cache instead of filling it. */
    method ApplyResponse(scriptIndex: nat, response: Response, token: nat) returns (mismatch: bool)
      requires Valid() && scriptIndex < |script|
      modifies this, storeBuffer, cache.lines
      ensures Valid()
      ensures State() == Answered(old(State()), scriptIndex, response, token)
      ensures mismatch == FillMismatch(old(State()), scriptIndex, response)
    {
      hide ToPhys, Uncached, Cache.Updated, Cache.Filled;
      mismatch := false;
      localTime := localTime + response.stall;
      var ins := script[scriptIndex];
      if ins.ScriptWrite? {
        var _ := storeBuffer.Retire(token);
        return;
      }
      if ins.ScriptRead? {
        lastRead := Some(response.value);
        history := history + [response.value];
        if !Uncached(ins.vaddr) {
          var phys := ToPhys(ins.vaddr);
          var lineBase := phys / cache.lineSize;
          if response.lineData != [] {
            if response.lineBase != lineBase || |response.lineData| != cache.lineSize {
              return true;
            }
            cache.FillLine(response.lineBase, response.lineData);
          } else {
            cache.FillLine(lineBase, seq(cache.lineSize, _ => 0));
            cache.Write(phys, ins.size, response.value);
          }
        }
      }
    }
  }
}
