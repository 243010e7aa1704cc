/** The public stall oracle: wait queries, grants and the choice among simultaneous requests. */
module PublicArbiters {
  import opened Prelude

  datatype Master = SH2_A | SH2_B | DMA

  datatype BusRequest = BusRequest(master: Master, addr: nat, isWrite: bool, sizeBytes: nat, nowTick: Tick)

  datatype WaitResult = WaitResult(shouldWait: bool, waitCycles: nat)

  datatype ArbiterConfig = ArbiterConfig(sameAddressContention: nat, tieTurnaround: nat)

  const MAX_WAIT := 0xFFFF_FFFF

  /** The arbiter as a value. */
  datatype State = State(freeTick: Tick, lastAddr: Option<nat>, lastCpu: Option<Master>)

  const IDLE := State(0, None, None)

  type AccessCycles = (nat, bool, nat) -> nat

  function Duration(cycles: AccessCycles, config: ArbiterConfig, s: State, req: BusRequest, hadTie: bool): (d: nat)
    ensures d >= 1
  {
    Max(1, cycles(req.addr, req.isWrite, req.sizeBytes))
    + (if s.lastAddr == Some(req.addr) then config.sameAddressContention else 0)
    + (if hadTie then config.tieTurnaround else 0)
  }

  function GrantStart(s: State, tickStart: Tick): Tick {
    Max(tickStart, s.freeTick)
  }

  function Granted(cycles: AccessCycles, config: ArbiterConfig, s: State, req: BusRequest, tickStart: Tick, hadTie: bool): State {
    State(GrantStart(s, tickStart) + Duration(cycles, config, s, req, hadTie),
          Some(req.addr),
          if req.master == DMA then s.lastCpu else Some(req.master))
  }

  function Wait(s: State, req: BusRequest): WaitResult {
    if req.nowTick >= s.freeTick then WaitResult(false, 0) else WaitResult(true, Min(s.freeTick - req.nowTick, MAX_WAIT))
  }

  // ----- who wins -----

  function PreferredCpu(s: State): Master {
    if s.lastCpu == Some(SH2_A) then SH2_B else SH2_A
  }

  /** DMA before the CPU that was not granted last, before the other CPU. */
  function Rank(s: State, m: Master): nat {
    if m == DMA then 2 else if m == PreferredCpu(s) then 1 else 0
  }

  /** No request of a higher-ranking master, and none of the same master at a lower address. */
  ghost predicate Wins(s: State, requests: seq<BusRequest>, i: nat) {
    LeadsOf(s, requests, i, |requests|)
  }

  ghost predicate LeadsOf(s: State, requests: seq<BusRequest>, i: nat, n: nat) {
    i < n <= |requests| && forall k :: 0 <= k < n ==> Beaten(s, requests[k], requests[i])
  }

  predicate Beaten(s: State, x: BusRequest, winner: BusRequest) {
    Rank(s, x.master) < Rank(s, winner.master) || (x.master == winner.master && winner.addr <= x.addr)
  }

  /** A request seen later takes the place of the best one so far: it outranks it, or it comes from the same master and has
      a lower address, or at the same address it writes where the other reads, or is smaller. */
  predicate Replaces(s: State, cand: BusRequest, cur: BusRequest) {
    || Rank(s, cand.master) > Rank(s, cur.master)
    || (cand.master == cur.master
        && (cand.addr < cur.addr
            || (cand.addr == cur.addr && ((cand.isWrite && !cur.isWrite) || cand.sizeBytes < cur.sizeBytes))))
  }

  /** The request left standing when those from position i on have been seen. */
  function Scan(s: State, requests: seq<BusRequest>, i: nat, best: nat): nat
    requires i <= |requests| && best < |requests|
    decreases |requests| - i
  {
    if i == |requests| then best
    else Scan(s, requests, i + 1, if Replaces(s, requests[i], requests[best]) then i else best)
  }

  function Chosen(s: State, requests: seq<BusRequest>): Option<nat> {
    if requests == [] then None else Some(Scan(s, requests, 1, 0))
  }

  function Priority(m: Master): int {
    if m == DMA then 2 else 1
  }

  function MasterIndex(m: Master): int {
    match m case SH2_A => 0 case SH2_B => 1 case DMA => 2
  }

  class Arbiter {
    const cycles: AccessCycles
    const config: ArbiterConfig
    var freeTick: Tick
    var lastAddr: Option<nat>
    var lastCpu: Option<Master>

    function Now(): State
      reads this
    {
      State(freeTick, lastAddr, lastCpu)
    }

    ghost predicate Valid()
      reads this
    {
      lastCpu != Some(DMA)
    }

    constructor (cycles: AccessCycles, config: ArbiterConfig)
      ensures Now() == IDLE && this.cycles == cycles && this.config == config && Valid()
    {
      this.cycles, this.config := cycles, config;
      freeTick, lastAddr, lastCpu := 0, None, None;
    }

    method QueryWait(req: BusRequest) returns (r: WaitResult)
      ensures r == Wait(Now(), req)
    {
      if req.nowTick >= freeTick {
        return WaitResult(false, 0);
      }
      var delta := freeTick - req.nowTick;
      r := WaitResult(true, if delta < MAX_WAIT then delta else MAX_WAIT);
    }

    method CommitGrant(req: BusRequest, tickStart: Tick, hadTie: bool)
      requires Valid()
      modifies this
      ensures Valid() && Now() == Granted(cycles, config, old(Now()), req, tickStart, hadTie)
    {
      var actualStart := if tickStart < freeTick then freeTick else tickStart;
      var served := cycles(req.addr, req.isWrite, req.sizeBytes);
      var duration := if served < 1 then 1 else served;
      if lastAddr.Some? && req.addr == lastAddr.value {
        duration := duration + config.sameAddressContention;
      }
      if hadTie {
        duration := duration + config.tieTurnaround;
      }
      freeTick := actualStart + duration;
      lastAddr := Some(req.addr);
      if req.master == SH2_A || req.master == SH2_B {
        lastCpu := Some(req.master);
      }
    }

    /** The scan over the requests of one tick. */
    method PickWinner(requests: seq<BusRequest>) returns (r: Option<nat>)
      requires Valid()
      ensures r == Chosen(Now(), requests)
    {
      if |requests| == 0 {
        return None;
      }
      var best := 0;
      var i := 1;
      while i < |requests|
        invariant 1 <= i <= |requests| && best < i
        invariant Scan(Now(), requests, i, best) == Scan(Now(), requests, 1, 0)
      {
        var cand, cur := requests[i], requests[best];
        if Priority(cand.master) > Priority(cur.master) {
          best := i;
        } else if Priority(cand.master) < Priority(cur.master) {
        } else if cand.master != DMA && cur.master != DMA && cand.master != cur.master {
          var preferred := SH2_A;
          if lastCpu.Some? {
            preferred := if lastCpu.value == SH2_A then SH2_B else SH2_A;
          }
          if cand.master == preferred {
            best := i;
          }
        } else if MasterIndex(cand.master) < MasterIndex(cur.master) {
          best := i;
        } else if cand.master != cur.master {
        } else if cand.addr < cur.addr {
          best := i;
        } else if cand.addr > cur.addr {
        } else if cand.isWrite != cur.isWrite && cand.isWrite {
          best := i;
        } else if cand.sizeBytes < cur.sizeBytes {
          best := i;
        }
        i := i + 1;
      }
      r := Some(best);
    }
  }

  // ----- what the choice means -----

  lemma {:induction false} ScanLeads(s: State, requests: seq<BusRequest>, i: nat, best: nat)
    requires s.lastCpu != Some(DMA) && LeadsOf(s, requests, best, i)
    ensures Scan(s, requests, i, best) < |requests| && Wins(s, requests, Scan(s, requests, i, best))
    decreases |requests| - i
  {
    hide Rank;
    if i < |requests| {
      var next := if Replaces(s, requests[i], requests[best]) then i else best;
      RanksDiffer(s, requests[i].master, requests[best].master);
      ScanLeads(s, requests, i + 1, next);
    }
  }

  lemma RanksDiffer(s: State, m: Master, n: Master)
    requires s.lastCpu != Some(DMA)
    ensures Rank(s, m) == Rank(s, n) <==> m == n
  {
  }

  /** The choice is a winner. */
  lemma ChoiceWins(s: State, requests: seq<BusRequest>)
    requires s.lastCpu != Some(DMA) && requests != []
    ensures Chosen(s, requests).Some? && Wins(s, requests, Chosen(s, requests).value)
  {
    ScanLeads(s, requests, 1, 0);
  }

  /** A write and a smaller read by one master at one address. */
  predicate Mixed(x: BusRequest, y: BusRequest) {
    x.master == y.master && x.addr == y.addr && x.isWrite && !y.isWrite && y.sizeBytes < x.sizeBytes
  }

  ghost predicate NoneMixed(requests: seq<BusRequest>) {
    forall i, j :: 0 <= i < |requests| && 0 <= j < |requests| ==> !Mixed(requests[i], requests[j])
  }

  /** Two requests take each other's place exactly when they are such a pair ... */
  lemma ReplaceEachOther(s: State, x: BusRequest, y: BusRequest)
    ensures Replaces(s, x, y) && Replaces(s, y, x) <==> Mixed(x, y) || Mixed(y, x)
  {
  }

  /** ... and then whichever is listed last wins. */
  lemma MixedLastWins(s: State, x: BusRequest, y: BusRequest)
    requires Mixed(x, y)
    ensures Chosen(s, [x, y]) == Some(1) && Chosen(s, [y, x]) == Some(1)
  {
    hide Rank;
    assert Scan(s, [x, y], 2, 1) == 1 && Scan(s, [y, x], 2, 1) == 1;
  }

  lemma ReplacesComposes(s: State, x: BusRequest, y: BusRequest, z: BusRequest)
    requires Replaces(s, x, y) && !Replaces(s, z, y)
    requires !Mixed(x, y) && !Mixed(y, x) && !Mixed(y, z) && !Mixed(z, y) && !Mixed(x, z) && !Mixed(z, x) && s.lastCpu != Some(DMA)
    ensures !Replaces(s, z, x)
  {
    hide Rank;
    RanksDiffer(s, x.master, y.master);
    RanksDiffer(s, y.master, z.master);
    RanksDiffer(s, x.master, z.master);
  }

  /** Without such pairs, no request would take the place of the one chosen. */
  lemma {:induction false} ScanUnbeaten(s: State, requests: seq<BusRequest>, i: nat, best: nat, k: nat)
    requires s.lastCpu != Some(DMA) && NoneMixed(requests) && best < i <= |requests| && k < |requests|
    requires forall j :: 0 <= j < i ==> !Replaces(s, requests[j], requests[best])
    ensures Scan(s, requests, i, best) < |requests| && !Replaces(s, requests[k], requests[Scan(s, requests, i, best)])
    decreases |requests| - i
  {
    hide Replaces, Mixed;
    if i < |requests| {
      if Replaces(s, requests[i], requests[best]) {
        forall j | 0 <= j < i + 1
          ensures !Replaces(s, requests[j], requests[i])
        {
          if j < i {
            ReplacesComposes(s, requests[i], requests[best], requests[j]);
          } else {
            NotItself(s, requests[i]);
          }
        }
        ScanUnbeaten(s, requests, i + 1, i, k);
      } else {
        ScanUnbeaten(s, requests, i + 1, best, k);
      }
    }
  }

  lemma NotItself(s: State, x: BusRequest)
    ensures !Replaces(s, x, x)
  {
  }

  /** Then the choice does not depend on the order of the list in anything but the time of asking. */
  lemma ChoiceIgnoresOrder(s: State, requests: seq<BusRequest>, other: seq<BusRequest>)
    requires s.lastCpu != Some(DMA) && multiset(requests) == multiset(other) && requests != [] && NoneMixed(requests)
    ensures Chosen(s, requests).Some? && Chosen(s, other).Some?
    ensures Chosen(s, requests).value < |requests| && Chosen(s, other).value < |other|
    ensures var x, y := requests[Chosen(s, requests).value], other[Chosen(s, other).value];
            x.master == y.master && x.addr == y.addr && x.isWrite == y.isWrite && x.sizeBytes == y.sizeBytes
  {
    hide Mixed;
    SameMembers(requests, other);
    SameNoneMixed(requests, other);
    NotItself(s, requests[0]);
    NotItself(s, other[0]);
    ScanUnbeaten(s, requests, 1, 0, 0);
    ScanUnbeaten(s, other, 1, 0, 0);
    var i, j := Scan(s, requests, 1, 0), Scan(s, other, 1, 0);
    assert requests[i] in other && other[j] in requests;
    var i' :| 0 <= i' < |other| && other[i'] == requests[i];
    var j' :| 0 <= j' < |requests| && requests[j'] == other[j];
    ScanUnbeaten(s, requests, 1, 0, j');
    ScanUnbeaten(s, other, 1, 0, i');
    RanksDiffer(s, requests[i].master, other[j].master);
  }

  lemma SameNoneMixed(requests: seq<BusRequest>, other: seq<BusRequest>)
    requires multiset(requests) == multiset(other) && NoneMixed(requests)
    ensures NoneMixed(other)
  {
    hide Mixed;
    SameMembers(requests, other);
    forall i, j | 0 <= i < |other| && 0 <= j < |other|
      ensures !Mixed(other[i], other[j])
    {
      assert other[i] in requests && other[j] in requests;
      var i' :| 0 <= i' < |requests| && requests[i'] == other[i];
      var j' :| 0 <= j' < |requests| && requests[j'] == other[j];
    }
  }

  /** Whatever order the requests are listed in, the winner has the same master and the same address. */
  lemma WinnerIgnoresOrder(s: State, requests: seq<BusRequest>, other: seq<BusRequest>, i: nat, j: nat)
    requires s.lastCpu != Some(DMA) && multiset(requests) == multiset(other)
    requires Wins(s, requests, i) && Wins(s, other, j)
    ensures requests[i].master == other[j].master && requests[i].addr == other[j].addr
  {
    hide Rank;
    SameMembers(requests, other);
    assert requests[i] in other && other[j] in requests;
    assert Beaten(s, other[j], requests[i]) && Beaten(s, requests[i], other[j]);
  }

  predicate Asks(requests: seq<BusRequest>, m: Master) {
    exists k :: 0 <= k < |requests| && requests[k].master == m
  }

  /** DMA wins whenever it asks; of the two CPUs the one that was not granted last, and A on an arbiter that has granted
      neither; the winner's address is its least. */
  lemma WinnerIs(s: State, requests: seq<BusRequest>, i: nat)
    requires s.lastCpu != Some(DMA) && Wins(s, requests, i)
    ensures requests[i].master ==
      if Asks(requests, DMA) then DMA
      else if Asks(requests, SH2_A) && Asks(requests, SH2_B) then (if s.lastCpu == Some(SH2_A) then SH2_B else SH2_A)
      else if Asks(requests, SH2_A) then SH2_A else SH2_B
    ensures forall k :: 0 <= k < |requests| && requests[k].master == requests[i].master ==> requests[i].addr <= requests[k].addr
  {
    assert Asks(requests, requests[i].master);
    if Asks(requests, DMA) {
      var k :| 0 <= k < |requests| && requests[k].master == DMA;
      assert Beaten(s, requests[k], requests[i]);
    } else if Asks(requests, PreferredCpu(s)) {
      var k :| 0 <= k < |requests| && requests[k].master == PreferredCpu(s);
      assert Beaten(s, requests[k], requests[i]);
    }
  }

  /** Without mixed pairs, the choice writes if any request of its master at its address does, and among those of its own
      direction none is smaller. */
  lemma ChoicePrefers(s: State, requests: seq<BusRequest>, k: nat)
    requires s.lastCpu != Some(DMA) && requests != [] && NoneMixed(requests) && k < |requests|
    ensures Scan(s, requests, 1, 0) < |requests|
    ensures var x, y := requests[Scan(s, requests, 1, 0)], requests[k];
            x.master == y.master && x.addr == y.addr ==> (y.isWrite ==> x.isWrite) && (x.isWrite == y.isWrite ==> x.sizeBytes <= y.sizeBytes)
  {
    hide Mixed;
    NotItself(s, requests[0]);
    ScanUnbeaten(s, requests, 1, 0, k);
  }

  // ----- rounds of choosing and granting -----

  /** One contested tick: the requests, the position that won and how it was granted. */
  datatype Round = Round(requests: seq<BusRequest>, winner: nat, tickStart: Tick, hadTie: bool)

  ghost predicate Played(cycles: AccessCycles, config: ArbiterConfig, s: State, rounds: seq<Round>)
    decreases |rounds|
  {
    rounds != [] ==>
      var r := rounds[0];
      && Wins(s, r.requests, r.winner)
      && Played(cycles, config, Granted(cycles, config, s, r.requests[r.winner], r.tickStart, r.hadTie), rounds[1..])
  }

  ghost predicate BothCpusAsk(rounds: seq<Round>) {
    forall k :: 0 <= k < |rounds| ==> Asks(rounds[k].requests, SH2_A) && Asks(rounds[k].requests, SH2_B)
  }

  /** The CPUs that won, in order, leaving out the rounds DMA won. */
  function CpuWinners(rounds: seq<Round>): seq<Master>
    requires forall k :: 0 <= k < |rounds| ==> rounds[k].winner < |rounds[k].requests|
    decreases |rounds|
  {
    if rounds == [] then []
    else
      var m := rounds[0].requests[rounds[0].winner].master;
      (if m == DMA then [] else [m]) + CpuWinners(rounds[1..])
  }

  /** The list starts with the given CPU, if with any, and no two neighbours are the same. */
  predicate AlternatesFrom(winners: seq<Master>, first: Master)
    decreases |winners|
  {
    winners != [] ==> winners[0] == first && AlternatesFrom(winners[1..], if first == SH2_A then SH2_B else SH2_A)
  }

  lemma {:induction false} WinnersExist(cycles: AccessCycles, config: ArbiterConfig, s: State, rounds: seq<Round>)
    requires Played(cycles, config, s, rounds)
    ensures forall k :: 0 <= k < |rounds| ==> rounds[k].winner < |rounds[k].requests|
    decreases |rounds|
  {
    if rounds != [] {
      var r := rounds[0];
      WinnersExist(cycles, config, Granted(cycles, config, s, r.requests[r.winner], r.tickStart, r.hadTie), rounds[1..]);
      assert forall k :: 0 < k < |rounds| ==> rounds[k] == rounds[1..][k - 1];
    }
  }

  /** While both CPUs keep asking, the rounds DMA does not take go to the two CPUs in turn, and DMA does not disturb the turn. */
  lemma {:induction false} CpusTakeTurns(cycles: AccessCycles, config: ArbiterConfig, s: State, rounds: seq<Round>)
    requires s.lastCpu != Some(DMA) && Played(cycles, config, s, rounds) && BothCpusAsk(rounds)
    ensures forall k :: 0 <= k < |rounds| ==> rounds[k].winner < |rounds[k].requests|
    ensures AlternatesFrom(CpuWinners(rounds), if s.lastCpu == Some(SH2_A) then SH2_B else SH2_A)
    decreases |rounds|
  {
    WinnersExist(cycles, config, s, rounds);
    if rounds != [] {
      var r := rounds[0];
      var next := Granted(cycles, config, s, r.requests[r.winner], r.tickStart, r.hadTie);
      assert Asks(r.requests, SH2_A) && Asks(r.requests, SH2_B);
      WinnerIs(s, r.requests, r.winner);
      CpusTakeTurns(cycles, config, next, rounds[1..]);
      var m, rest := r.requests[r.winner].master, CpuWinners(rounds[1..]);
      if m != DMA {
        assert ([m] + rest)[1..] == rest;
      } else {
        assert [] + rest == rest;
      }
    }
  }

  // ----- waiting -----

  /** A request that waits as long as it is told starts exactly when a grant would start it, if and only if the backlog
      fits the 32 bits the wait is reported in. */
  lemma WaitIsExact(s: State, req: BusRequest)
    ensures req.nowTick + Wait(s, req).waitCycles == GrantStart(s, req.nowTick) <==> s.freeTick <= req.nowTick + 0xFFFF_FFFF
    ensures Wait(s, req).shouldWait <==> GrantStart(s, req.nowTick) > req.nowTick
    ensures !Wait(s, req).shouldWait ==> Wait(s, req).waitCycles == 0
    ensures s.freeTick > req.nowTick + 0xFFFF_FFFF ==> Wait(s, req).waitCycles == 0xFFFF_FFFF
  {
  }

  datatype Interval = Interval(start: Tick, end: Tick)

  /** The bus time each round takes. */
  ghost function Occupied(cycles: AccessCycles, config: ArbiterConfig, s: State, rounds: seq<Round>): seq<Interval>
    requires Played(cycles, config, s, rounds)
    decreases |rounds|
  {
    if rounds == [] then []
    else
      var r := rounds[0];
      var next := Granted(cycles, config, s, r.requests[r.winner], r.tickStart, r.hadTie);
      [Interval(GrantStart(s, r.tickStart), next.freeTick)] + Occupied(cycles, config, next, rounds[1..])
  }

  /** Grants never overlap: each starts when or after the one before it has ended, and lasts at least a tick. */
  lemma {:induction false} GrantsDisjoint(cycles: AccessCycles, config: ArbiterConfig, s: State, rounds: seq<Round>, k: nat)
    requires Played(cycles, config, s, rounds) && k < |rounds|
    ensures var o := Occupied(cycles, config, s, rounds);
            && |o| == |rounds| && s.freeTick <= o[k].start < o[k].end
            && forall j :: 0 <= j < k ==> o[j].end <= o[k].start
    decreases |rounds|
  {
    var r := rounds[0];
    var next := Granted(cycles, config, s, r.requests[r.winner], r.tickStart, r.hadTie);
    var o, rest := Occupied(cycles, config, s, rounds), Occupied(cycles, config, next, rounds[1..]);
    OneEach(cycles, config, next, rounds[1..]);
    if k > 0 {
      GrantsDisjoint(cycles, config, next, rounds[1..], k - 1);
      assert o[k] == rest[k - 1];
      forall j | 0 <= j < k
        ensures o[j].end <= o[k].start
      {
        if j > 0 {
          assert o[j] == rest[j - 1];
        }
      }
    }
  }

  lemma {:induction false} OneEach(cycles: AccessCycles, config: ArbiterConfig, s: State, rounds: seq<Round>)
    requires Played(cycles, config, s, rounds)
    ensures |Occupied(cycles, config, s, rounds)| == |rounds|
    decreases |rounds|
  {
    if rounds != [] {
      var r := rounds[0];
      OneEach(cycles, config, Granted(cycles, config, s, r.requests[r.winner], r.tickStart, r.hadTie), rounds[1..]);
    }
  }

  /** The address granted before round k. */
  function AddressBefore(s: State, rounds: seq<Round>, k: nat): Option<nat>
    requires k <= |rounds| && forall j :: 0 <= j < |rounds| ==> rounds[j].winner < |rounds[j].requests|
  {
    if k == 0 then s.lastAddr else Some(rounds[k - 1].requests[rounds[k - 1].winner].addr)
  }

  /** Every round starts as soon as it is asked for and the one before it has ended, and is charged for going back to an
      address exactly when the round before it was granted that address. */
  lemma {:induction false} RoundHolds(cycles: AccessCycles, config: ArbiterConfig, s: State, rounds: seq<Round>, k: nat)
    requires Played(cycles, config, s, rounds) && k < |rounds|
    ensures |Occupied(cycles, config, s, rounds)| == |rounds|
    ensures forall j :: 0 <= j < |rounds| ==> rounds[j].winner < |rounds[j].requests|
    ensures var o, r := Occupied(cycles, config, s, rounds), rounds[k];
            var req, free := r.requests[r.winner], if k == 0 then s.freeTick else o[k - 1].end;
            && o[k].start == (if r.tickStart < free then free else r.tickStart)
            && o[k].end - o[k].start == Max(1, cycles(req.addr, req.isWrite, req.sizeBytes)) + (if r.hadTie then config.tieTurnaround else 0)
               + (if AddressBefore(s, rounds, k) == Some(req.addr) then config.sameAddressContention else 0)
    decreases |rounds|
  {
    var r := rounds[0];
    var next := Granted(cycles, config, s, r.requests[r.winner], r.tickStart, r.hadTie);
    OneEach(cycles, config, s, rounds);
    WinnersExist(cycles, config, s, rounds);
    if k > 0 {
      var o, rest := Occupied(cycles, config, s, rounds), Occupied(cycles, config, next, rounds[1..]);
      RoundHolds(cycles, config, next, rounds[1..], k - 1);
      assert o[k] == rest[k - 1] && rounds[1..][k - 1] == rounds[k];
      if k > 1 {
        assert o[k - 1] == rest[k - 2] && rounds[1..][k - 2] == rounds[k - 1];
      }
    }
  }
}
