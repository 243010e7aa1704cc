/** Store buffer and cache told from what has been done to them. */
module MemoryHistory {
  import opened Prelude
  import opened Memory

  // ----- store buffer -----

  predicate Matches(e: StoreEntry, phys: nat, size: nat) {
    e.phys == phys && e.size == size
  }

  /** The k-th entry is the newest with this address and size. */
  predicate Newest(entries: seq<StoreEntry>, phys: nat, size: nat, k: nat) {
    k < |entries| && Matches(entries[k], phys, size) && forall j :: k < j < |entries| ==> !Matches(entries[j], phys, size)
  }

  /** Forwarding gives the value of the newest entry with that address and size, and nothing if there is none. */
  lemma {:induction false} ForwardedIsNewest(entries: seq<StoreEntry>, phys: nat, size: nat)
    ensures Forwarded(entries, phys, size).None? <==> forall k :: 0 <= k < |entries| ==> !Matches(entries[k], phys, size)
    ensures forall k :: 0 <= k < |entries| && Newest(entries, phys, size, k) ==> Forwarded(entries, phys, size) == Some(entries[k].value)
  {
    if entries != [] {
      var init, last := entries[..|entries| - 1], entries[|entries| - 1];
      ForwardedIsNewest(init, phys, size);
      if !Matches(last, phys, size) {
        assert forall k :: 0 <= k < |init| ==> init[k] == entries[k];
        assert forall k :: 0 <= k < |init| && Newest(entries, phys, size, k) ==> Newest(init, phys, size, k);
      }
    }
  }

  /** Retiring takes out the first entry with the id and keeps all others in order. */
  lemma {:induction false} RetiredIsOldest(entries: seq<StoreEntry>, storeId: nat, k: nat)
    requires k < |entries| && entries[k].storeId == storeId && forall j :: 0 <= j < k ==> entries[j].storeId != storeId
    ensures Retired(entries, storeId) == entries[..k] + entries[k + 1..]
  {
    if k > 0 {
      var rest := entries[1..];
      RetiredIsOldest(rest, storeId, k - 1);
      assert entries[..k] == [entries[0]] + rest[..k - 1];
      assert entries[k + 1..] == rest[k..];
    }
  }

  lemma {:induction false} RetiredOfNone(entries: seq<StoreEntry>, storeId: nat)
    requires forall j :: 0 <= j < |entries| ==> entries[j].storeId != storeId
    ensures Retired(entries, storeId) == entries
  {
    if entries != [] {
      RetiredOfNone(entries[1..], storeId);
    }
  }

  // ----- cache -----

  datatype CacheOp = Fill(line: nat, data: seq<Byte>) | Store(phys: nat, size: nat, value: Word)

  predicate Sized(ops: seq<CacheOp>) {
    forall k :: 0 <= k < |ops| && ops[k].Store? ==> ops[k].size <= 4
  }

  function CacheAfter(c: Cache, ops: seq<CacheOp>): (r: Cache)
    requires c.Valid() && Sized(ops)
    ensures r.Valid() && r.lineSize == c.lineSize && |r.lines| == |c.lines|
  {
    if ops == [] then c
    else
      var before := CacheAfter(c, ops[..|ops| - 1]);
      match ops[|ops| - 1]
      case Fill(line, data) => before.Filled(line, data)
      case Store(phys, size, value) => before.Updated(phys, size, value)
  }

  /** A fill that takes effect in the set of this line. */
  predicate FillsSet(op: CacheOp, lineSize: nat, sets: nat, line: nat)
    requires sets > 0
  {
    op.Fill? && |op.data| == lineSize && op.line % sets == line % sets
  }

  predicate LastFill(ops: seq<CacheOp>, lineSize: nat, sets: nat, line: nat, k: nat)
    requires sets > 0
  {
    && k < |ops| && FillsSet(ops[k], lineSize, sets, line) && ops[k].line == line
    && forall j :: k < j < |ops| ==> !FillsSet(ops[j], lineSize, sets, line)
  }

  /** The last fill of the line's set was the line itself. */
  ghost predicate Resident(ops: seq<CacheOp>, lineSize: nat, sets: nat, line: nat)
    requires sets > 0
  {
    exists k: nat :: LastFill(ops, lineSize, sets, line, k)
  }

  lemma ResidentSnoc(ops: seq<CacheOp>, op: CacheOp, lineSize: nat, sets: nat, line: nat)
    requires sets > 0
    ensures Resident(ops + [op], lineSize, sets, line) <==>
      if FillsSet(op, lineSize, sets, line) then op.line == line else Resident(ops, lineSize, sets, line)
  {
    var all := ops + [op];
    assert all[|ops|] == op;
    if FillsSet(op, lineSize, sets, line) && op.Fill? && op.line == line {
      assert LastFill(all, lineSize, sets, line, |ops|);
    }
    if Resident(ops, lineSize, sets, line) && !FillsSet(op, lineSize, sets, line) {
      var k: nat :| LastFill(ops, lineSize, sets, line, k);
      assert LastFill(all, lineSize, sets, line, k);
    }
    if Resident(all, lineSize, sets, line) && !FillsSet(op, lineSize, sets, line) {
      var k: nat :| LastFill(all, lineSize, sets, line, k);
      assert forall j :: 0 <= j < |ops| ==> all[j] == ops[j];
      assert LastFill(ops, lineSize, sets, line, k);
    }
  }

  predicate LineHeld(c: Cache, line: nat)
    requires c.Valid()
  {
    c.lines[line % |c.lines|].valid && c.lines[line % |c.lines|].tag == line
  }

  lemma {:induction false} HeldIsResident(c: Cache, ops: seq<CacheOp>, line: nat)
    requires c.Valid() && Sized(ops) && forall i :: 0 <= i < |c.lines| ==> !c.lines[i].valid
    ensures LineHeld(CacheAfter(c, ops), line) <==> Resident(ops, c.lineSize, |c.lines|, line)
  {
    hide Resident;
    if ops == [] {
      NothingResident(c.lineSize, |c.lines|, line);
    } else {
      var init, op := ops[..|ops| - 1], ops[|ops| - 1];
      assert ops == init + [op];
      HeldIsResident(c, init, line);
      ResidentSnoc(init, op, c.lineSize, |c.lines|, line);
    }
  }

  lemma NothingResident(lineSize: nat, sets: nat, line: nat)
    requires sets > 0
    ensures !Resident([], lineSize, sets, line)
  {
  }

  /** After any fills and writes of an empty cache, an access hits exactly when it lies in one line and the last fill of that
      line's set was that line: a miss on a write brings nothing in, and nothing but another line of the set puts it out. */
  lemma HitIsHistory(c: Cache, ops: seq<CacheOp>, phys: nat, size: nat)
    requires c.Valid() && Sized(ops) && size <= 4 && forall i :: 0 <= i < |c.lines| ==> !c.lines[i].valid
    ensures CacheAfter(c, ops).Lookup(phys, size).Some? <==>
      phys % c.lineSize + size <= c.lineSize && Resident(ops, c.lineSize, |c.lines|, phys / c.lineSize)
  {
    hide CacheAfter, Resident;
    HeldIsResident(c, ops, phys / c.lineSize);
  }
}
