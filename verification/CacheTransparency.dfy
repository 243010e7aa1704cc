/** Caches and store buffers are invisible to programs that keep out of each other's lines. */
module CacheTransparency {
  import opened Prelude
  import opened Memory
  import opened ScriptedCpus

  // ----- a program on plain memory -----

  /** What a program has read and what it has left in a memory of its own. */
  datatype Flat = Flat(ram: seq<Byte>, history: seq<Word>)

  function FlatStep(f: Flat, ins: ScriptOp): Flat
    requires ins.ScriptRead? || ins.ScriptWrite? ==> ins.size <= 4
  {
    match ins
    case ScriptRead(vaddr, size) => f.(history := f.history + [Load(f.ram, ToPhys(vaddr), size)])
    case ScriptWrite(vaddr, size, value) => f.(ram := Store(f.ram, ToPhys(vaddr), size, value))
    case _ => f
  }

  /** The program alone on plain memory, after its first n instructions. */
  ghost function FlatAfter(script: seq<ScriptOp>, ram: seq<Byte>, n: nat): (f: Flat)
    requires WordSized(script) && n <= |script|
    ensures |f.ram| == |ram|
  {
    if n == 0 then Flat(ram, []) else FlatStep(FlatAfter(script, ram, n - 1), script[n - 1])
  }

  // ----- what is asked of the programs -----

  predicate IsAccess(ins: ScriptOp) {
    ins.ScriptRead? || ins.ScriptWrite?
  }

  /** Every access is aligned, cacheable and inside the memory. */
  ghost predicate Plain(script: seq<ScriptOp>, ramSize: nat) {
    forall k :: 0 <= k < |script| && IsAccess(script[k]) ==>
      && script[k].size in {1, 2, 4} && !Uncached(script[k].vaddr)
      && ToPhys(script[k].vaddr) % script[k].size == 0 && ToPhys(script[k].vaddr) + script[k].size <= ramSize
  }

  predicate WholeWords(lineSize: nat) {
    lineSize % 4 == 0
  }

  /** Whole words per line, whole lines in the memory, and the line size fits the bus field. */
  predicate Geometry(lineSize: nat, ramSize: nat) {
    lineSize > 0 && WholeWords(lineSize) && lineSize < 256 && ramSize % lineSize == 0
  }

  ghost predicate Touches(script: seq<ScriptOp>, lineSize: nat, line: nat)
    requires lineSize > 0
  {
    exists k :: 0 <= k < |script| && IsAccess(script[k]) && ToPhys(script[k].vaddr) / lineSize == line
  }

  /** The other program writes to no line this one touches, lines being those of this CPU's cache. */
  ghost predicate Undisturbed(script: seq<ScriptOp>, lineSize: nat, other: seq<ScriptOp>)
    requires lineSize > 0
  {
    forall l :: 0 <= l < |other| && other[l].ScriptWrite? ==> !Touches(script, lineSize, ToPhys(other[l].vaddr) / lineSize)
  }

  // ----- arithmetic of lines -----

  lemma MultipleOfFour(q: nat, d: nat)
    requires d % 4 == 0
    ensures q * d % 4 == 0
  {
    var n := d / 4;
    assert q * d == 4 * (q * n);
  }

  lemma FourFits(b: nat, n: nat, t: int, offset: nat)
    requires 4 * b + offset == 4 * t && offset < 4 * n
    ensures offset + 4 <= 4 * n
  {
  }

  lemma TwoFits(b: nat, n: nat, t: int, offset: nat)
    requires 4 * b + offset == 2 * t && offset < 4 * n
    ensures offset + 2 <= 4 * n
  {
  }

  lemma AlignedFits(base: nat, offset: nat, size: nat, lineSize: nat)
    requires base % 4 == 0 && lineSize % 4 == 0 && offset < lineSize
    requires Aligned(base + offset, size)
    ensures offset + size <= lineSize
  {
    if size == 2 {
      TwoFits(base / 4, lineSize / 4, (base + offset) / 2, offset);
    } else if size == 4 {
      FourFits(base / 4, lineSize / 4, (base + offset) / 4, offset);
    }
  }

  lemma PlainIsAligned(phys: nat, size: nat)
    requires size in {1, 2, 4} && phys % size == 0
    ensures Aligned(phys, size)
  {
  }

  lemma Division(a: nat, d: nat)
    requires d > 0
    ensures a == a / d * d + a % d && a % d < d
  {
  }

  lemma OffsetFits(phys: nat, size: nat, lineSize: nat, q: nat, r: nat)
    requires Aligned(phys, size) && WholeWords(lineSize) && r < lineSize && phys == q * lineSize + r
    ensures r + size <= lineSize
  {
    hide Aligned;
    MultipleOfFour(q, lineSize);
    AlignedFits(q * lineSize, r, size, lineSize);
  }

  /** An aligned access lies in one line. */
  lemma AccessInLine(phys: nat, size: nat, lineSize: nat)
    requires Aligned(phys, size) && lineSize > 0 && WholeWords(lineSize)
    ensures phys % lineSize + size <= lineSize
  {
    hide *;
    Division(phys, lineSize);
    OffsetFits(phys, size, lineSize, phys / lineSize, phys % lineSize);
  }

  lemma SameLine(a: nat, phys: nat, size: nat, lineSize: nat)
    requires lineSize > 0 && phys % lineSize + size <= lineSize && phys <= a < phys + size
    ensures a / lineSize == phys / lineSize
  {
    Division(phys, lineSize);
    QuotientIs(a, lineSize, phys / lineSize);
  }

  lemma LinesDisjoint(line: nat, q: nat, lineSize: nat)
    requires line < q
    ensures line * lineSize + lineSize <= q * lineSize
  {
    assert (line + 1) * lineSize <= q * lineSize;
  }

  lemma QuotientIs(a: nat, d: nat, q: nat)
    requires d > 0 && q * d <= a < q * d + d
    ensures a / d == q
  {
    Division(a, d);
    if a / d < q {
      LinesDisjoint(a / d, q, d);
    } else if q < a / d {
      LinesDisjoint(q, a / d, d);
    }
  }

  lemma LinesInOrder(line: nat, q: nat, lineSize: nat)
    requires line <= q
    ensures line * lineSize <= q * lineSize
  {
  }

  /** A line that starts inside the memory lies inside it. */
  lemma LineInMemory(line: nat, lineSize: nat, ramSize: nat)
    requires lineSize > 0 && ramSize % lineSize == 0 && line * lineSize < ramSize
    ensures line * lineSize + lineSize <= ramSize
  {
    Division(ramSize, lineSize);
    var n := ramSize / lineSize;
    if line < n {
      LinesDisjoint(line, n, lineSize);
    } else {
      LinesInOrder(n, line, lineSize);
    }
  }

  // ----- the cache agrees with a memory -----

  /** These bytes are the given line of the memory. */
  predicate Mirrors(bytes: seq<Byte>, m: seq<Byte>, line: nat, lineSize: nat) {
    line * lineSize + lineSize <= |m| && bytes == m[line * lineSize..line * lineSize + lineSize]
  }

  /** Every valid line stands in its own set and holds what the memory holds. */
  ghost predicate Coherent(cache: Cache, m: seq<Byte>) {
    && cache.Valid()
    && forall i :: 0 <= i < |cache.lines| && cache.lines[i].valid ==>
         cache.lines[i].tag % |cache.lines| == i && Mirrors(cache.lines[i].bytes, m, cache.lines[i].tag, cache.lineSize)
  }

  lemma SliceOfSlice(m: seq<Byte>, base: nat, length: nat, offset: nat, size: nat)
    requires base + length <= |m| && offset + size <= length
    ensures m[base..base + length][offset..offset + size] == m[base + offset..base + offset + size]
  {
    var a, x, y := m[base..base + length], m[base..base + length][offset..offset + size], m[base + offset..base + offset + size];
    assert |x| == |y|;
    forall i | 0 <= i < size
      ensures x[i] == y[i]
    {
      assert x[i] == a[offset + i];
    }
  }

  lemma SliceReads(bytes: seq<Byte>, m: seq<Byte>, base: nat, length: nat, offset: nat, size: nat)
    requires base + length <= |m| && bytes == m[base..base + length] && offset + size <= length && size <= 4
    ensures Gather(bytes, offset, size, size) == Load(m, base + offset, size)
  {
    hide Gather;
    SliceOfSlice(m, base, length, offset, size);
    GatherSame(bytes, offset, m, base + offset, size, size);
  }

  lemma MirrorReads(bytes: seq<Byte>, m: seq<Byte>, line: nat, lineSize: nat, phys: nat, offset: nat, size: nat)
    requires Mirrors(bytes, m, line, lineSize) && phys == line * lineSize + offset && offset + size <= lineSize && size <= 4
    ensures Gather(bytes, offset, size, size) == Load(m, phys, size)
  {
    hide Gather, Load;
    SliceReads(bytes, m, line * lineSize, lineSize, offset, size);
  }

  /** A hit gives what the memory would give. */
  lemma HitReads(cache: Cache, m: seq<Byte>, phys: nat, size: nat)
    requires Coherent(cache, m) && size <= 4 && cache.Holds(phys, size)
    ensures cache.Lookup(phys, size) == Some(Load(m, phys, size))
  {
    hide Mirrors;
    Division(phys, cache.lineSize);
    MirrorReads(cache.LineFor(phys).bytes, m, phys / cache.lineSize, cache.lineSize, phys, phys % cache.lineSize, size);
  }

  /** A write inside the line reaches the mirror, a write outside it does not. */
  lemma MirrorWritten(bytes: seq<Byte>, m: seq<Byte>, line: nat, lineSize: nat, offset: nat, size: nat, value: Word)
    requires Mirrors(bytes, m, line, lineSize) && offset + size <= lineSize && size <= 4
    ensures Mirrors(Scatter(bytes, offset, size, value), Store(m, line * lineSize + offset, size, value), line, lineSize)
  {
    hide ByteOf;
  }

  lemma MirrorUntouched(bytes: seq<Byte>, m: seq<Byte>, line: nat, lineSize: nat, phys: nat, size: nat, value: Word)
    requires Mirrors(bytes, m, line, lineSize) && size <= 4
    requires phys + size <= line * lineSize || line * lineSize + lineSize <= phys
    ensures Mirrors(bytes, Store(m, phys, size, value), line, lineSize)
  {
    hide ByteOf;
  }

  lemma OtherLine(line: nat, lineSize: nat, phys: nat, size: nat)
    requires lineSize > 0 && phys % lineSize + size <= lineSize && line != phys / lineSize
    ensures phys + size <= line * lineSize || line * lineSize + lineSize <= phys
  {
    Division(phys, lineSize);
    if line < phys / lineSize {
      LinesDisjoint(line, phys / lineSize, lineSize);
    } else {
      LinesDisjoint(phys / lineSize, line, lineSize);
    }
  }

  /** Write-update keeps the cache in step with a write to the memory, hit or miss. */
  lemma UpdateKeeps(cache: Cache, m: seq<Byte>, phys: nat, size: nat, value: Word)
    requires Coherent(cache, m) && size <= 4 && phys % cache.lineSize + size <= cache.lineSize
    ensures Coherent(cache.Updated(phys, size, value), Store(m, phys, size, value))
  {
    hide Mirrors, Store, Scatter;
    var ls, q := cache.lineSize, phys / cache.lineSize;
    Division(phys, ls);
    var r := cache.Updated(phys, size, value);
    forall i | 0 <= i < |r.lines| && r.lines[i].valid
      ensures r.lines[i].tag % |r.lines| == i && Mirrors(r.lines[i].bytes, Store(m, phys, size, value), r.lines[i].tag, ls)
    {
      var before := cache.lines[i];
      if before.tag == q {
        MirrorWritten(before.bytes, m, q, ls, phys % ls, size, value);
      } else {
        OtherLine(before.tag, ls, phys, size);
        MirrorUntouched(before.bytes, m, before.tag, ls, phys, size, value);
      }
    }
  }

  /** Filling a line from the memory keeps the cache in step with it. */
  lemma FillKeeps(cache: Cache, m: seq<Byte>, line: nat, bytes: seq<Byte>)
    requires Coherent(cache, m) && Mirrors(bytes, m, line, cache.lineSize)
    ensures Coherent(cache.Filled(line, bytes), m)
  {
    hide Mirrors;
  }
}
