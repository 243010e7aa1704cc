/** Committed RAM, the per-CPU store buffer and the direct-mapped cache. */
module Memory {
  import opened Prelude

  // ----- address helpers -----

  /** An access of one, two or four bytes at a multiple of its size. */
  predicate Aligned(phys: nat, size: nat) {
    size == 1 || (size == 2 && phys % 2 == 0) || (size == 4 && phys % 4 == 0)
  }

  function ToPhys(vaddr: nat): nat {
    vaddr % 0x2000_0000
  }

  predicate IsUncachedAlias(vaddr: nat) {
    vaddr / 0x2000_0000 % 2 == 1
  }

  predicate IsMmio(phys: nat) {
    || 0x05C0_0000 <= phys <= 0x05CF_FFFF
    || 0x05D0_0000 <= phys <= 0x05DF_FFFF
    || 0x05F0_0000 <= phys <= 0x05FF_FFFF
  }

  predicate InRange(storageSize: nat, phys: nat, size: nat) {
    phys + size <= storageSize
  }

  // ----- big-endian packing -----

  /** Byte k of a word, counted from the least significant end. */
  function ByteOf(v: Word, k: nat): Byte
  {
    if k == 0 then (v & 0xFF) as Byte else ByteOf(v >> 8, k - 1)
  }

  /** A byte moved to position k, counted from the least significant end. */
  function Lane(b: Byte, k: nat): Word
  {
    if k == 0 then b as Word else Lane(b, k - 1) << 8
  }

  /** The first `count` bytes at `offset`, packed as the leading lanes of a `size`-byte big-endian value. */
  function Gather(bytes: seq<Byte>, offset: nat, size: nat, count: nat): Word
    requires count <= size <= 4 && offset + size <= |bytes|
  {
    if count == 0 then 0
    else Gather(bytes, offset, size, count - 1) | Lane(bytes[offset + count - 1], size - count)
  }

  /** `bytes` with the `size` bytes at `offset` replaced by the big-endian encoding of `value`. */
  function Scatter(bytes: seq<Byte>, offset: nat, size: nat, value: Word): (r: seq<Byte>)
    requires size <= 4 && offset + size <= |bytes|
    ensures |r| == |bytes|
  {
    seq(|bytes|, i requires 0 <= i < |bytes| =>
      if offset <= i < offset + size then ByteOf(value, offset + size - 1 - i) else bytes[i])
  }

  /** The part of a word that an access of the given size carries. */
  function Truncated(value: Word, size: nat): Word {
    if size == 1 then value & 0xFF else if size == 2 then value & 0xFFFF else value
  }

  // ----- committed memory as a value -----

  function Load(m: seq<Byte>, phys: nat, size: nat): Word
    requires size <= 4
  {
    if InRange(|m|, phys, size) then Gather(m, phys, size, size) else 0
  }

  function Store(m: seq<Byte>, phys: nat, size: nat, value: Word): (r: seq<Byte>)
    requires size <= 4
    ensures |r| == |m|
  {
    if InRange(|m|, phys, size) then Scatter(m, phys, size, value) else m
  }

  function Block(m: seq<Byte>, phys: nat, size: nat): (r: seq<Byte>)
    ensures |r| == size
  {
    if InRange(|m|, phys, size) then m[phys..phys + size] else seq(size, _ => 0)
  }

  /** Packing depends on nothing but the bytes it covers, wherever they are held. */
  lemma {:induction false} GatherSame(a: seq<Byte>, x: nat, b: seq<Byte>, y: nat, size: nat, count: nat)
    requires count <= size <= 4 && x + size <= |a| && y + size <= |b|
    requires a[x..x + size] == b[y..y + size]
    ensures Gather(a, x, size, count) == Gather(b, y, size, count)
  {
    if count > 0 {
      GatherSame(a, x, b, y, size, count - 1);
      assert a[x + count - 1] == a[x..x + size][count - 1] == b[y..y + size][count - 1];
    }
  }

  lemma LaneShifts(b: Byte)
    ensures Lane(b, 0) == b as Word
    ensures Lane(b, 1) == (b as Word) << 8
    ensures Lane(b, 2) == (b as Word) << 16
    ensures Lane(b, 3) == (b as Word) << 24
  {
    assert Lane(b, 1) == Lane(b, 0) << 8;
    assert Lane(b, 2) == Lane(b, 1) << 8;
    assert Lane(b, 3) == Lane(b, 2) << 8;
  }

  lemma ByteShifts(v: Word)
    ensures ByteOf(v, 0) == (v & 0xFF) as Byte
    ensures ByteOf(v, 1) == ((v >> 8) & 0xFF) as Byte
    ensures ByteOf(v, 2) == ((v >> 16) & 0xFF) as Byte
    ensures ByteOf(v, 3) == ((v >> 24) & 0xFF) as Byte
  {
    assert ByteOf(v, 1) == ByteOf(v >> 8, 0);
    assert ByteOf(v, 2) == ByteOf(v >> 8, 1) == ByteOf((v >> 8) >> 8, 0);
    assert ByteOf(v, 3) == ByteOf(v >> 8, 2) == ByteOf((v >> 8) >> 8, 1) == ByteOf(((v >> 8) >> 8) >> 8, 0);
  }

  /** Splitting a word into bytes and packing them again loses nothing. */
  lemma Repacked(v: Word)
    ensures ((0 | Lane(ByteOf(v, 3), 3) | Lane(ByteOf(v, 2), 2)) | Lane(ByteOf(v, 1), 1)) | Lane(ByteOf(v, 0), 0) == v
  {
    LaneShifts(ByteOf(v, 3));
    LaneShifts(ByteOf(v, 2));
    LaneShifts(ByteOf(v, 1));
    LaneShifts(ByteOf(v, 0));
    ByteShifts(v);
  }

  lemma RepackedLow(v: Word)
    ensures 0 | Lane(ByteOf(v, 0), 0) == v & 0xFF
    ensures (0 | Lane(ByteOf(v, 1), 1)) | Lane(ByteOf(v, 0), 0) == v & 0xFFFF
  {
    LaneShifts(ByteOf(v, 1));
    LaneShifts(ByteOf(v, 0));
    ByteShifts(v);
  }

  lemma GatherStep(bytes: seq<Byte>, offset: nat, size: nat, count: nat, byte: Byte)
    requires 0 < count <= size <= 4 && offset + size <= |bytes| && bytes[offset + count - 1] == byte
    ensures Gather(bytes, offset, size, count) == Gather(bytes, offset, size, count - 1) | Lane(byte, size - count)
  {
  }

  lemma GatherOne(bytes: seq<Byte>, offset: nat, value: Word)
    requires offset + 1 <= |bytes| && bytes[offset] == ByteOf(value, 0)
    ensures Gather(bytes, offset, 1, 1) == value & 0xFF
  {
    GatherStep(bytes, offset, 1, 1, ByteOf(value, 0));
    RepackedLow(value);
  }

  lemma GatherTwo(bytes: seq<Byte>, offset: nat, value: Word)
    requires offset + 2 <= |bytes| && bytes[offset] == ByteOf(value, 1) && bytes[offset + 1] == ByteOf(value, 0)
    ensures Gather(bytes, offset, 2, 2) == value & 0xFFFF
  {
    GatherStep(bytes, offset, 2, 1, ByteOf(value, 1));
    GatherStep(bytes, offset, 2, 2, ByteOf(value, 0));
    RepackedLow(value);
  }

  lemma GatherFour(bytes: seq<Byte>, offset: nat, value: Word)
    requires offset + 4 <= |bytes|
    requires bytes[offset] == ByteOf(value, 3) && bytes[offset + 1] == ByteOf(value, 2)
    requires bytes[offset + 2] == ByteOf(value, 1) && bytes[offset + 3] == ByteOf(value, 0)
    ensures Gather(bytes, offset, 4, 4) == value
  {
    GatherStep(bytes, offset, 4, 1, ByteOf(value, 3));
    GatherStep(bytes, offset, 4, 2, ByteOf(value, 2));
    GatherStep(bytes, offset, 4, 3, ByteOf(value, 1));
    GatherStep(bytes, offset, 4, 4, ByteOf(value, 0));
    Repacked(value);
  }

  /** What is stored is what is read back, cut to the access size. */
  lemma GatherScattered(bytes: seq<Byte>, offset: nat, size: nat, value: Word)
    requires size in {1, 2, 4} && offset + size <= |bytes|
    ensures Gather(Scatter(bytes, offset, size, value), offset, size, size) == Truncated(value, size)
  {
    var r := Scatter(bytes, offset, size, value);
    if size == 1 {
      GatherOne(r, offset, value);
    } else if size == 2 {
      GatherTwo(r, offset, value);
    } else {
      GatherFour(r, offset, value);
    }
  }

  /** RAM read-after-write: the access itself reads back, every disjoint access is untouched,
      and an access outside the storage stores nothing and reads zero. */
  lemma LoadStored(m: seq<Byte>, phys: nat, size: nat, value: Word, other: nat, otherSize: nat)
    requires size in {1, 2, 4} && otherSize in {1, 2, 4}
    ensures InRange(|m|, phys, size) ==> Load(Store(m, phys, size, value), phys, size) == Truncated(value, size)
    ensures !InRange(|m|, phys, size) ==> Store(m, phys, size, value) == m && Load(m, phys, size) == 0
    ensures other + otherSize <= phys || phys + size <= other
            ==> Load(Store(m, phys, size, value), other, otherSize) == Load(m, other, otherSize)
  {
    if InRange(|m|, phys, size) {
      GatherScattered(m, phys, size, value);
    }
    if (other + otherSize <= phys || phys + size <= other) && InRange(|m|, other, otherSize) {
      var r := Store(m, phys, size, value);
      assert forall i :: other <= i < other + otherSize ==> r[i] == m[i];
      assert r[other..other + otherSize] == m[other..other + otherSize];
      GatherSame(r, other, m, other, otherSize, otherSize);
    }
  }

  /** RAM owned by the arbiter. */
  class CommittedMemory {
    const bytes: array<Byte>

    ghost function Contents(): seq<Byte>
      reads this, bytes
    {
      bytes[..]
    }

    constructor (sizeBytes: nat)
      ensures fresh(bytes) && bytes.Length == sizeBytes
      ensures forall i :: 0 <= i < sizeBytes ==> Contents()[i] == 0
    {
      bytes := new Byte[sizeBytes](_ => 0);
    }

    method Read(phys: nat, size: nat) returns (out: Word)
      requires size <= 4
      ensures out == Load(Contents(), phys, size)
    {
      out := 0;
      if !InRange(bytes.Length, phys, size) {
        return;
      }
      var i := 0;
      while i < size
        invariant 0 <= i <= size
        invariant out == Gather(Contents(), phys, size, i)
      {
        out := out | Lane(bytes[phys + i], size - 1 - i);
        i := i + 1;
      }
    }

    method Write(phys: nat, size: nat, value: Word)
      requires size <= 4
      modifies bytes
      ensures Contents() == Store(old(Contents()), phys, size, value)
    {
      if !InRange(bytes.Length, phys, size) {
        return;
      }
      var i := 0;
      while i < size
        invariant 0 <= i <= size
        invariant forall j :: 0 <= j < bytes.Length ==>
          bytes[j] == if phys <= j < phys + i then ByteOf(value, phys + size - 1 - j) else old(bytes[j])
      {
        bytes[phys + i] := ByteOf(value, size - 1 - i);
        i := i + 1;
      }
    }

    method ReadBlock(phys: nat, size: nat) returns (out: seq<Byte>)
      ensures out == Block(Contents(), phys, size)
    {
      out := seq(size, _ => 0);
      if !InRange(bytes.Length, phys, size) {
        return;
      }
      var i := 0;
      while i < size
        invariant 0 <= i <= size && |out| == size
        invariant forall j :: 0 <= j < i ==> out[j] == bytes[phys + j]
      {
        out := out[i := bytes[phys + i]];
        i := i + 1;
      }
    }
  }

  // ----- store buffer -----

  datatype StoreEntry = StoreEntry(storeId: nat, phys: nat, size: nat, value: Word)

  /** The newest entry with the same address and size, if any. */
  function Forwarded(entries: seq<StoreEntry>, phys: nat, size: nat): Option<Word> {
    if entries == [] then None
    else
      var last := entries[|entries| - 1];
      if last.phys == phys && last.size == size then Some(last.value)
      else Forwarded(entries[..|entries| - 1], phys, size)
  }

  /** The buffer without its oldest entry carrying this id. */
  function Retired(entries: seq<StoreEntry>, storeId: nat): seq<StoreEntry> {
    if entries == [] then []
    else if entries[0].storeId == storeId then entries[1..]
    else [entries[0]] + Retired(entries[1..], storeId)
  }

  /** Looking at one entry more. */
  lemma RetiredAt(entries: seq<StoreEntry>, i: nat, storeId: nat)
    requires i < |entries|
    ensures entries[..i] + Retired(entries[i..], storeId) ==
      if entries[i].storeId == storeId then Without(entries, i) else entries[..i + 1] + Retired(entries[i + 1..], storeId)
  {
    assert entries[i..][0] == entries[i] && entries[i..][1..] == entries[i + 1..];
    assert entries[..i] + [entries[i]] == entries[..i + 1];
  }

  lemma RetiredNone(entries: seq<StoreEntry>, storeId: nat)
    ensures entries[..0] + Retired(entries[0..], storeId) == Retired(entries, storeId)
    ensures entries[..|entries|] + Retired(entries[|entries|..], storeId) == entries
  {
    assert entries[0..] == entries;
  }

  class StoreBuffer {
    var entries: seq<StoreEntry>

    constructor ()
      ensures entries == []
    {
      entries := [];
    }

    method Push(entry: StoreEntry)
      modifies this
      ensures entries == old(entries) + [entry]
    {
      entries := entries + [entry];
    }

    method Forward(phys: nat, size: nat) returns (r: Option<Word>)
      ensures r == Forwarded(entries, phys, size)
    {
      var i := |entries|;
      assert entries[..i] == entries;
      while i > 0
        invariant 0 <= i <= |entries|
        invariant Forwarded(entries, phys, size) == Forwarded(entries[..i], phys, size)
      {
        i := i - 1;
        assert entries[..i + 1][..i] == entries[..i];
        if entries[i].phys == phys && entries[i].size == size {
          return Some(entries[i].value);
        }
      }
      return None;
    }

    method Retire(storeId: nat) returns (found: bool)
      modifies this
      ensures entries == Retired(old(entries), storeId)
      ensures found <==> exists e :: e in old(entries) && e.storeId == storeId
    {
      hide Retired, Without;
      RetiredNone(entries, storeId);
      var i := 0;
      while i < |entries|
        invariant 0 <= i <= |entries| && entries == old(entries)
        invariant forall j :: 0 <= j < i ==> entries[j].storeId != storeId
        invariant Retired(old(entries), storeId) == entries[..i] + Retired(entries[i..], storeId)
      {
        RetiredAt(entries, i, storeId);
        if entries[i].storeId == storeId {
          entries := Without(entries, i);
          return true;
        }
        i := i + 1;
      }
      return false;
    }
  }

  // ----- direct-mapped cache -----

  datatype CacheLine = CacheLine(valid: bool, tag: nat, bytes: seq<Byte>)

  /** A cache as a value: its geometry and its lines. */
  datatype Cache = Cache(lineSize: nat, lines: seq<CacheLine>) {
    ghost predicate Valid() {
      && lineSize > 0 && |lines| > 0
      && forall i :: 0 <= i < |lines| ==> |lines[i].bytes| == lineSize
    }

    function LineFor(phys: nat): CacheLine
      requires Valid()
    {
      lines[phys / lineSize % |lines|]
    }

    predicate Holds(phys: nat, size: nat)
      requires Valid()
    {
      var line := LineFor(phys);
      line.valid && line.tag == phys / lineSize && phys % lineSize + size <= lineSize
    }

    function Lookup(phys: nat, size: nat): Option<Word>
      requires Valid() && size <= 4
    {
      if Holds(phys, size) then Some(Gather(LineFor(phys).bytes, phys % lineSize, size, size)) else None
    }

    /** Write-update: a hit updates the line, a miss allocates nothing. */
    function Updated(phys: nat, size: nat, value: Word): (r: Cache)
      requires Valid() && size <= 4
      ensures r.Valid() && r.lineSize == lineSize && |r.lines| == |lines|
    {
      if Holds(phys, size) then
        var line := LineFor(phys);
        this.(lines := lines[phys / lineSize % |lines| := line.(bytes := Scatter(line.bytes, phys % lineSize, size, value))])
      else this
    }

    function Filled(lineBase: nat, data: seq<Byte>): (r: Cache)
      requires Valid()
      ensures r.Valid() && r.lineSize == lineSize && |r.lines| == |lines|
    {
      if |data| == lineSize then
        this.(lines := lines[lineBase % |lines| := CacheLine(true, lineBase, data)])
      else this
    }
  }

  class TinyCache {
    const lineSize: nat
    const lines: array<CacheLine>

    ghost function Contents(): Cache
      reads lines
    {
      Cache(lineSize, lines[..])
    }

    constructor (lineSize: nat, lineCount: nat)
      requires lineSize > 0 && lineCount > 0
      ensures fresh(lines) && lines.Length == lineCount && this.lineSize == lineSize
      ensures Contents().Valid() && forall i :: 0 <= i < lineCount ==> !Contents().lines[i].valid
    {
      this.lineSize := lineSize;
      lines := new CacheLine[lineCount](_ => CacheLine(false, 0, seq(lineSize, _ => 0)));
    }

    method Read(phys: nat, size: nat) returns (out: Option<Word>)
      requires Contents().Valid() && size <= 4
      ensures out == Contents().Lookup(phys, size)
    {
      var lineBase := phys / lineSize;
      var line := lines[lineBase % lines.Length];
      if !line.valid || line.tag != lineBase {
        return None;
      }
      var offset := phys % lineSize;
      if offset + size > lineSize {
        return None;
      }
      var value: Word := 0;
      var i := 0;
      while i < size
        invariant 0 <= i <= size
        invariant value == Gather(line.bytes, offset, size, i)
      {
        value := value | Lane(line.bytes[offset + i], size - 1 - i);
        i := i + 1;
      }
      return Some(value);
    }

    method Write(phys: nat, size: nat, value: Word)
      requires Contents().Valid() && size <= 4
      modifies lines
      ensures Contents() == old(Contents()).Updated(phys, size, value)
    {
      var lineBase := phys / lineSize;
      var index := lineBase % lines.Length;
      var line := lines[index];
      if !line.valid || line.tag != lineBase {
        return;
      }
      var offset := phys % lineSize;
      if offset + size > lineSize {
        return;
      }
      var data := line.bytes;
      var i := 0;
      while i < size
        invariant 0 <= i <= size && |data| == lineSize
        invariant forall j :: 0 <= j < lineSize ==>
          data[j] == if offset <= j < offset + i then ByteOf(value, offset + size - 1 - j) else line.bytes[j]
      {
        data := data[offset + i := ByteOf(value, size - 1 - i)];
        i := i + 1;
      }
      assert data == Scatter(line.bytes, offset, size, value);
      lines[index] := line.(bytes := data);
    }

    method FillLine(lineBase: nat, data: seq<Byte>)
      requires Contents().Valid()
      modifies lines
      ensures Contents() == old(Contents()).Filled(lineBase, data)
    {
      if |data| != lineSize {
        return;
      }
      lines[lineBase % lines.Length] := CacheLine(true, lineBase, data);
    }
  }
}
