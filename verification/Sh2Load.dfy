/** What a load of the SH-2 core leaves in its registers. */
module Sh2Loads {
  import opened Prelude
  import opened Sh2Cores

  // ----- loads -----

  function SignedByte(low: Word): Word {
    if low < 0x80 then low else low | 0xFFFF_FF00
  }

  function SignedWord(low: Word): Word {
    if low < 0x8000 then low else low | 0xFFFF_0000
  }

  lemma ByteSign(low: Word)
    requires low <= 0xFF
    ensures (low ^ 0x80) - 0x80 == SignedByte(low)
  {
  }

  lemma SmallWord(low: Word)
    requires low < 0x8000
    ensures (low ^ 0x8000) - 0x8000 == low
  {
  }

  lemma BigWord(low: Word)
    requires 0x8000 <= low <= 0xFFFF
    ensures (low ^ 0x8000) - 0x8000 == low | 0xFFFF_0000
  {
  }

  lemma WordSign(low: Word)
    requires low <= 0xFFFF
    ensures (low ^ 0x8000) - 0x8000 == SignedWord(low)
  {
    if low < 0x8000 {
      SmallWord(low);
    } else {
      BigWord(low);
    }
  }

  /** A byte is loaded with its sign ... */
  lemma ByteLoadsWithSign(v: Word)
    ensures Extended(1, v) == SignedByte(v & 0xFF)
  {
    hide SignedByte;
    ByteSign(v & 0xFF);
  }

  /** ... and so is a word. */
  lemma WordLoadsWithSign(v: Word)
    ensures Extended(2, v) == SignedWord(v & 0xFFFF)
  {
    hide SignedWord;
    WordSign(v & 0xFFFF);
  }

  function ByteResult(how: ByteUpdate, imm: Byte, v: Byte): Byte {
    match how case AndByte => v & imm case XorByte => v ^ imm case OrByte => v | imm
  }

  lemma CombinesAnd(imm: Byte, v: Byte)
    ensures Combined(AndByte, imm, v as Word) == ByteResult(AndByte, imm, v) as Word
  {
  }

  lemma CombinesXor(imm: Byte, v: Byte)
    ensures Combined(XorByte, imm, v as Word) == ByteResult(XorByte, imm, v) as Word
  {
  }

  lemma CombinesOr(imm: Byte, v: Byte)
    ensures Combined(OrByte, imm, v as Word) == ByteResult(OrByte, imm, v) as Word
  {
  }

  /** The byte operations combine the byte read with the operand. */
  lemma CombinesBytes(how: ByteUpdate, imm: Byte, v: Byte)
    ensures Combined(how, imm, v as Word) == ByteResult(how, imm, v) as Word
  {
    hide Combined, ByteResult;
    match how
    case AndByte => CombinesAnd(imm, v);
    case XorByte => CombinesXor(imm, v);
    case OrByte => CombinesOr(imm, v);
  }

  lemma UpdatedAt<T>(s: seq<T>, i: nat, v: T, n: nat)
    requires i < |s| && n < |s|
    ensures |s[i := v]| == |s| && s[i := v][n] == if n == i then v else s[n]
  {
  }

  lemma WithRestAt(c: CoreState, i: nat, v: Word, n: nat)
    requires n < |c.rest|
    ensures |WithRest(c, i, v).rest| == |c.rest| && WithRest(c, i, v).rest[n] == if n == i then v else c.rest[n]
  {
    if i < |c.rest| {
      UpdatedAt(c.rest, i, v, n);
    }
  }

  lemma BumpedAt(c: CoreState, i: nat, size: nat, n: nat)
    requires n < |c.rest| && i <= 15
    ensures |Bumped(c, i, size).rest| == |c.rest|
    ensures Bumped(c, i, size).rest[n] == if n == i && i < 15 then Raised(c.rest[n], size) else c.rest[n]
  {
    hide WithRest, Raised, Around;
    if i < |c.rest| {
      WithRestAt(c, i, Raised(c.rest[i], size), n);
    }
  }

  lemma OthersKept(c: CoreState, n: nat, v: Word)
    ensures var d := WithRest(c, n, v); d.sr == c.sr && d.vbr == c.vbr && d.r15 == c.r15
  {
  }

  lemma BumpedOthers(c: CoreState, i: nat, size: nat)
    ensures var d := Bumped(c, i, size);
            d.sr == c.sr && d.vbr == c.vbr && d.r15 == if i == 15 then (c.r15 + size) % 0x1_0000_0000 else c.r15
  {
    hide WithRest, Raised;
    if i < |c.rest| {
      OthersKept(c, i, Raised(c.rest[i], size));
    }
  }

  /** Where a load puts its value: R0 to R14, then PR, GBR, MACH and MACL. */
  function PlaceOf(k: Kind): Option<nat>
    requires k.DataRead?
  {
    match k.load
    case General => if k.dst < 15 then Some(k.dst) else None
    case ToPr => Some(15)
    case ToGbr => Some(16)
    case ToMach => Some(17)
    case ToMacl => Some(18)
    case _ => None
  }

  lemma LoadedAt(c: CoreState, p: PendingMem, value: Word, n: nat)
    requires p.kind.DataRead? && n < |c.rest| == 19 && (p.kind.load == General ==> p.kind.dst <= 15)
    ensures |Loaded(c, p, value).rest| == 19
    ensures Loaded(c, p, value).rest[n] ==
      if PlaceOf(p.kind) == Some(n) then (if p.kind.load == General then Extended(p.size, value) else value) else c.rest[n]
  {
    hide WithRest, Extended, AddressOf;
    if PlaceOf(p.kind).Some? {
      WithRestAt(c, PlaceOf(p.kind).value, if p.kind.load == General then Extended(p.size, value) else value, n);
    }
  }

  lemma LoadedOthers(c: CoreState, p: PendingMem, value: Word)
    requires p.kind.DataRead?
    ensures var d := Loaded(c, p, value);
            && d.sr == (if p.kind.load == ToSr then value else c.sr) && d.vbr == (if p.kind.load == ToVbr then value as nat else c.vbr)
            && d.r15 == if p.kind.load == General && p.kind.dst == 15 then Extended(p.size, value) as nat else c.r15
  {
    hide WithRest, Extended;
    match p.kind.load
    case General => OthersKept(c, p.kind.dst, Extended(p.size, value));
    case ToPr => OthersKept(c, 15, value);
    case ToGbr => OthersKept(c, 16, value);
    case ToMach => OthersKept(c, 17, value);
    case ToMacl => OthersKept(c, 18, value);
    case _ =>
  }

  /** A load changes the register it names and, unless it is the one it was addressed by, moves its address register past
      the data; no other one. */
  lemma LoadChanges(c: CoreState, p: PendingMem, value: Word, n: nat)
    requires p.kind.DataRead? && n < |c.rest| == 19 && (p.kind.load == General ==> p.kind.dst <= 15)
    requires p.kind.postInc.Some? ==> p.kind.postInc.value <= 15
    ensures var d, moved := WrittenBack(c, p, value), p.kind.postInc != Some(p.kind.dst);
            && |d.rest| == 19
            && d.rest[n] == (if PlaceOf(p.kind) == Some(n) then (if p.kind.load == General then Extended(p.size, value) else value)
                             else if n < 15 && p.kind.postInc == Some(n) && moved then Raised(c.rest[n], p.size) else c.rest[n])
  {
    hide Extended, Raised, Loaded, Bumped;
    LoadedAt(c, p, value, n);
    if PostIncrements(p.kind) {
      BumpedAt(Loaded(c, p, value), p.kind.postInc.value, p.size, n);
    }
  }

  /** The same for SR, VBR and R15. */
  lemma LoadSets(c: CoreState, p: PendingMem, value: Word)
    requires p.kind.DataRead?
    ensures var d := WrittenBack(c, p, value);
            && d.sr == (if p.kind.load == ToSr then value else c.sr)
            && d.vbr == (if p.kind.load == ToVbr then value as nat else c.vbr)
            && d.r15 == (if p.kind.load == General && p.kind.dst == 15 then Extended(p.size, value) as nat
                         else if p.kind.postInc == Some(15) && p.kind.dst != 15 then (c.r15 + p.size) % 0x1_0000_0000 else c.r15)
  {
    hide Extended, Raised, Loaded, Bumped;
    LoadedOthers(c, p, value);
    if PostIncrements(p.kind) {
      BumpedOthers(Loaded(c, p, value), p.kind.postInc.value, p.size);
    }
  }

  /** Past the data means by its size. */
  lemma RaisedByOne(v: Word)
    ensures Raised(v, 1) == v + 1
  {
  }

  lemma RaisedByTwo(v: Word)
    ensures Raised(v, 2) == v + 2
  {
  }

  lemma RaisedByFour(v: Word)
    ensures Raised(v, 4) == v + 4
  {
  }
}
