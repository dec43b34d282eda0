/**
 The two chunkers of the content-addressed store (`CAS._blocks`, spikes/storage/cas.py:50-68):
 fixed blocks, and content-defined chunks cut by a 64-bit gear hash.
 */
module Chunking {

  type Byte = b: int | 0 <= b < 256
  type Bytes = seq<Byte>

  const MIN := 2048
  const MAX := 65536
  const MASKED := 8192                       // h & mask is h modulo 2^13
  const WINDOW: nat := 13
  const WORD := 0x1_0000_0000_0000_0000      // & 0xFFFFFFFFFFFFFFFF is modulo 2^64

  type Gear = g: seq<nat> | |g| == 256 witness seq(256, _ => 0)

  datatype Mode = Fixed(block: nat) | Cdc(gear: Gear)

  /** `range` refuses a zero step. */
  predicate Usable(m: Mode) {
    m.Fixed? ==> m.block > 0
  }

  // ---------------------------------------------------------------- what a cut is

  /** The bytes lo..i, each doubled once for every byte after it. */
  function Window(gear: Gear, data: Bytes, lo: nat, i: nat): nat
    requires lo <= i < |data|
    decreases i
  {
    gear[data[i]] + (if lo == i then 0 else 2 * Window(gear, data, lo, i - 1))
  }

  /** A content-defined chunk that began at `start` ends with byte `i`. */
  predicate CutsAt(gear: Gear, data: Bytes, start: nat, i: nat)
    requires start <= i < |data|
  {
    var size := i - start + 1;
    (size >= MIN && Window(gear, data, i + 1 - WINDOW, i) % MASKED == 0) || size >= MAX
  }

  /** The end of the chunk that began at `start`, looking from byte `i` on. */
  function CutFrom(gear: Gear, data: Bytes, start: nat, i: nat): (end: nat)
    requires start <= i <= |data|
    ensures i <= end <= |data| && (i < |data| ==> i < end)
    ensures forall j :: i <= j < end - 1 ==> !CutsAt(gear, data, start, j)
    ensures i < |data| ==> end == |data| || CutsAt(gear, data, start, end - 1)
    decreases |data| - i
  {
    if i == |data| then i
    else if CutsAt(gear, data, start, i) then i + 1
    else CutFrom(gear, data, start, i + 1)
  }

  function NextCut(m: Mode, data: Bytes, start: nat): (end: nat)
    requires Usable(m) && start < |data|
    ensures start < end <= |data|
  {
    match m
    case Fixed(block) => if start + block <= |data| then start + block else |data|
    case Cdc(gear) => CutFrom(gear, data, start, start)
  }

  function Chunks(m: Mode, data: Bytes, start: nat): seq<Bytes>
    requires Usable(m) && start <= |data|
    decreases |data| - start
  {
    if start == |data| then [] else
      var end := NextCut(m, data, start);
      [data[start..end]] + Chunks(m, data, end)
  }

  // ---------------------------------------------------------------- the rolling hash

  /** The hash register after byte `i` of a chunk that began at `start`: shift, add, wrap. */
  function Register(gear: Gear, data: Bytes, start: nat, i: nat): nat
    requires start <= i < |data|
    decreases i
  {
    var before := if i == start then 0 else Register(gear, data, start, i - 1);
    (2 * before + gear[data[i]]) % WORD
  }

  lemma SameResidue(x: nat, y: nat, k: int)
    requires x == y + MASKED * k
    ensures x % MASKED == y % MASKED
  {
    assert x == MASKED * (k + y / MASKED) + y % MASKED;
  }

  lemma WrappingKeepsLowBits(y: nat)
    ensures y % WORD % MASKED == y % MASKED
  {
    SameResidue(y, y % WORD, 0x8_0000_0000_0000 * (y / WORD));
  }

  lemma StepModulo(h: nat, x: nat, g: nat)
    requires h % MASKED == x % MASKED
    ensures (2 * h + g) % WORD % MASKED == (2 * x + g) % MASKED
  {
    WrappingKeepsLowBits(2 * h + g);
    SameResidue(2 * h + g, 2 * x + g, 2 * (h / MASKED - x / MASKED));
  }

  function Pow2(n: nat): nat {
    if n == 0 then 1 else 2 * Pow2(n - 1)
  }

  /** Sum over lo <= t <= i of 2^(i - t) * gear[data[t]], term by term. */
  function WeightedSum(gear: Gear, data: Bytes, lo: nat, i: nat): nat
    requires lo <= i < |data|
    decreases i - lo
  {
    Pow2(i - lo) * gear[data[lo]] + (if lo == i then 0 else WeightedSum(gear, data, lo + 1, i))
  }

  lemma {:induction false} OldestByte(gear: Gear, data: Bytes, lo: nat, i: nat)
    requires lo < i < |data|
    ensures Window(gear, data, lo, i) == Pow2(i - lo) * gear[data[lo]] + Window(gear, data, lo + 1, i)
    decreases i
  {
    var g := gear[data[lo]];
    if lo + 1 == i {
      assert Pow2(1) == 2;
      assert Window(gear, data, lo, lo) == g;
    } else {
      OldestByte(gear, data, lo, i - 1);
      var p := Pow2(i - 1 - lo);
      assert Pow2(i - lo) == 2 * p;
      assert (2 * p) * g == 2 * (p * g);
    }
  }

  /** The window is the weighted sum: byte t of it counts 2^(i - t) times. */
  lemma {:induction false} WindowIsWeightedSum(gear: Gear, data: Bytes, lo: nat, i: nat)
    requires lo <= i < |data|
    ensures Window(gear, data, lo, i) == WeightedSum(gear, data, lo, i)
    decreases i - lo
  {
    if lo == i {
      assert Pow2(0) * gear[data[i]] == gear[data[i]];
    } else {
      OldestByte(gear, data, lo, i);
      WindowIsWeightedSum(gear, data, lo + 1, i);
    }
  }

  /** A byte 13 places back has been shifted out of the tested bits. */
  lemma OldestByteVanishes(gear: Gear, data: Bytes, lo: nat, i: nat)
    requires lo + WINDOW == i < |data|
    ensures Window(gear, data, lo, i) % MASKED == Window(gear, data, lo + 1, i) % MASKED
  {
    assert Pow2(13) == 8192;
    assert i - lo == 13;
    OldestByte(gear, data, lo, i);
    SameResidue(Window(gear, data, lo, i), Window(gear, data, lo + 1, i), gear[data[lo]]);
  }

  /**
   The low 13 bits of the 64-bit register are those of the sum over the last 13 bytes of the
   chunk (over all its bytes while it is shorter): nothing earlier, and no overflow, shows.
   */
  lemma {:induction false} RegisterShowsTheWindow(gear: Gear, data: Bytes, start: nat, i: nat)
    requires start <= i < |data|
    ensures
      var lo := if i + 1 - start < WINDOW then start else i + 1 - WINDOW;
      Register(gear, data, start, i) % MASKED == Window(gear, data, lo, i) % MASKED
    decreases i
  {
    if start == i {
      StepModulo(0, 0, gear[data[i]]);
    } else {
      RegisterShowsTheWindow(gear, data, start, i - 1);
      var lo := if i - start < WINDOW then start else i - WINDOW;
      StepModulo(Register(gear, data, start, i - 1), Window(gear, data, lo, i - 1), gear[data[i]]);
      if i - start >= WINDOW {
        OldestByteVanishes(gear, data, lo, i);
      }
    }
  }

  // ---------------------------------------------------------------- the code

  lemma SkipNonCuts(gear: Gear, data: Bytes, start: nat, i: nat)
    requires start <= i <= |data|
    requires forall j :: start <= j < i ==> !CutsAt(gear, data, start, j)
    ensures CutFrom(gear, data, start, start) == CutFrom(gear, data, start, i)
  {
    if start < i {
      SkipNonCuts(gear, data, start, i - 1);
    }
  }

  method FixedBlocks(block: nat, data: Bytes) returns (blocks: seq<Bytes>)
    requires block > 0
    ensures blocks == Chunks(Fixed(block), data, 0)
  {
    blocks := [];
    var i := 0;
    while i < |data|
      invariant 0 <= i
      invariant blocks + Chunks(Fixed(block), data, if i <= |data| then i else |data|) == Chunks(Fixed(block), data, 0)
      decreases |data| - i
    {
      var end := if i + block <= |data| then i + block else |data|;  // a slice stops at the end
      blocks := blocks + [data[i..end]];
      i := i + block;
    }
  }

  /** The cut condition of the loop is the declarative one. */
  lemma TestIsCut(gear: Gear, data: Bytes, start: nat, i: nat)
    requires start <= i < |data|
    ensures
      var size := i - start + 1;
      ((size >= MIN && Register(gear, data, start, i) % MASKED == 0) || size >= MAX)
        == CutsAt(gear, data, start, i)
  {
    RegisterShowsTheWindow(gear, data, start, i);
  }

  /** The same in numbers: from 2 KiB on where the sum over the last 13 bytes is a multiple of
      2^13, and at 64 KiB in any case. */
  lemma CutsInNumbers(gear: Gear, data: Bytes, start: nat, i: nat)
    requires start <= i < |data|
    ensures
      var size := i - start + 1;
      CutsAt(gear, data, start, i)
        == ((size >= 2048 && WeightedSum(gear, data, i - 12, i) % 8192 == 0) || size >= 65536)
  {
    if i - start + 1 >= 2048 {
      WindowIsWeightedSum(gear, data, i - 12, i);
    }
  }

  /** What was yielded and what is still to come make up the whole. */
  ghost predicate Yielded(gear: Gear, data: Bytes, blocks: seq<Bytes>, start: nat)
    requires start <= |data|
  {
    blocks + Chunks(Cdc(gear), data, start) == Chunks(Cdc(gear), data, 0)
  }

  lemma Yield(gear: Gear, data: Bytes, blocks: seq<Bytes>, start: nat, end: nat)
    requires start < end <= |data| && CutFrom(gear, data, start, start) == end && Yielded(gear, data, blocks, start)
    ensures Yielded(gear, data, blocks + [data[start..end]], end)
  {
    assert Chunks(Cdc(gear), data, start) == [data[start..end]] + Chunks(Cdc(gear), data, end);
  }

  /** The scan from `start` has passed `i` without a cut. */
  ghost predicate Passed(gear: Gear, data: Bytes, start: nat, i: nat)
    requires start <= i <= |data|
  {
    CutFrom(gear, data, start, start) == CutFrom(gear, data, start, i)
  }

  lemma PassOrCut(gear: Gear, data: Bytes, start: nat, i: nat)
    requires start <= i < |data| && Passed(gear, data, start, i)
    ensures if CutsAt(gear, data, start, i) then CutFrom(gear, data, start, start) == i + 1
            else Passed(gear, data, start, i + 1)
  {
  }

  /** Feed byte `i` to the register and test it. */
  method Roll(gear: Gear, data: Bytes, start: nat, i: nat, h: nat) returns (h': nat, cut: bool)
    requires start <= i < |data|
    requires h == if i == start then 0 else Register(gear, data, start, i - 1)
    ensures h' == Register(gear, data, start, i)
    ensures cut == CutsAt(gear, data, start, i)
  {
    h' := (2 * h + gear[data[i]]) % WORD;
    var size := i - start + 1;
    TestIsCut(gear, data, start, i);
    cut := (size >= MIN && h' % MASKED == 0) || size >= MAX;
  }

  method CdcBlocks(gear: Gear, data: Bytes) returns (blocks: seq<Bytes>)
    ensures blocks == Chunks(Cdc(gear), data, 0)
  {
    blocks := [];
    var h, start := 0, 0;
    for i := 0 to |data|
      invariant start <= i
      invariant h == if i == start then 0 else Register(gear, data, start, i - 1)
      invariant Passed(gear, data, start, i) && Yielded(gear, data, blocks, start)
    {
      var cut;
      h, cut := Roll(gear, data, start, i, h);
      PassOrCut(gear, data, start, i);
      if cut {
        Yield(gear, data, blocks, start, i + 1);
        blocks := blocks + [data[start..i + 1]];
        start := i + 1;
        h := 0;
      }
    }
    if start < |data| {
      Yield(gear, data, blocks, start, |data|);
      blocks := blocks + [data[start..|data|]];
    }
    assert blocks + [] == blocks;
  }

  /** `_blocks`; the generator's yields are collected in order. */
  method Blocks(m: Mode, data: Bytes) returns (blocks: seq<Bytes>)
    requires Usable(m)
    ensures blocks == Chunks(m, data, 0)
  {
    match m {
      case Fixed(block) => blocks := FixedBlocks(block, data);
      case Cdc(gear) => blocks := CdcBlocks(gear, data);
    }
  }
}
