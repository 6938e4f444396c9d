/** What the checksum of a transfer can tell: it misses no difference confined to four consecutive
    bytes, and four is the limit. */
module Bursts {
  import opened Crc32

  /** Up to four bytes as one word, first byte lowest. */
  function Join(b: bv8, w: bv32): bv32 {
    Xor(b as bv32, w << 8)
  }

  function Word(data: seq<bv8>): bv32 {
    if data == [] then 0 else Join(data[0], Word(data[1..]))
  }

  lemma WordFits(data: seq<bv8>)
    requires |data| <= 3
    ensures |data| == 0 ==> Word(data) == 0
    ensures |data| <= 1 ==> Word(data) < 0x100
    ensures |data| <= 2 ==> Word(data) < 0x1_0000
    ensures Word(data) < 0x100_0000
  {
  }

  lemma JoinInjective(b: bv8, w: bv32, c: bv8, v: bv32)
    requires w < 0x100_0000 && v < 0x100_0000 && Join(b, w) == Join(c, v)
    ensures b == c && w == v
  {
  }

  lemma {:induction false} WordInjective(a: seq<bv8>, b: seq<bv8>)
    requires |a| == |b| <= 4 && Word(a) == Word(b)
    ensures a == b
  {
    hide Join;
    if a != [] {
      WordFits(a[1..]);
      WordFits(b[1..]);
      JoinInjective(a[0], Word(a[1..]), b[0], Word(b[1..]));
      WordInjective(a[1..], b[1..]);
      assert a == [a[0]] + a[1..] && b == [b[0]] + b[1..];
    }
  }

  lemma ProcessFirst(r: bv32, data: seq<bv8>)
    requires data != []
    ensures Process(r, data) == Process(ByteStep(r, data[0]), data[1..])
  {
    hide ByteStep;
    assert data == [data[0]] + data[1..];
    ProcessConcat(r, [data[0]], data[1..]);
    assert [data[0]][..0] == [];
    assert Process(r, []) == r;
  }

  lemma FirstByteIn(r: bv32, b: bv8, w: bv32)
    requires w < 0x100_0000
    ensures Xor(ByteStep(r, b), w) == BitSteps(Xor(r, Join(b, w)), 8)
  {
    hide Xor, BitSteps;
    ShiftOut(w);
    BitStepsLinear(Xor(r, b as bv32), w << 8, 8);
    XorAssociative(r, b as bv32, w << 8);
  }

  /** Four bytes enter the register as one word. */
  lemma {:induction false} ProcessIsWord(r: bv32, data: seq<bv8>)
    requires |data| <= 4
    ensures Process(r, data) == BitSteps(Xor(r, Word(data)), 8 * |data|)
    decreases |data|
  {
    hide Xor, BitSteps, Process, ByteStep, Join;
    if data == [] {
      NothingProcessed(r);
    } else {
      var rest := data[1..];
      ProcessFirst(r, data);
      ProcessIsWord(ByteStep(r, data[0]), rest);
      WordFits(rest);
      FirstByteIn(r, data[0], Word(rest));
      BitStepsAdd(Xor(r, Word(data)), 8, 8 * |rest|);
    }
  }

  lemma NothingProcessed(r: bv32)
    ensures Process(r, []) == r && BitSteps(Xor(r, Word([])), 0) == r
  {
  }

  lemma ShortInjective(r: bv32, a: seq<bv8>, b: seq<bv8>)
    requires |a| == |b| <= 4 && Process(r, a) == Process(r, b)
    ensures a == b
  {
    hide Xor, BitSteps, Process, Word;
    ProcessIsWord(r, a);
    ProcessIsWord(r, b);
    BitStepsInjective(Xor(r, Word(a)), Xor(r, Word(b)), 8 * |a|);
    XorCancels(Word(a), Word(b), r);
    WordInjective(a, b);
  }

  /** Two files agree outside the bytes from k up to k + n. */
  ghost predicate DifferOnlyWithin(x: seq<bv8>, y: seq<bv8>, k: nat, n: nat) {
    |x| == |y| && forall i :: 0 <= i < |x| && !(k <= i < k + n) ==> x[i] == y[i]
  }

  lemma SplitInThree(x: seq<bv8>, lo: nat, hi: nat)
    requires lo <= hi <= |x|
    ensures x == x[..lo] + x[lo..hi] + x[hi..]
    ensures Process(START, x) == Process(Process(Process(START, x[..lo]), x[lo..hi]), x[hi..])
  {
    hide Process;
    ThreeParts(x[..lo], x[lo..hi], x[hi..]);
    assert x == x[..lo] + x[lo..hi] + x[hi..];
  }

  lemma ThreeParts(a: seq<bv8>, b: seq<bv8>, c: seq<bv8>)
    ensures Process(START, a + b + c) == Process(Process(Process(START, a), b), c)
  {
    hide Process;
    ProcessConcat(START, a + b, c);
    ProcessConcat(START, a, b);
  }

  /** Burst detection: files of equal length that differ, but only within four consecutive bytes at
      any offset, have different checksums. */
  lemma BurstDetected(x: seq<bv8>, y: seq<bv8>, k: nat)
    requires DifferOnlyWithin(x, y, k, 4) && x != y
    ensures Checksum(x) != Checksum(y)
  {
    hide Xor, Process;
    var lo := if k < |x| then k else |x|;
    var hi := if k + 4 < |x| then k + 4 else |x|;
    var r := Process(START, x[..lo]);
    assert x[..lo] == y[..lo] && x[hi..] == y[hi..];
    SplitInThree(x, lo, hi);
    SplitInThree(y, lo, hi);
    if Checksum(x) == Checksum(y) {
      XorCancels(Process(START, x), Process(START, y), 0xFFFF_FFFF);
      ProcessInjective(Process(r, x[lo..hi]), Process(r, y[lo..hi]), x[hi..]);
      ShortInjective(r, x[lo..hi], y[lo..hi]);
    }
  }

  // ---------- five bytes are too many ----------

  /** The generator itself, laid over five bytes: the register its first byte leaves behind is what
      the other four cancel. */
  const CARRY: bv32 := 0x01DB_7106

  function FlipFive(w: seq<bv8>): (f: seq<bv8>)
    requires |w| == 5
    ensures |f| == 5
  {
    [w[0] ^ 0x41, w[1] ^ 0x06, w[2] ^ 0x71, w[3] ^ 0xDB, w[4] ^ 0x01]
  }

  function Flipped(data: seq<bv8>, k: nat): seq<bv8>
    requires k + 5 <= |data|
  {
    data[..k] + FlipFive(data[k..k + 5]) + data[k + 5..]
  }

  lemma CarryOfFirst()
    ensures BitSteps(0x41, 8) == CARRY
  {
  }

  /** Laying a bit pattern over a byte lays it over the register it enters. */
  lemma ByteFlip(r: bv32, b: bv8, e: bv8)
    ensures Xor(r, (b ^ e) as bv32) == Xor(Xor(r, b as bv32), e as bv32)
  {
  }

  lemma FirstFlipped(r: bv32, b: bv8)
    ensures ByteStep(r, b ^ 0x41) == Xor(ByteStep(r, b), CARRY)
  {
    ByteFlip(r, b, 0x41);
    assert (0x41 as bv8) as bv32 == 0x41;
    hide Xor, BitSteps;
    BitStepsLinear(Xor(r, b as bv32), 0x41, 8);
    CarryOfFirst();
  }

  lemma FourFlipped(a: bv8, b: bv8, c: bv8, d: bv8)
    ensures Join(a ^ 0x06, Join(b ^ 0x71, Join(c ^ 0xDB, Join(d ^ 0x01, 0))))
         == Xor(Join(a, Join(b, Join(c, Join(d, 0)))), CARRY)
  {
  }

  lemma RestFlipped(w: seq<bv8>)
    requires |w| == 4
    ensures Word([w[0] ^ 0x06, w[1] ^ 0x71, w[2] ^ 0xDB, w[3] ^ 0x01]) == Xor(Word(w), CARRY)
  {
    hide Join, Xor, Word;
    assert w == [w[0], w[1], w[2], w[3]];
    WordOfFour(w[0], w[1], w[2], w[3]);
    WordOfFour(w[0] ^ 0x06, w[1] ^ 0x71, w[2] ^ 0xDB, w[3] ^ 0x01);
    FourFlipped(w[0], w[1], w[2], w[3]);
  }

  lemma WordOfFour(a: bv8, b: bv8, c: bv8, d: bv8)
    ensures Word([a, b, c, d]) == Join(a, Join(b, Join(c, Join(d, 0))))
  {
    hide Join;
    assert [a, b, c, d][1..] == [b, c, d];
    assert [b, c, d][1..] == [c, d];
    assert [c, d][1..] == [d];
    assert [d][1..] == [];
    assert Word([]) == 0;
    assert Word([d]) == Join(d, 0);
    assert Word([c, d]) == Join(c, Join(d, 0));
  }

  lemma FiveFlipped(r: bv32, w: seq<bv8>)
    requires |w| == 5
    ensures Process(r, FlipFive(w)) == Process(r, w)
  {
    hide Xor, Process, Word, ByteStep, BitSteps;
    var f := FlipFive(w);
    ProcessFirst(r, w);
    ProcessFirst(r, f);
    ProcessIsWord(ByteStep(r, w[0]), w[1..]);
    ProcessIsWord(ByteStep(r, f[0]), f[1..]);
    FirstFlipped(r, w[0]);
    RestFlipped(w[1..]);
    assert f[1..] == [w[1] ^ 0x06, w[2] ^ 0x71, w[3] ^ 0xDB, w[4] ^ 0x01];
    XorShared(ByteStep(r, w[0]), Word(w[1..]), CARRY);
  }

  /** Four bytes are the limit: in every file, at every offset, a change of five consecutive bytes
      goes unnoticed. */
  lemma FiveByteBurstMissed(x: seq<bv8>, k: nat)
    requires k + 5 <= |x|
    ensures var y := Flipped(x, k); y != x && DifferOnlyWithin(x, y, k, 5) && Checksum(y) == Checksum(x)
  {
    hide Xor, Process;
    var y := Flipped(x, k);
    var w := x[k..k + 5];
    assert y[..k] == x[..k] && y[k + 5..] == x[k + 5..] && y[k..k + 5] == FlipFive(w);
    SplitInThree(x, k, k + 5);
    SplitInThree(y, k, k + 5);
    FiveFlipped(Process(START, x[..k]), w);
    FirstDiffers(w[0]);
    assert y[k] == w[0] ^ 0x41 && x[k] == w[0];
  }

  lemma FirstDiffers(b: bv8)
    ensures b ^ 0x41 != b
  {
  }
}
