// Bytes, options and the few arithmetic facts the other modules share.
module Base {

  type byte = x: int | 0 <= x < 256

  datatype Option<+T> = None | Some(value: T)

  const U32: nat := 0x1_0000_0000

  type u32 = x: nat | x < U32

  // Error returns of the kernel code, with the sign the source gives them.
  const EINTR := -4
  const EIO := -5
  const EBUSY := -16
  const EINVAL := -22
  const ECONNRESET := -104
  const ETOOSMALL := -525

  // FSG_BUFLEN: the size of every pipeline buffer.
  const BUFLEN: nat := 16384

  function Min(a: int, b: int): int {
    if a <= b then a else b
  }

  function Max(a: int, b: int): int {
    if a <= b then b else a
  }

  function Abs(a: int): nat {
    if a < 0 then -a else a
  }

  function Times(a: nat, b: nat): nat {
    a * b
  }

  // round_down(x, m)
  function RoundDown(x: nat, m: nat): nat
    requires m > 0
  {
    x - x % m
  }

  // Where the last of the buffers that carry so many bytes begins.
  function LastStart(total: nat): nat
    requires total > 0
  {
    (total - 1) / BUFLEN * BUFLEN
  }

  lemma LastStartIs(total: nat, m: nat)
    requires m * BUFLEN < total <= (m + 1) * BUFLEN
    ensures LastStart(total) == m * BUFLEN
  {
  }

  lemma LaterStart(total: nat, m: nat)
    requires m * BUFLEN < total
    ensures m * BUFLEN <= LastStart(total)
  {
  }

  // The logical block sizes a backing file can have: 512 for a regular file,
  // 2048 for a CD-ROM image, and for a block device some other divisor of the
  // buffer size, which is to say a power of two.
  predicate BlockSize(b: nat) {
    512 <= b && BUFLEN % b == 0
  }

  lemma SmallMultiple(b: nat, x: int)
    requires 0 <= b * x < b
    ensures x == 0
  {
  }

  lemma Distribute(b: int, p: int, q: int)
    ensures b * (p + q) == b * p + b * q
    ensures b * (p - q) == b * p - b * q
  {
  }

  lemma MultipleMod(b: nat, q: nat)
    requires b > 0
    ensures (b * q) % b == 0
  {
    var m := b * q;
    var d := m / b;
    assert m == b * d + m % b;
    Distribute(b, q, d);
    SmallMultiple(b, q - d);
  }

  lemma DivMod(x: nat, b: nat)
    requires b > 0
    ensures x == b * (x / b) + x % b && 0 <= x % b < b
  {
  }

  lemma SmallMod(x: nat, b: nat)
    requires x < b
    ensures x % b == x
  {
  }

  // Whole blocks and whole blocks are whole blocks.
  lemma SumMod(j: nat, k: nat, b: nat)
    requires b > 0 && j % b == 0 && k % b == 0
    ensures (j + k) % b == 0
  {
    DivMod(j, b);
    DivMod(k, b);
    Distribute(b, j / b, k / b);
    MultipleMod(b, j / b + k / b);
  }

  // What rounding down leaves is whole blocks.
  lemma RoundDownMod(x: nat, b: nat)
    requires b > 0
    ensures RoundDown(x, b) % b == 0
  {
    DivMod(x, b);
    MultipleMod(b, x / b);
  }

  // Whole blocks stay whole blocks, and what rounding drops is under a block.
  lemma RoundDownFacts(k: nat, x: nat, b: nat)
    requires b > 0 && k % b == 0
    ensures RoundDown(x, b) <= x < RoundDown(x, b) + b
    ensures RoundDown(x, b) % b == 0
    ensures (k + RoundDown(x, b)) % b == 0
    ensures x % b == 0 ==> RoundDown(x, b) == x
    ensures x < b ==> RoundDown(x, b) == 0
  {
    DivMod(x, b);
    RoundDownMod(x, b);
    SumMod(k, RoundDown(x, b), b);
    if x < b {
      SmallMod(x, b);
    }
  }

  lemma RoundDownZero(b: nat)
    requires b > 0
    ensures 0 % b == 0 && RoundDown(0, b) == 0
  {
  }

  // Rounding down is determined by where its result lies.
  lemma RoundDownUnique(x: nat, r: nat, b: nat)
    requires b > 0 && r % b == 0 && r <= x < r + b
    ensures RoundDown(x, b) == r
  {
    var q, p := x / b, r / b;
    DivMod(x, b);
    DivMod(r, b);
    assert RoundDown(x, b) == b * q && r == b * p;
    Distribute(b, p, q);
    SmallerMultiple(b, p - q);
  }

  // Rounding down after whole blocks: only what follows them is rounded.
  lemma RoundDownAfter(a: nat, x: nat, b: nat)
    requires b > 0 && a % b == 0
    ensures RoundDown(a + x, b) == a + RoundDown(x, b)
  {
    RoundDownFacts(a, x, b);
    RoundDownUnique(a + x, a + RoundDown(x, b), b);
  }

  lemma SmallerMultiple(b: nat, x: int)
    requires 0 - b < b * x < b
    ensures x == 0
  {
  }

  lemma BuffersAreBlocks(d: nat, b: nat)
    requires BlockSize(b)
    ensures (d * BUFLEN) % b == 0
  {
    var q := BUFLEN / b;
    assert BUFLEN == b * q;
    assert d * (b * q) == b * (d * q);
    MultipleMod(b, d * q);
  }

  // The content of a file after `data` has been written at `off`.
  function Patch(file: seq<byte>, off: nat, data: seq<byte>): (r: seq<byte>)
    requires off + |data| <= |file|
    ensures |r| == |file|
  {
    seq(|file|, i requires 0 <= i < |file| => if off <= i < off + |data| then data[i - off] else file[i])
  }

  lemma PatchNothing(file: seq<byte>, off: nat)
    requires off <= |file|
    ensures Patch(file, off, []) == file
  {
  }

  // Two adjacent writes are one write of the concatenation.
  lemma PatchTwice(file: seq<byte>, off: nat, a: seq<byte>, b: seq<byte>)
    requires off + |a| + |b| <= |file|
    ensures Patch(Patch(file, off, a), off + |a|, b) == Patch(file, off, a + b)
  {
    var once := Patch(file, off, a);
    assert once[..off + |a|] == file[..off] + a;
    assert once[off + |a| + |b|..] == file[off + |a| + |b|..];
    assert (file[..off] + a) + b == file[..off] + (a + b);
  }

  // A write changes nothing outside the bytes it covers, and those it covers
  // are what was written.
  lemma PatchSlices(file: seq<byte>, off: nat, data: seq<byte>, a: nat, b: nat)
    requires off + |data| <= |file| && a <= b <= |file|
    ensures Patch(file, off, data)[off..off + |data|] == data
    ensures b <= off || off + |data| <= a ==> Patch(file, off, data)[a..b] == file[a..b]
  {
  }

  // What is read from where the first k bytes of s were written starts with them.
  lemma PatchReadBack(file: seq<byte>, off: nat, s: seq<byte>, k: nat, data: seq<byte>, n: nat)
    requires k <= |s| && off + k <= |file| && off + |data| <= |file| && n <= |data| && n <= k
    requires data == Patch(file, off, s[..k])[off..off + |data|]
    ensures data[..n] == s[..n]
  {
    forall i | 0 <= i < n
      ensures data[i] == s[i]
    {
      assert data[i] == Patch(file, off, s[..k])[off + i];
    }
  }

  // a + b, without a sum where there is nothing to add.
  function Joined(a: seq<byte>, b: seq<byte>): seq<byte> {
    if a == [] then b else a + b
  }

  lemma JoinedIs(a: seq<byte>, b: seq<byte>)
    ensures Joined(a, b) == a + b
  {
  }

  // The data lies in the file, from off on.
  predicate LiesAt(file: seq<byte>, off: nat, data: seq<byte>) {
    off + |data| <= |file| && forall i | 0 <= i < |data| :: data[i] == file[off + i]
  }

  // Two parts that make up a slice of the file lie in it together.
  lemma JoinedLies(file: seq<byte>, off: nat, k: nat, a: seq<byte>, b: seq<byte>)
    requires off + k <= |file| && a + b == file[off..off + k]
    ensures |Joined(a, b)| == k && LiesAt(file, off, Joined(a, b))
  {
    JoinedIs(a, b);
  }

  lemma SliceJoin(s: seq<byte>, a: nat, b: nat, c: nat)
    requires a <= b <= c <= |s|
    ensures s[a..b] + s[b..c] == s[a..c]
  {
  }
}
