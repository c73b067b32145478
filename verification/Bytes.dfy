/** Byte sequences as files and devices hold them, and the fixed-width arithmetic of the program. */
module Bytes {

  type byte = bv8

  const U64: nat := 0x1_0000_0000_0000_0000

  const EINVAL: int := 22

  function Min(a: int, b: int): int {
    if a <= b then a else b
  }

  function Max(a: int, b: int): int {
    if a >= b then a else b
  }

  /** `a - b` on uint64_t. */
  function Sub64(a: nat, b: nat): nat {
    (a - b) % U64
  }

  /** `a + b` on uint64_t. */
  function Add64(a: nat, b: nat): nat {
    (a + b) % U64
  }

  /** `a * b` on uint64_t. */
  function Mul64(a: nat, b: nat): nat {
    (a * b) % U64
  }

  /** The bytes of the whole blocks that `length` bytes touch. */
  function RoundUp(length: nat, block: nat): nat
    requires block > 0
  {
    if length == 0 then 0 else if length <= block then block else block + RoundUp(length - block, block)
  }

  lemma MulDivMod(q: int, b: int, r: int)
    requires b > 0 && 0 <= r < b
    ensures (q * b + r) / b == q && (q * b + r) % b == r
  {
    var n := q * b + r;
    assert n == (n / b) * b + n % b;
    var d := n / b - q;
    assert d * b == r - n % b;
    assert d >= 1 ==> d * b >= b;
    assert d <= -1 ==> d * b <= -b;
  }

  lemma ModOfSum(a: int, b: int, m: int)
    requires m > 0 && a % m == 0 && b % m == 0
    ensures (a + b) % m == 0 && (a - b) % m == 0
  {
    var x, y := a / m, b / m;
    assert a == x * m && b == y * m;
    assert a + b == (x + y) * m + 0 && a - b == (x - y) * m + 0;
    MulDivMod(x + y, m, 0);
    MulDivMod(x - y, m, 0);
  }

  lemma AtLeastFactor(q: nat, d: nat)
    requires d > 0
    ensures q <= q * d
  {}

  lemma Distribute(a: nat, b: nat, n: nat)
    ensures (a + b) * n == a * n + b * n && b * n >= 0
  {}

  /** `x / block * block`: an offset that went through a block number. */
  function RoundDown(x: nat, block: nat): nat
    requires block > 0
  {
    x / block * block
  }

  lemma WholeBlocks(x: nat, block: nat)
    requires block > 0 && x % block == 0
    ensures RoundDown(x, block) == x
  {}

  /** RoundUp is the program's SPDK_CEIL_DIV(length, block) * block. */
  lemma {:induction false} RoundUpIsCeilDiv(length: nat, block: nat)
    requires block > 0
    ensures RoundUp(length, block) == (length + block - 1) / block * block
  {
    if length == 0 {
      MulDivMod(0, block, block - 1);
    } else if length <= block {
      MulDivMod(1, block, length - 1);
    } else {
      RoundUpIsCeilDiv(length - block, block);
      var n := length - 1;
      assert n == n / block * block + n % block;
      assert n + block == (n / block + 1) * block + n % block;
      MulDivMod(n / block + 1, block, n % block);
    }
  }

  /** Rounding is exact on whole blocks, never shrinks, and stays within any whole-block bound. */
  lemma {:induction false} RoundUpBounds(length: nat, block: nat, bound: nat)
    requires block > 0 && bound % block == 0 && length <= bound
    ensures length <= RoundUp(length, block) <= bound
    ensures length % block == 0 <==> RoundUp(length, block) == length
    ensures RoundUp(length, block) % block == 0
  {
    MulDivMod(0, block, 0);
    MulDivMod(1, block, 0);
    if 0 < length <= block {
      if length < block { MulDivMod(0, block, length); }
      if bound < block { MulDivMod(0, block, bound); }
    } else if length > block {
      ModOfSum(bound, block, block);
      RoundUpBounds(length - block, block, bound - block);
      ModOfSum(RoundUp(length - block, block), block, block);
      if length % block == 0 { ModOfSum(length, block, block); }
    }
  }

  lemma {:induction false} RoundUpAfterBlocks(skip: nat, length: nat, block: nat)
    requires block > 0 && RoundUp(skip, block) == skip && length > 0
    ensures RoundUp(skip + length, block) == skip + RoundUp(length, block)
    decreases skip
  {
    if skip > block { RoundUpAfterBlocks(skip - block, length, block); }
  }

  /** The byte at `q`: zero past the end of the file, as a hole reads. */
  function At(s: seq<byte>, q: nat): byte {
    if q < |s| then s[q] else 0
  }

  function Zeros(n: nat): (z: seq<byte>)
    ensures |z| == n && forall k :: 0 <= k < n ==> z[k] == 0
  {
    seq(n, _ => 0)
  }

  /** ftruncate to a length that does not cut anything off. */
  function Extend(s: seq<byte>, n: nat): (r: seq<byte>)
    ensures |r| == Max(|s|, n)
    ensures forall q: nat :: At(r, q) == At(s, q)
  {
    if n <= |s| then s else s + Zeros(n - |s|)
  }

  /** `n` bytes of `src` from `k` on, written at offset `w`: the target grows when needed, any gap is zero. */
  function Store(s: seq<byte>, w: nat, src: seq<byte>, k: nat, n: nat): (r: seq<byte>)
    requires k + n <= |src|
    ensures |r| == if n == 0 then |s| else Max(|s|, w + n)
    ensures forall q: nat :: At(r, q) == if w <= q < w + n then src[k + (q - w)] else At(s, q)
  {
    seq(if n == 0 then |s| else Max(|s|, w + n),
        q requires 0 <= q => if w <= q < w + n then src[k + (q - w)] else At(s, q))
  }

  lemma SameBytes(a: seq<byte>, b: seq<byte>)
    requires |a| == |b| && forall q: nat :: q < |a| ==> At(a, q) == At(b, q)
    ensures a == b
  {
    forall q: nat | q < |a| ensures a[q] == b[q] {
      assert At(a, q) == At(b, q);
    }
  }
}
