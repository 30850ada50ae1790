/** Elements, flits and the reference running sum of the streaming prefix-sum
    pipeline. Everything in this module is a pure value; the kernels, pipes
    and adapters that move these values around live in other modules. */
module Stream {

  /** 2^64: unsigned 64-bit arithmetic is arithmetic modulo this number. */
  const Modulus: nat := 0x1_0000_0000_0000_0000

  /** The stream element, `uint64_t` in the original. */
  type Element = x: nat | x < Modulus

  /** `a + b` on `uint64_t`: the sum wraps around past 2^64 - 1. */
  function Add(a: Element, b: Element): (r: Element)
    ensures r == (a + b) % Modulus
  {
    if a + b < Modulus then a + b else a + b - Modulus
  }

  lemma AddAssoc(a: Element, b: Element, c: Element)
    ensures Add(Add(a, b), c) == Add(a, Add(b, c))
  {
  }

  /** A flit: the W elements moved through a pipe in one transfer. The width
      is a parameter of the pipeline, so a flit is a sequence and the
      pipeline's invariants say that every flit has W lanes. */
  type Flit = seq<Element>

  /** Lanes per flit in the original build: 64 / sizeof(uint64_t). */
  const StreamWidth: nat := 8

  /** Every flit of `fs` has exactly `w` lanes. */
  predicate Uniform(fs: seq<Flit>, w: nat)
  {
    forall k :: 0 <= k < |fs| ==> |fs[k]| == w
  }

  /** A flit of `w` zero lanes (a value-initialised `Flit`). */
  function Zeros(w: nat): (f: Flit)
    ensures |f| == w && forall l :: 0 <= l < w ==> f[l] == 0
  {
    seq(w, _ => 0)
  }

  /** s[0] + s[1] + ... + s[|s| - 1] over the unbounded integers. */
  function IntSum(s: seq<int>): int
  {
    if s == [] then 0 else IntSum(s[..|s| - 1]) + s[|s| - 1]
  }

  /** Adding up `uint64_t` values one at a time, from the left: however often
      the running total wraps, the result is the true sum modulo 2^64. */
  function Sum(s: seq<Element>): (r: Element)
    ensures r == IntSum(s) % Modulus
  {
    if s == [] then 0
    else
      var init := s[..|s| - 1];
      ModAddLeft(IntSum(init), s[|s| - 1]);
      Add(Sum(init), s[|s| - 1])
  }

  /** Reducing the left operand first does not change a sum modulo 2^64. */
  lemma ModAddLeft(a: int, b: int)
    ensures (a % Modulus + b) % Modulus == (a + b) % Modulus
  {
    var q := a / Modulus;
    assert a == q * Modulus + a % Modulus;
    assert a + b == (a % Modulus + b) + q * Modulus;
  }

  /** Summing a concatenation sums the parts (modular addition is associative). */
  lemma {:induction false} SumAppend(a: seq<Element>, b: seq<Element>)
    ensures Sum(a + b) == Add(Sum(a), Sum(b))
  {
    if b == [] {
      assert a + b == a;
    } else {
      var b' := b[..|b| - 1];
      assert (a + b)[..|a + b| - 1] == a + b';
      SumAppend(a, b');
      AddAssoc(Sum(a), Sum(b'), b[|b| - 1]);
    }
  }

  /** The lanes a running sum produces over `s` when its accumulator starts at
      `seed`: lane i holds seed + s[0] + ... + s[i]. */
  function Scan(seed: Element, s: seq<Element>): (r: seq<Element>)
    ensures |r| == |s|
    ensures forall i :: 0 <= i < |s| ==> r[i] == Add(seed, Sum(s[..i + 1]))
  {
    if s == [] then []
    else
      var init := s[..|s| - 1];
      assert s[..|s|] == s;
      assert forall n :: 0 <= n <= |init| ==> init[..n] == s[..n];
      Scan(seed, init) + [Add(seed, Sum(s))]
  }

  /** The reference the host check compares against: output element i is the
      sum of input elements 0..i. */
  function PrefixSums(s: seq<Element>): (r: seq<Element>)
    ensures |r| == |s|
    ensures forall i :: 0 <= i < |s| ==> r[i] == Sum(s[..i + 1])
  {
    Scan(0, s)
  }

  /** Scanning a concatenation: the second part continues from the running
      total the first part ends with. */
  lemma ScanAppend(seed: Element, a: seq<Element>, b: seq<Element>)
    ensures Scan(seed, a + b) == Scan(seed, a) + Scan(Add(seed, Sum(a)), b)
  {
    var l, r := Scan(seed, a + b), Scan(seed, a) + Scan(Add(seed, Sum(a)), b);
    forall i | 0 <= i < |a + b| ensures l[i] == r[i] {
      if i < |a| {
        assert (a + b)[..i + 1] == a[..i + 1];
      } else {
        var b' := b[..i - |a| + 1];
        assert (a + b)[..i + 1] == a + b';
        SumAppend(a, b');
        AddAssoc(seed, Sum(a), Sum(b'));
      }
    }
  }

  /** The elements of a flit stream, flit after flit, lane after lane. */
  function Flatten(fs: seq<Flit>): seq<Element>
  {
    if fs == [] then [] else fs[0] + Flatten(fs[1..])
  }

  lemma {:induction false} FlattenAppend(a: seq<Flit>, b: seq<Flit>)
    ensures Flatten(a + b) == Flatten(a) + Flatten(b)
  {
    if a == [] {
      assert a + b == b;
    } else {
      assert (a + b)[1..] == a[1..] + b;
      FlattenAppend(a[1..], b);
    }
  }

  /** Appending one flit to a stream appends its lanes to the elements. */
  lemma FlattenSnoc(fs: seq<Flit>, f: Flit)
    ensures Flatten(fs + [f]) == Flatten(fs) + f
  {
    FlattenAppend(fs, [f]);
    assert Flatten([f]) == f + Flatten([]);
  }

  lemma {:induction false} FlattenLength(fs: seq<Flit>, w: nat)
    requires Uniform(fs, w)
    ensures |Flatten(fs)| == |fs| * w
  {
    if fs != [] {
      FlattenLength(fs[1..], w);
    }
  }

  lemma MulAtLeast(a: int, w: int)
    requires 1 <= a && 1 <= w
    ensures a * w >= w
  {
  }

  /** The lane index arithmetic of the packing loop: q * w + r with r < w has
      quotient q and remainder r. */
  lemma DivModUnique(q: int, r: int, w: int)
    requires 1 <= w && 0 <= r < w && 0 <= q
    ensures (q * w + r) / w == q && (q * w + r) % w == r
  {
    var n := q * w + r;
    var q', r' := n / w, n % w;
    assert n == q' * w + r';
    if q' > q {
      MulAtLeast(q' - q, w);
    } else if q' < q {
      MulAtLeast(q - q', w);
    }
  }

  /** Element i is lane i % w of flit i / w. */
  lemma DivModSplit(i: nat, w: nat)
    requires 1 <= w
    ensures i == (i / w) * w + i % w && 0 <= i % w < w
  {
  }

  /** Moving one flit on: element i - w sits one flit earlier, same lane. */
  lemma DivModShift(i: int, w: int)
    requires 1 <= w <= i
    ensures (i - w) / w == i / w - 1 && (i - w) % w == i % w
  {
    var q, r := (i - w) / w, (i - w) % w;
    DivModUnique(q, r, w);
    DivModUnique(q + 1, r, w);
    assert i == (q + 1) * w + r;
  }

  /** Element i of a stream of w-lane flits is preceded by i / w whole
      flits and i % w lanes of the flit it sits in. */
  lemma {:induction false} FlatIndex(fs: seq<Flit>, w: nat, i: nat)
    requires 1 <= w && Uniform(fs, w) && i < |Flatten(fs)|
    ensures i / w < |fs| && i % w < w
    ensures |Flatten(fs[..i / w])| + i % w == i
  {
    if fs == [] {
      assert false;
    } else if i < w {
      DivModUnique(0, i, w);
      assert fs[..0] == [];
    } else {
      FlatIndex(fs[1..], w, i - w);
      DivModShift(i, w);
      var k := i / w;
      assert fs[1..][..k - 1] == fs[..k][1..];
    }
  }

  /** Element i of a stream of w-lane flits sits in flit i / w, lane i % w. */
  lemma FlattenAt(fs: seq<Flit>, w: nat, i: nat)
    requires 1 <= w && Uniform(fs, w) && i < |Flatten(fs)|
    ensures i / w < |fs| && i % w < w
    ensures Flatten(fs)[i] == fs[i / w][i % w]
  {
    FlatIndex(fs, w, i);
    FlattenPrefix(fs, i / w, i % w);
    assert Flatten(fs)[i] == (Flatten(fs[..i / w]) + fs[i / w][..i % w + 1])[i];
  }

  /** The buffer `fs` after lane l of flit k is set to x. */
  function Store(fs: seq<Flit>, k: nat, l: nat, x: Element): seq<Flit>
    requires k < |fs| && l < |fs[k]|
  {
    var f: Flit := fs[k][l := x];
    fs[k := f]
  }

  /** Storing x at element i of the stream is storing it at lane i % w of
      flit i / w: nothing else changes and every flit keeps its width. */
  lemma {:induction false} FlattenUpdate(fs: seq<Flit>, w: nat, i: nat, x: Element)
    requires 1 <= w && Uniform(fs, w) && i < |Flatten(fs)|
    ensures i / w < |fs| && i % w < w
    ensures Uniform(Store(fs, i / w, i % w, x), w)
    ensures Flatten(Store(fs, i / w, i % w, x)) == Flatten(fs)[i := x]
  {
    if fs == [] {
      assert false;
    } else if i < w {
      DivModUnique(0, i, w);
      assert Store(fs, 0, i, x)[1..] == fs[1..];
    } else {
      FlattenUpdate(fs[1..], w, i - w, x);
      DivModShift(i, w);
      var k, l := i / w, i % w;
      assert Store(fs, k, l, x)[1..] == Store(fs[1..], k - 1, l, x);
    }
  }

  /** What the host check expects at flit k, lane j: the sum of every input
      element up to and including that one. */
  function RunningTotal(fs: seq<Flit>, k: nat, j: nat): (r: Element)
    requires k < |fs| && j < |fs[k]|
    ensures r == Add(Sum(Flatten(fs[..k])), Sum(fs[k][..j + 1]))
  {
    SumAppend(Flatten(fs[..k]), fs[k][..j + 1]);
    Sum(Flatten(fs[..k]) + fs[k][..j + 1])
  }

  /** The elements up to flit k, lane j are the whole flits before k and the
      first j + 1 lanes of flit k. */
  lemma FlattenPrefix(fs: seq<Flit>, k: nat, j: nat)
    requires k < |fs| && j < |fs[k]|
    ensures |Flatten(fs[..k])| + j < |Flatten(fs)|
    ensures Flatten(fs)[..|Flatten(fs[..k])| + j + 1] == Flatten(fs[..k]) + fs[k][..j + 1]
  {
    var before, here, after := fs[..k], fs[k], fs[k + 1..];
    assert fs == before + [here] + after;
    FlattenAppend(before + [here], after);
    FlattenSnoc(before, here);
    assert Flatten(fs) == Flatten(before) + here + Flatten(after);
  }

  /** RunningTotal at flit k, lane j is the reference prefix sum of the
      flattened stream at that element's position. */
  lemma RunningTotalFlat(fs: seq<Flit>, k: nat, j: nat)
    requires k < |fs| && j < |fs[k]|
    ensures |Flatten(fs[..k])| + j < |Flatten(fs)|
    ensures RunningTotal(fs, k, j) == PrefixSums(Flatten(fs))[|Flatten(fs[..k])| + j]
  {
    FlattenPrefix(fs, k, j);
  }

  /** One more lane of the current flit adds that lane to the running sum. */
  lemma SumExtend(a: seq<Element>, b: seq<Element>, j: nat)
    requires j < |b|
    ensures Sum(a + b[..j + 1]) == Add(Sum(a + b[..j]), b[j])
  {
    assert (a + b[..j + 1])[..|a + b[..j + 1]| - 1] == a + b[..j];
  }
}
