/** The three prefix-sum kernels: the single-stage `prefixSumSimple` and the
    two-stage decomposition `prefixSumA` / `prefixSumB`.

    The first half gives each kernel's behaviour over a whole finite stream as
    a function (what it writes, given what it reads and its carried state),
    and proves that the two variants agree and compute the running sum. The
    second half models each kernel as an object whose `Step` performs one
    iteration of its never-ending loop, proved against those functions. */
module Kernels {
  import opened Stream
  import opened Pipes

  // ---------------------------------------------------------------------
  // Stream-level behaviour
  // ---------------------------------------------------------------------

  /** The flits prefixSumSimple writes for the input flits `fs` when its
      carried `prefixSum` starts at `seed`. */
  function SimpleStream(seed: Element, fs: seq<Flit>): (r: seq<Flit>)
    ensures |r| == |fs|
    ensures forall k :: 0 <= k < |fs| ==> |r[k]| == |fs[k]|
    decreases fs
  {
    if fs == [] then []
    else [Scan(seed, fs[0])] + SimpleStream(Add(seed, Sum(fs[0])), fs[1..])
  }

  /** The values prefixSumA writes to the sum pipe: one lane sum per flit. */
  function PartialSums(fs: seq<Flit>): (r: seq<Element>)
    ensures |r| == |fs|
    ensures forall k :: 0 <= k < |fs| ==> r[k] == Sum(fs[k])
  {
    if fs == [] then [] else [Sum(fs[0])] + PartialSums(fs[1..])
  }

  /** The flits prefixSumB writes when it reads the flits `data` and, beside
      each, the partial sum at the same position of `sums`, starting from the
      carried `sumSoFar`. Its output does not depend on the partial sums of
      the current flit, only on those of the earlier ones. */
  function BStream(sumSoFar: Element, data: seq<Flit>, sums: seq<Element>): (r: seq<Flit>)
    requires |data| == |sums|
    ensures |r| == |data|
    ensures forall k :: 0 <= k < |data| ==> |r[k]| == |data[k]|
    decreases data
  {
    if data == [] then []
    else [Scan(sumSoFar, data[0])] + BStream(Add(sumSoFar, sums[0]), data[1..], sums[1..])
  }

  /** A works flit by flit: the partial sums of a concatenation are the
      partial sums of the parts. */
  lemma {:induction false} PartialSumsAppend(a: seq<Flit>, b: seq<Flit>)
    ensures PartialSums(a + b) == PartialSums(a) + PartialSums(b)
  {
    if a != [] {
      assert (a + b)[1..] == a[1..] + b;
      PartialSumsAppend(a[1..], b);
    }
  }

  /** The flits the two-stage pipeline writes: B fed by A. */
  function TwoStageStream(fs: seq<Flit>): (r: seq<Flit>)
    ensures |r| == |fs|
    ensures forall k :: 0 <= k < |fs| ==> |r[k]| == |fs[k]|
  {
    BStream(0, fs, PartialSums(fs))
  }

  /** One more input flit makes prefixSumSimple write one more output flit,
      seeded with everything summed so far. */
  lemma {:induction false} SimpleStreamSnoc(seed: Element, fs: seq<Flit>, f: Flit)
    ensures SimpleStream(seed, fs + [f])
         == SimpleStream(seed, fs) + [Scan(Add(seed, Sum(Flatten(fs))), f)]
    decreases fs
  {
    if fs == [] {
      assert fs + [f] == [f];
    } else {
      var seed' := Add(seed, Sum(fs[0]));
      assert (fs + [f])[1..] == fs[1..] + [f];
      SimpleStreamSnoc(seed', fs[1..], f);
      SumAppend(fs[0], Flatten(fs[1..]));
      AddAssoc(seed, Sum(fs[0]), Sum(Flatten(fs[1..])));
    }
  }

  /** One more flit and partial sum make prefixSumB write one more output
      flit, seeded with the partial sums read so far. */
  lemma {:induction false} BStreamSnoc(sumSoFar: Element, data: seq<Flit>, sums: seq<Element>, f: Flit, p: Element)
    requires |data| == |sums|
    ensures BStream(sumSoFar, data + [f], sums + [p])
         == BStream(sumSoFar, data, sums) + [Scan(Add(sumSoFar, Sum(sums)), f)]
    decreases data
  {
    if data == [] {
      assert data + [f] == [f] && sums + [p] == [p];
    } else {
      var s' := Add(sumSoFar, sums[0]);
      assert (data + [f])[1..] == data[1..] + [f];
      assert (sums + [p])[1..] == sums[1..] + [p];
      BStreamSnoc(s', data[1..], sums[1..], f, p);
      assert sums == [sums[0]] + sums[1..];
      SumAppend([sums[0]], sums[1..]);
      assert Sum([sums[0]]) == Add(Sum([]), sums[0]);
      AddAssoc(sumSoFar, sums[0], Sum(sums[1..]));
    }
  }

  /** The partial sums of a stream add up to the sum of all its elements, so
      B's carried `sumSoFar` tracks prefixSumSimple's carried `prefixSum`. */
  lemma {:induction false} SumOfPartialSums(fs: seq<Flit>)
    ensures Sum(PartialSums(fs)) == Sum(Flatten(fs))
  {
    if fs != [] {
      SumOfPartialSums(fs[1..]);
      assert PartialSums(fs) == [Sum(fs[0])] + PartialSums(fs[1..]);
      SumAppend([Sum(fs[0])], PartialSums(fs[1..]));
      assert Sum([Sum(fs[0])]) == Add(Sum([]), Sum(fs[0]));
      SumAppend(fs[0], Flatten(fs[1..]));
    }
  }

  /** Equivalence of the two variants: B fed with A's partial sums writes
      exactly the flits prefixSumSimple writes, from any common carried state. */
  lemma {:induction false} TwoStageMatchesSimple(seed: Element, fs: seq<Flit>)
    ensures BStream(seed, fs, PartialSums(fs)) == SimpleStream(seed, fs)
    decreases fs
  {
    if fs != [] {
      assert PartialSums(fs)[1..] == PartialSums(fs[1..]);
      TwoStageMatchesSimple(Add(seed, Sum(fs[0])), fs[1..]);
    }
  }

  /** The headline equivalence, from the kernels' initial state. */
  lemma TwoStageEquivalence(fs: seq<Flit>)
    ensures TwoStageStream(fs) == SimpleStream(0, fs)
  {
    TwoStageMatchesSimple(0, fs);
  }

  /** Element by element, prefixSumSimple's output is the running sum of its
      input, continuing from the carried state. */
  lemma {:induction false} SimpleStreamCorrect(seed: Element, fs: seq<Flit>)
    ensures Flatten(SimpleStream(seed, fs)) == Scan(seed, Flatten(fs))
    decreases fs
  {
    if fs != [] {
      SimpleStreamCorrect(Add(seed, Sum(fs[0])), fs[1..]);
      ScanAppend(seed, fs[0], Flatten(fs[1..]));
    }
  }

  /** Output flit k of prefixSumSimple is flit k of the input scanned from
      the sum of all the flits before it. */
  lemma {:induction false} SimpleStreamFlit(seed: Element, fs: seq<Flit>, k: nat)
    requires k < |fs|
    ensures SimpleStream(seed, fs)[k] == Scan(Add(seed, Sum(Flatten(fs[..k]))), fs[k])
    decreases k
  {
    if k == 0 {
      assert fs[..0] == [];
    } else {
      var rest := fs[1..];
      SimpleStreamFlit(Add(seed, Sum(fs[0])), rest, k - 1);
      assert rest[..k - 1] == fs[..k][1..];
      assert Flatten(fs[..k]) == fs[0] + Flatten(rest[..k - 1]);
      SumAppend(fs[0], Flatten(rest[..k - 1]));
      AddAssoc(seed, Sum(fs[0]), Sum(Flatten(rest[..k - 1])));
    }
  }

  /** prefixSumSimple writes flits as wide as the ones it reads. */
  lemma {:induction false} SimpleStreamUniform(seed: Element, fs: seq<Flit>, w: nat)
    requires Uniform(fs, w)
    ensures Uniform(SimpleStream(seed, fs), w)
    decreases fs
  {
    if fs != [] {
      SimpleStreamUniform(Add(seed, Sum(fs[0])), fs[1..], w);
    }
  }

  /** Each output lane of prefixSumSimple holds what the host check expects
      at that flit and lane. */
  lemma SimpleStreamAt(fs: seq<Flit>, k: nat, j: nat)
    requires k < |fs| && j < |fs[k]|
    ensures |SimpleStream(0, fs)[k]| == |fs[k]|
    ensures SimpleStream(0, fs)[k][j] == RunningTotal(fs, k, j)
  {
    SimpleStreamFlit(0, fs, k);
    SumAppend(Flatten(fs[..k]), fs[k][..j + 1]);
  }

  // ---------------------------------------------------------------------
  // The kernels as objects: one Step is one iteration of the kernel loop
  // ---------------------------------------------------------------------

  /** prefixSumSimple: reads a flit, writes its lanes' running sums, carrying
      `prefixSum` from one flit to the next. */
  class PrefixSumSimple {
    const W: nat
    const inPipe: Channel<Flit>
    const outPipe: Channel<Flit>
    var prefixSum: Element

    ghost predicate Valid()
      reads this, inPipe, outPipe
    {
      1 <= W && inPipe != outPipe && inPipe.Valid() && outPipe.Valid()
    }

    constructor (W: nat, inPipe: Channel<Flit>, outPipe: Channel<Flit>)
      requires 1 <= W && inPipe != outPipe && inPipe.Valid() && outPipe.Valid()
      ensures Valid()
      ensures this.W == W && this.inPipe == inPipe && this.outPipe == outPipe
      ensures prefixSum == 0
    {
      this.W, this.inPipe, this.outPipe := W, inPipe, outPipe;
      prefixSum := 0;
    }

    /** Neither the read nor the write of an iteration would block. */
    predicate CanStep()
      reads this, inPipe, outPipe
    {
      !inPipe.Empty() && !outPipe.Full()
    }

    method Step()
      requires Valid() && CanStep() && |inPipe.buf[0]| == W
      modifies this, inPipe, outPipe
      ensures Valid()
      ensures inPipe.buf == old(inPipe.buf)[1..] && inPipe.written == old(inPipe.written)
      ensures inPipe.taken == old(inPipe.taken) + [old(inPipe.buf)[0]]
      ensures outPipe.buf == old(outPipe.buf) + [Scan(old(prefixSum), old(inPipe.buf)[0])]
      ensures outPipe.written == old(outPipe.written) + [Scan(old(prefixSum), old(inPipe.buf)[0])]
      ensures outPipe.taken == old(outPipe.taken)
      ensures prefixSum == Add(old(prefixSum), Sum(old(inPipe.buf)[0]))
    {
      var iflit := inPipe.Read();
      var oflit := new Element[W];
      for i := 0 to W
        modifies this, oflit
        invariant prefixSum == Add(old(prefixSum), Sum(iflit[..i]))
        invariant forall l :: 0 <= l < i ==> oflit[l] == Add(old(prefixSum), Sum(iflit[..l + 1]))
      {
        assert iflit[..i + 1][..i] == iflit[..i];
        AddAssoc(old(prefixSum), Sum(iflit[..i]), iflit[i]);
        prefixSum := Add(prefixSum, iflit[i]);
        oflit[i] := prefixSum;
      }
      assert iflit[..W] == iflit;
      assert oflit[..] == Scan(old(prefixSum), iflit);
      outPipe.Write(oflit[..]);
    }
  }

  /** prefixSumA: stateless. Reads a flit, writes the sum of its lanes to the
      sum pipe and then the flit itself, unchanged, to the data pipe. */
  class PrefixSumA {
    const W: nat
    const inPipe: Channel<Flit>
    const sumPipe: Channel<Element>
    const dataPipe: Channel<Flit>

    ghost predicate Valid()
      reads this, inPipe, sumPipe, dataPipe
    {
      1 <= W && inPipe != dataPipe && inPipe.Valid() && sumPipe.Valid() && dataPipe.Valid()
    }

    constructor (W: nat, inPipe: Channel<Flit>, sumPipe: Channel<Element>, dataPipe: Channel<Flit>)
      requires 1 <= W && inPipe != dataPipe && inPipe.Valid() && sumPipe.Valid() && dataPipe.Valid()
      ensures Valid()
      ensures this.W == W && this.inPipe == inPipe
      ensures this.sumPipe == sumPipe && this.dataPipe == dataPipe
    {
      this.W, this.inPipe, this.sumPipe, this.dataPipe := W, inPipe, sumPipe, dataPipe;
    }

    predicate CanStep()
      reads this, inPipe, sumPipe, dataPipe
    {
      !inPipe.Empty() && !sumPipe.Full() && !dataPipe.Full()
    }

    method Step()
      requires Valid() && CanStep() && |inPipe.buf[0]| == W
      modifies inPipe, sumPipe, dataPipe
      ensures Valid()
      ensures inPipe.buf == old(inPipe.buf)[1..] && inPipe.written == old(inPipe.written)
      ensures inPipe.taken == old(inPipe.taken) + [old(inPipe.buf)[0]]
      ensures sumPipe.buf == old(sumPipe.buf) + [Sum(old(inPipe.buf)[0])]
      ensures sumPipe.written == old(sumPipe.written) + [Sum(old(inPipe.buf)[0])]
      ensures sumPipe.taken == old(sumPipe.taken)
      ensures dataPipe.buf == old(dataPipe.buf) + [old(inPipe.buf)[0]]
      ensures dataPipe.written == old(dataPipe.written) + [old(inPipe.buf)[0]]
      ensures dataPipe.taken == old(dataPipe.taken)
    {
      var iflit := inPipe.Read();
      var partialSum: Element := 0;
      for i := 0 to W
        invariant partialSum == Sum(iflit[..i])
      {
        assert iflit[..i + 1][..i] == iflit[..i];
        partialSum := Add(partialSum, iflit[i]);
      }
      assert iflit[..W] == iflit;
      sumPipe.Write(partialSum);
      dataPipe.Write(iflit);
    }
  }

  /** prefixSumB: reads a flit from the data pipe and its partial sum from
      the sum pipe, writes the flit's running sums seeded with `sumSoFar`,
      and then adds the partial sum to `sumSoFar`. */
  class PrefixSumB {
    const W: nat
    const sumPipe: Channel<Element>
    const dataPipe: Channel<Flit>
    const outPipe: Channel<Flit>
    var sumSoFar: Element

    ghost predicate Valid()
      reads this, sumPipe, dataPipe, outPipe
    {
      1 <= W && dataPipe != outPipe && sumPipe.Valid() && dataPipe.Valid() && outPipe.Valid()
    }

    constructor (W: nat, sumPipe: Channel<Element>, dataPipe: Channel<Flit>, outPipe: Channel<Flit>)
      requires 1 <= W && dataPipe != outPipe && sumPipe.Valid() && dataPipe.Valid() && outPipe.Valid()
      ensures Valid()
      ensures this.W == W && this.sumPipe == sumPipe
      ensures this.dataPipe == dataPipe && this.outPipe == outPipe
      ensures sumSoFar == 0
    {
      this.W, this.sumPipe, this.dataPipe, this.outPipe := W, sumPipe, dataPipe, outPipe;
      sumSoFar := 0;
    }

    predicate CanStep()
      reads this, sumPipe, dataPipe, outPipe
    {
      !dataPipe.Empty() && !sumPipe.Empty() && !outPipe.Full()
    }

    method Step()
      requires Valid() && CanStep() && |dataPipe.buf[0]| == W
      modifies this, sumPipe, dataPipe, outPipe
      ensures Valid()
      ensures dataPipe.buf == old(dataPipe.buf)[1..] && dataPipe.written == old(dataPipe.written)
      ensures dataPipe.taken == old(dataPipe.taken) + [old(dataPipe.buf)[0]]
      ensures sumPipe.buf == old(sumPipe.buf)[1..] && sumPipe.written == old(sumPipe.written)
      ensures sumPipe.taken == old(sumPipe.taken) + [old(sumPipe.buf)[0]]
      ensures outPipe.buf == old(outPipe.buf) + [Scan(old(sumSoFar), old(dataPipe.buf)[0])]
      ensures outPipe.written == old(outPipe.written) + [Scan(old(sumSoFar), old(dataPipe.buf)[0])]
      ensures outPipe.taken == old(outPipe.taken)
      ensures sumSoFar == Add(old(sumSoFar), old(sumPipe.buf)[0])
    {
      var iflit := dataPipe.Read();
      var partialSum := sumPipe.Read();
      var oflit := new Element[W];
      var prefixSum := sumSoFar;
      for i := 0 to W
        modifies oflit
        invariant prefixSum == Add(sumSoFar, Sum(iflit[..i]))
        invariant forall l :: 0 <= l < i ==> oflit[l] == Add(sumSoFar, Sum(iflit[..l + 1]))
      {
        assert iflit[..i + 1][..i] == iflit[..i];
        AddAssoc(sumSoFar, Sum(iflit[..i]), iflit[i]);
        prefixSum := Add(prefixSum, iflit[i]);
        oflit[i] := prefixSum;
      }
      assert iflit[..W] == iflit;
      assert oflit[..] == Scan(sumSoFar, iflit);
      sumSoFar := Add(sumSoFar, partialSum);
      outPipe.Write(oflit[..]);
    }
  }
}
