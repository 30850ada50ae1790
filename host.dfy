/** The host side of the program: the buffers it fills and reads back, the
    source and sink kernels that move those buffers into and out of the
    pipeline, and the final check of the result. */
module Host {
  import opened Stream
  import opened Pipes

  /** The number of elements the program streams. */
  const StreamLength: nat := 0x100_0000

  /** The stream the program fills its input buffer with: element i holds
      the value i. */
  function TestInput(): (r: seq<Element>)
    ensures |r| == StreamLength
    ensures forall i :: 0 <= i < StreamLength ==> r[i] == i
  {
    seq(StreamLength, i requires 0 <= i < StreamLength => i)
  }

  /** The i-th triangular number, 0 + 1 + ... + i. */
  function Triangle(i: nat): nat
  {
    i * (i + 1) / 2
  }

  /** The prefix sums of the test stream are the triangular numbers: the
      first i + 1 elements add up to Triangle(i). */
  lemma {:induction false} TriangleSum(s: seq<Element>, i: nat)
    requires i < |s| && forall l :: 0 <= l <= i ==> s[l] == l
    ensures IntSum(s[..i + 1]) == Triangle(i)
  {
    assert s[..i + 1][..i] == s[..i];
    if i == 0 {
      assert s[..0] == [];
    } else {
      TriangleSum(s, i - 1);
      assert (i - 1) * i + 2 * i == i * (i + 1);
    }
  }

  /** Element i of the test stream's prefix sums is Triangle(i) modulo
      2^64. */
  lemma TestPrefixSum(i: nat)
    requires i < StreamLength
    ensures PrefixSums(TestInput())[i] == Triangle(i) % Modulus
  {
    TriangleSum(TestInput(), i);
  }

  /** Allocates the host's input and output buffers of whole flits, fills
      the input buffer with `input` and clears the output buffer. Element i
      goes to flit i / w, lane i % w (see FlattenAt): flattened, the input
      buffer is `input`. The program fills element i with the value i;
      `input` here is any stream of whole flits. */
  method PackStream(input: seq<Element>, w: nat) returns (idata: array<Flit>, odata: array<Flit>)
    requires 1 <= w && |input| % w == 0
    ensures fresh(idata) && fresh(odata) && idata != odata
    ensures idata.Length == odata.Length == |input| / w
    ensures Uniform(idata[..], w) && Uniform(odata[..], w)
    ensures Flatten(idata[..]) == input
    ensures Flatten(odata[..]) == Zeros(|input|)
  {
    idata := new Flit[|input| / w](_ => Zeros(w));
    odata := new Flit[|input| / w](_ => Zeros(w));
    FlattenLength(idata[..], w);
    FlattenLength(odata[..], w);
    DivModSplit(|input|, w);
    FillBuffers(input, w, idata, odata);
  }

  /** The host's initialisation loop over element indices. */
  method FillBuffers(input: seq<Element>, w: nat, idata: array<Flit>, odata: array<Flit>)
    requires 1 <= w && idata != odata
    requires Uniform(idata[..], w) && Uniform(odata[..], w)
    requires |Flatten(idata[..])| == |Flatten(odata[..])| == |input|
    modifies idata, odata
    ensures Uniform(idata[..], w) && Uniform(odata[..], w)
    ensures Flatten(idata[..]) == input && Flatten(odata[..]) == Zeros(|input|)
  {
    var zeros := Zeros(|input|);
    for i := 0 to |input|
      invariant Uniform(idata[..], w) && Uniform(odata[..], w)
      invariant |Flatten(idata[..])| == |Flatten(odata[..])| == |input|
      invariant Flatten(idata[..])[..i] == input[..i]
      invariant Flatten(odata[..])[..i] == zeros[..i]
    {
      StoreElement(idata, w, i, input[i]);
      StoreElement(odata, w, i, zeros[i]);
      assert input[..i + 1] == input[..i] + [input[i]];
      assert zeros[..i + 1] == zeros[..i] + [zeros[i]];
    }
    assert Flatten(idata[..]) == Flatten(idata[..])[..|input|];
    assert Flatten(odata[..]) == Flatten(odata[..])[..|input|];
  }

  /** One assignment of the initialisation loop: x goes to lane i % w of
      flit i / w, which is element i of the flattened buffer, and nothing
      else changes. */
  method StoreElement(buf: array<Flit>, w: nat, i: nat, x: Element)
    requires 1 <= w && Uniform(buf[..], w) && i < |Flatten(buf[..])|
    modifies buf
    ensures Uniform(buf[..], w)
    ensures Flatten(buf[..]) == Flatten(old(buf[..]))[i := x]
  {
    FlattenUpdate(buf[..], w, i, x);
    buf[i / w] := buf[i / w][i % w := x];
    assert buf[..] == Store(old(buf[..]), i / w, i % w, x);
  }

  /** The host's final check: re-accumulates the input buffer flit by flit
      and lane by lane, and reports failure at the first output element that
      differs from the running total. */
  method HostCheck(w: nat, idata: array<Flit>, odata: array<Flit>) returns (ok: bool)
    requires Uniform(idata[..], w) && Uniform(odata[..], w) && idata.Length == odata.Length
    ensures ok <==> forall k, j :: 0 <= k < idata.Length && 0 <= j < w ==>
                      odata[k][j] == RunningTotal(idata[..], k, j)
  {
    var prefixSum: Element := 0;
    for k := 0 to idata.Length
      invariant prefixSum == Sum(Flatten(idata[..k]))
      invariant forall k', j :: 0 <= k' < k && 0 <= j < w ==> odata[k'][j] == RunningTotal(idata[..], k', j)
    {
      assert idata[..][..k] == idata[..k];
      assert Flatten(idata[..k]) + idata[k][..0] == Flatten(idata[..k]);
      for j := 0 to w
        invariant prefixSum == Sum(Flatten(idata[..k]) + idata[k][..j])
        invariant forall j' :: 0 <= j' < j ==> odata[k][j'] == RunningTotal(idata[..], k, j')
      {
        SumExtend(Flatten(idata[..k]), idata[k], j);
        prefixSum := Add(prefixSum, idata[k][j]);
        if prefixSum != odata[k][j] {
          return false;
        }
      }
      assert idata[..k + 1] == idata[..k] + [idata[k]] && idata[k][..w] == idata[k];
      FlattenSnoc(idata[..k], idata[k]);
    }
    return true;
  }

  /** The source kernel: writes the input buffer to the pipeline's entry
      pipe, one flit per iteration, in buffer order. `next` is the loop's
      flit index (its element offset divided by the width). */
  class Source {
    const ibuf: array<Flit>
    const inPipe: Channel<Flit>
    var next: nat

    ghost predicate Valid()
      reads this, inPipe
    {
      inPipe.Valid() && next <= ibuf.Length
    }

    constructor (ibuf: array<Flit>, inPipe: Channel<Flit>)
      requires inPipe.Valid()
      ensures Valid() && this.ibuf == ibuf && this.inPipe == inPipe && next == 0
    {
      this.ibuf, this.inPipe := ibuf, inPipe;
      next := 0;
    }

    /** The loop has flits left and its write would not block. */
    predicate CanStep()
      reads this, inPipe
    {
      next < ibuf.Length && !inPipe.Full()
    }

    method Step()
      requires Valid() && CanStep()
      modifies this, inPipe
      ensures Valid() && next == old(next) + 1
      ensures inPipe.buf == old(inPipe.buf) + [ibuf[old(next)]]
      ensures inPipe.written == old(inPipe.written) + [ibuf[old(next)]]
      ensures inPipe.taken == old(inPipe.taken)
    {
      inPipe.Write(ibuf[next]);
      next := next + 1;
    }
  }

  /** The sink kernel: reads the pipeline's exit pipe into the output
      buffer, one flit per iteration, in order. */
  class Sink {
    const obuf: array<Flit>
    const outPipe: Channel<Flit>
    var next: nat

    ghost predicate Valid()
      reads this, outPipe
    {
      outPipe.Valid() && next <= obuf.Length
    }

    constructor (obuf: array<Flit>, outPipe: Channel<Flit>)
      requires outPipe.Valid()
      ensures Valid() && this.obuf == obuf && this.outPipe == outPipe && next == 0
    {
      this.obuf, this.outPipe := obuf, outPipe;
      next := 0;
    }

    /** The loop has flits left and its read would not block. */
    predicate CanStep()
      reads this, outPipe
    {
      next < obuf.Length && !outPipe.Empty()
    }

    method Step()
      requires Valid() && CanStep()
      modifies this, outPipe, obuf
      ensures Valid() && next == old(next) + 1
      ensures obuf[..] == old(obuf[..])[old(next) := old(outPipe.buf)[0]]
      ensures outPipe.buf == old(outPipe.buf)[1..]
      ensures outPipe.taken == old(outPipe.taken) + [old(outPipe.buf)[0]]
      ensures outPipe.written == old(outPipe.written)
    {
      var flit := outPipe.Read();
      obuf[next] := flit;
      next := next + 1;
    }
  }
}
