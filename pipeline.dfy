/** The two pipelines the program can launch, and the program itself.

    The kernels run concurrently on the device. Here they run as a
    sequential interleaving: in each tick every unit whose pipe operations
    can complete takes one step, the sink first and the source last. So a
    flit moves one stage per tick, as through the pipeline registers of the
    hardware. Each pipeline is proved to deliver every flit within a fixed
    number of ticks (no deadlock), in order, and to
    write exactly the flits its kernels' stream functions say. */
module Pipeline {
  import opened Stream
  import opened Pipes
  import opened Kernels
  import opened Host

  /** How many flits of an `n`-flit stream a unit has handled: a unit that
      sits d stages after the source has handled Filled(t - d, n) flits
      after t ticks. None before the first flit reaches it, then one per
      tick, until all n are through. */
  function Filled(t: int, n: nat): (r: nat)
    ensures r <= n
  {
    if t <= 0 then 0 else if t >= n then n else t
  }

  /** A stage never falls more than one flit behind the stage before it. */
  lemma FilledStep(t: int, n: nat)
    ensures Filled(t - 1, n) <= Filled(t, n) <= Filled(t - 1, n) + 1
  {
  }

  /** The source, zero stages behind itself, sends one more flit per tick
      until none is left. */
  lemma FilledAdvance(t: nat, n: nat)
    ensures Filled(t + 1, n) == if Filled(t, n) < n then Filled(t, n) + 1 else Filled(t, n)
  {
  }

  /** The pairing of the two pipes between A and B. A writes the partial sum
      of each flit beside the flit, and B reads one of each per iteration.
      So once B has read as many partial sums as flits, what it has read
      pairs up exactly, and so does what is still waiting. */
  lemma FifoPairing(dataWritten: seq<Flit>, dataTaken: seq<Flit>, dataBuf: seq<Flit>,
                    sumTaken: seq<Element>, sumBuf: seq<Element>)
    requires sumTaken + sumBuf == PartialSums(dataWritten)
    requires dataWritten == dataTaken + dataBuf
    requires |sumTaken| == |dataTaken|
    ensures sumTaken == PartialSums(dataTaken)
    ensures sumBuf == PartialSums(dataBuf)
  {
    PartialSumsAppend(dataTaken, dataBuf);
    var pa, pb := PartialSums(dataTaken), PartialSums(dataBuf);
    assert sumTaken == (sumTaken + sumBuf)[..|sumTaken|] == (pa + pb)[..|pa|];
    assert sumBuf == (sumTaken + sumBuf)[|sumTaken|..] == (pa + pb)[|pa|..];
  }

  /** What one iteration of B does to the values the two-stage pipeline's
      invariant speaks of: it reads flit k with its partial sum, writes the
      next output flit and carries the sum on. */
  lemma BAdvance(fs: seq<Flit>, k: nat, sums: seq<Element>)
    requires k < |fs| && |sums| == k
    ensures fs[..k + 1] == fs[..k] + [fs[k]]
    ensures Sum(sums + [Sum(fs[k])]) == Add(Sum(sums), Sum(fs[k]))
    ensures BStream(0, fs[..k + 1], sums + [Sum(fs[k])])
         == BStream(0, fs[..k], sums) + [Scan(Sum(sums), fs[k])]
  {
    assert fs[..k + 1] == fs[..k] + [fs[k]];
    assert (sums + [Sum(fs[k])])[..k] == sums;
    BStreamSnoc(0, fs[..k], sums, fs[k], Sum(fs[k]));
  }

  /** Source -> InPipe -> prefixSumSimple -> OutPipe -> sink. */
  class SimplePipeline {
    const W: nat
    const idata: array<Flit>
    const odata: array<Flit>
    const inPipe: Channel<Flit>
    const outPipe: Channel<Flit>
    const source: Source
    const kernel: PrefixSumSimple
    const sink: Sink

    /** The wiring, fixed at construction. */
    ghost predicate Wired()
    {
      && 1 <= W && kernel.W == W && idata != odata && odata.Length == idata.Length
      && inPipe != outPipe
      && source.ibuf == idata && source.inPipe == inPipe
      && kernel.inPipe == inPipe && kernel.outPipe == outPipe
      && sink.obuf == odata && sink.outPipe == outPipe
      && inPipe.depth == DefaultPipeDepth && outPipe.depth == DefaultPipeDepth
    }

    /** The source has sent a prefix of the input buffer, and the kernel has
        read a prefix of that. */
    ghost predicate SourceState()
      reads source, inPipe, idata
      requires Wired()
    {
      && inPipe.Valid() && Uniform(idata[..], W)
      && source.next <= idata.Length
      && inPipe.written == idata[..source.next]
      && |inPipe.taken| <= idata.Length
      && inPipe.taken == idata[..|inPipe.taken|]
    }

    /** The kernel has written its output for what it has read, and its
        carried sum is the sum of all it has read. */
    ghost predicate KernelState()
      reads inPipe, kernel, outPipe
      requires Wired()
    {
      && outPipe.Valid()
      && kernel.prefixSum == Sum(Flatten(inPipe.taken))
      && outPipe.written == SimpleStream(0, inPipe.taken)
    }

    /** The output buffer holds, in order, what the sink has read. */
    ghost predicate SinkState()
      reads outPipe, sink, odata
      requires Wired()
    {
      sink.next <= odata.Length && odata[..sink.next] == outPipe.taken
    }

    /** Everything moves in stream order. */
    ghost predicate Contents()
      reads inPipe, outPipe, source, kernel, sink, idata, odata
      requires Wired()
    {
      SourceState() && KernelState() && SinkState()
    }

    /** The source, the kernel and the sink have handled Filled(s),
        Filled(a) and Filled(d) flits of the stream. */
    ghost predicate At(s: int, a: int, d: int)
      reads inPipe, outPipe, source, kernel, sink, idata, odata
    {
      var n := idata.Length;
      && Wired() && Contents()
      && source.next == Filled(s, n) && |inPipe.taken| == Filled(a, n) && sink.next == Filled(d, n)
    }

    /** The state after `ticks` ticks: each stage is one tick behind the one
        before it. */
    ghost predicate Valid(ticks: nat)
      reads inPipe, outPipe, source, kernel, sink, idata, odata
    {
      At(ticks, ticks - 1, ticks - 2)
    }

    constructor (W: nat, idata: array<Flit>, odata: array<Flit>)
      requires 1 <= W && idata != odata && idata.Length == odata.Length
      requires Uniform(idata[..], W)
      ensures Valid(0)
      ensures this.W == W && this.idata == idata && this.odata == odata
      ensures fresh(inPipe) && fresh(outPipe) && fresh(source) && fresh(kernel) && fresh(sink)
    {
      var inPipe := new Channel<Flit>(DefaultPipeDepth);
      var outPipe := new Channel<Flit>(DefaultPipeDepth);
      this.W, this.idata, this.odata := W, idata, odata;
      this.inPipe, this.outPipe := inPipe, outPipe;
      this.source := new Source(idata, inPipe);
      this.kernel := new PrefixSumSimple(W, inPipe, outPipe);
      this.sink := new Sink(odata, outPipe);
    }

    /** The sink's turn in tick t: it takes the kernel's output flit, if one
        waits. */
    method SinkPhase(ghost t: int)
      requires At(t, t - 1, t - 2)
      modifies sink, outPipe, odata
      ensures At(t, t - 1, t - 1)
    {
      FilledStep(t - 1, idata.Length);
      if sink.CanStep() {
        ghost var d := sink.next;
        sink.Step();
        assert odata[..d + 1] == odata[..d] + [odata[d]];
      }
    }

    /** The kernel's turn in tick t: with its output pipe drained, it
        handles the flit the source sent, if one waits. */
    method KernelPhase(ghost t: int)
      requires At(t, t - 1, t - 1)
      modifies kernel, inPipe, outPipe
      ensures At(t, t, t - 1)
    {
      FilledStep(t, idata.Length);
      if kernel.CanStep() {
        KernelFire();
      }
    }

    /** One iteration of prefixSumSimple, on the flit waiting for it. */
    method KernelFire()
      requires Wired() && Contents() && kernel.CanStep()
      modifies kernel, inPipe, outPipe
      ensures Contents() && |inPipe.taken| == old(|inPipe.taken|) + 1
      ensures sink.next == old(sink.next) && source.next == old(source.next)
    {
      ghost var a := |inPipe.taken|;
      assert inPipe.written[a] == inPipe.buf[0] == idata[a];
      kernel.Step();
      assert inPipe.taken == idata[..a + 1] by {
        assert idata[..a + 1] == idata[..a] + [idata[a]];
      }
      SimpleStreamSnoc(0, idata[..a], idata[a]);
      FlattenSnoc(idata[..a], idata[a]);
      SumAppend(Flatten(idata[..a]), idata[a]);
    }

    /** The source's turn in tick t: with its entry pipe drained, it sends
        the next flit if any is left. */
    method SourcePhase(ghost t: nat)
      requires At(t, t, t - 1)
      modifies source, inPipe
      ensures At(t + 1, t, t - 1)
    {
      FilledAdvance(t, idata.Length);
      if source.CanStep() {
        ghost var s := source.next;
        source.Step();
        assert idata[..s + 1] == idata[..s] + [idata[s]];
      }
    }

    /** Downstream units step first, so no pipe ever holds more than one
        flit between ticks: the schedule never comes near the declared
        depth, and runs the same with pipes of any depth of at least 1. */
    lemma AtMostOneInFlight(ticks: nat)
      requires Valid(ticks)
      ensures |inPipe.buf| <= 1 && |outPipe.buf| <= 1
    {
      FilledStep(ticks - 1, idata.Length);
      FilledStep(ticks - 2, idata.Length);
    }

    /** Two ticks after the source has sent its last flit, the output buffer
        holds the kernel's whole output stream. */
    lemma Done()
      requires Valid(idata.Length + 2)
      ensures odata[..] == SimpleStream(0, idata[..])
    {
      assert inPipe.taken == idata[..];
      assert outPipe.taken == outPipe.written;
      assert odata[..] == odata[..idata.Length];
    }

    /** One tick: every unit that can complete its pipe operations steps,
        downstream first. */
    method Tick(ghost ticks: nat)
      requires Valid(ticks)
      modifies inPipe, outPipe, source, kernel, sink, odata
      ensures Valid(ticks + 1)
    {
      SinkPhase(ticks);
      KernelPhase(ticks);
      SourcePhase(ticks);
    }
  }

  /** Runs the single-stage pipeline until the sink has collected the whole
      stream: the stream length plus two ticks of pipeline latency. */
  method RunSimple(W: nat, idata: array<Flit>, odata: array<Flit>) returns (ticks: nat)
    requires 1 <= W && idata != odata && idata.Length == odata.Length
    requires Uniform(idata[..], W)
    modifies odata
    ensures ticks == idata.Length + 2
    ensures odata[..] == SimpleStream(0, idata[..])
  {
    var p := new SimplePipeline(W, idata, odata);
    ticks := 0;
    while ticks < idata.Length + 2
      invariant p.Valid(ticks) && ticks <= idata.Length + 2
      invariant p.idata == idata && p.odata == odata
    {
      p.Tick(ticks);
      ticks := ticks + 1;
    }
    p.Done();
  }

  /** Source -> InPipe -> prefixSumA -> SumPipe, DataPipe -> prefixSumB ->
      OutPipe -> sink. */
  class TwoStagePipeline {
    const W: nat
    const idata: array<Flit>
    const odata: array<Flit>
    const inPipe: Channel<Flit>
    const sumPipe: Channel<Element>
    const dataPipe: Channel<Flit>
    const outPipe: Channel<Flit>
    const source: Source
    const a: PrefixSumA
    const b: PrefixSumB
    const sink: Sink

    /** The wiring, fixed at construction. */
    ghost predicate Wired()
    {
      && 1 <= W && a.W == W && b.W == W && idata != odata && odata.Length == idata.Length
      && inPipe != dataPipe && inPipe != outPipe && dataPipe != outPipe
      && source.ibuf == idata && source.inPipe == inPipe
      && a.inPipe == inPipe && a.sumPipe == sumPipe && a.dataPipe == dataPipe
      && b.sumPipe == sumPipe && b.dataPipe == dataPipe && b.outPipe == outPipe
      && sink.obuf == odata && sink.outPipe == outPipe
      && inPipe.depth == DefaultPipeDepth && sumPipe.depth == DefaultPipeDepth
      && dataPipe.depth == DefaultPipeDepth && outPipe.depth == DefaultPipeDepth
    }

    /** The source has sent a prefix of the input buffer, and A has read a
        prefix of that. */
    ghost predicate SourceState()
      reads source, inPipe, idata
      requires Wired()
    {
      && inPipe.Valid() && Uniform(idata[..], W)
      && source.next <= idata.Length
      && inPipe.written == idata[..source.next]
      && |inPipe.taken| <= idata.Length
      && inPipe.taken == idata[..|inPipe.taken|]
    }

    /** A has forwarded each flit it read, with its partial sum beside it. */
    ghost predicate AState()
      reads inPipe, sumPipe, dataPipe
      requires Wired()
    {
      && sumPipe.Valid() && dataPipe.Valid()
      && dataPipe.written == inPipe.taken
      && sumPipe.written == PartialSums(inPipe.taken)
    }

    /** B has read as many partial sums as flits and written its output for
        them; its carried sum is the sum of the partial sums it read. */
    ghost predicate BState()
      reads sumPipe, dataPipe, b, outPipe, idata
      requires Wired()
    {
      && outPipe.Valid()
      && |dataPipe.taken| <= idata.Length
      && dataPipe.taken == idata[..|dataPipe.taken|]
      && |sumPipe.taken| == |dataPipe.taken|
      && b.sumSoFar == Sum(sumPipe.taken)
      && outPipe.written == BStream(0, dataPipe.taken, sumPipe.taken)
    }

    /** The output buffer holds, in order, what the sink has read. */
    ghost predicate SinkState()
      reads outPipe, sink, odata
      requires Wired()
    {
      sink.next <= odata.Length && odata[..sink.next] == outPipe.taken
    }

    /** Everything moves in stream order, flits and partial sums in step. */
    ghost predicate Contents()
      reads inPipe, sumPipe, dataPipe, outPipe, source, b, sink, idata, odata
      requires Wired()
    {
      SourceState() && AState() && BState() && SinkState()
    }

    /** The source, A, B and the sink have handled Filled(s), Filled(j),
        Filled(k) and Filled(d) flits of the stream. */
    ghost predicate At(s: int, j: int, k: int, d: int)
      reads inPipe, sumPipe, dataPipe, outPipe, source, b, sink, idata, odata
    {
      var n := idata.Length;
      && Wired() && Contents()
      && source.next == Filled(s, n) && |inPipe.taken| == Filled(j, n)
      && |dataPipe.taken| == Filled(k, n) && sink.next == Filled(d, n)
    }

    /** The state after `ticks` ticks: each stage is one tick behind the one
        before it. */
    ghost predicate Valid(ticks: nat)
      reads inPipe, sumPipe, dataPipe, outPipe, source, b, sink, idata, odata
    {
      At(ticks, ticks - 1, ticks - 2, ticks - 3)
    }

    constructor (W: nat, idata: array<Flit>, odata: array<Flit>)
      requires 1 <= W && idata != odata && idata.Length == odata.Length
      requires Uniform(idata[..], W)
      ensures Valid(0)
      ensures this.W == W && this.idata == idata && this.odata == odata
      ensures fresh(inPipe) && fresh(sumPipe) && fresh(dataPipe) && fresh(outPipe)
      ensures fresh(source) && fresh(a) && fresh(b) && fresh(sink)
    {
      var inPipe := new Channel<Flit>(DefaultPipeDepth);
      var sumPipe := new Channel<Element>(DefaultPipeDepth);
      var dataPipe := new Channel<Flit>(DefaultPipeDepth);
      var outPipe := new Channel<Flit>(DefaultPipeDepth);
      this.W, this.idata, this.odata := W, idata, odata;
      this.inPipe, this.sumPipe, this.dataPipe, this.outPipe := inPipe, sumPipe, dataPipe, outPipe;
      this.source := new Source(idata, inPipe);
      this.a := new PrefixSumA(W, inPipe, sumPipe, dataPipe);
      this.b := new PrefixSumB(W, sumPipe, dataPipe, outPipe);
      this.sink := new Sink(odata, outPipe);
    }

    /** The sink's turn in tick t: it takes B's output flit, if one waits. */
    method SinkPhase(ghost t: int)
      requires At(t, t - 1, t - 2, t - 3)
      modifies sink, outPipe, odata
      ensures At(t, t - 1, t - 2, t - 2)
    {
      FilledStep(t - 2, idata.Length);
      if sink.CanStep() {
        ghost var d := sink.next;
        sink.Step();
        assert odata[..d + 1] == odata[..d] + [odata[d]];
      }
    }

    /** B's turn in tick t: with its output pipe drained, it reads the flit
        A sent and the partial sum beside it, if they wait. */
    method BPhase(ghost t: int)
      requires At(t, t - 1, t - 2, t - 2)
      modifies b, sumPipe, dataPipe, outPipe
      ensures At(t, t - 1, t - 1, t - 2)
    {
      FilledStep(t - 1, idata.Length);
      FifoPairing(dataPipe.written, dataPipe.taken, dataPipe.buf, sumPipe.taken, sumPipe.buf);
      if b.CanStep() {
        BFire();
      }
    }

    /** One iteration of B, on the flit and partial sum waiting for it. */
    method BFire()
      requires Wired() && Contents() && b.CanStep() && sink.next == |dataPipe.taken|
      modifies b, sumPipe, dataPipe, outPipe
      ensures Contents() && |dataPipe.taken| == old(|dataPipe.taken|) + 1
    {
      ghost var k, sums := |dataPipe.taken|, sumPipe.taken;
      FifoPairing(dataPipe.written, dataPipe.taken, dataPipe.buf, sumPipe.taken, sumPipe.buf);
      assert dataPipe.written[k] == dataPipe.buf[0];
      b.Step();
      BAdvance(idata[..], k, sums);
    }

    /** A's turn in tick t: with both of its output pipes drained, it
        forwards the flit the source sent and its partial sum, if one waits. */
    method APhase(ghost t: int)
      requires At(t, t - 1, t - 1, t - 2)
      modifies inPipe, sumPipe, dataPipe
      ensures At(t, t, t - 1, t - 2)
    {
      FilledStep(t, idata.Length);
      if a.CanStep() {
        AFire();
      }
    }

    /** One iteration of A, on the flit waiting for it. */
    method AFire()
      requires Wired() && Contents() && a.CanStep() && |dataPipe.taken| == |inPipe.taken|
      modifies inPipe, sumPipe, dataPipe
      ensures Contents() && |inPipe.taken| == old(|inPipe.taken|) + 1
      ensures dataPipe.taken == old(dataPipe.taken)
    {
      ghost var j := |inPipe.taken|;
      assert inPipe.written[j] == inPipe.buf[0] == idata[j];
      a.Step();
      assert inPipe.taken == idata[..j + 1] by {
        assert idata[..j + 1] == idata[..j] + [idata[j]];
      }
      assert PartialSums(idata[..j + 1]) == PartialSums(idata[..j]) + [Sum(idata[j])];
    }

    /** The source's turn in tick t: with its entry pipe drained, it sends
        the next flit if any is left. */
    method SourcePhase(ghost t: nat)
      requires At(t, t, t - 1, t - 2)
      modifies source, inPipe
      ensures At(t + 1, t, t - 1, t - 2)
    {
      FilledAdvance(t, idata.Length);
      if source.CanStep() {
        ghost var s := source.next;
        source.Step();
        assert idata[..s + 1] == idata[..s] + [idata[s]];
      }
    }

    /** Downstream units step first, so no pipe ever holds more than one
        value between ticks: the schedule never comes near the declared
        depth, and runs the same with pipes of any depth of at least 1. */
    lemma AtMostOneInFlight(ticks: nat)
      requires Valid(ticks)
      ensures |inPipe.buf| <= 1 && |sumPipe.buf| <= 1 && |dataPipe.buf| <= 1 && |outPipe.buf| <= 1
    {
      FilledStep(ticks - 1, idata.Length);
      FilledStep(ticks - 2, idata.Length);
      FilledStep(ticks - 3, idata.Length);
    }

    /** B's carried `sumSoFar` is what prefixSumSimple carries in
        `prefixSum` after the same flits: the sum of every element B has
        read. */
    lemma CarriedSumsAgree()
      requires Wired() && Contents()
      ensures b.sumSoFar == Sum(Flatten(dataPipe.taken))
    {
      FifoPairing(dataPipe.written, dataPipe.taken, dataPipe.buf, sumPipe.taken, sumPipe.buf);
      SumOfPartialSums(dataPipe.taken);
    }

    /** Three ticks after the source has sent its last flit, the output
        buffer holds B's whole output stream. */
    lemma Done()
      requires Valid(idata.Length + 3)
      ensures odata[..] == TwoStageStream(idata[..])
    {
      FifoPairing(dataPipe.written, dataPipe.taken, dataPipe.buf, sumPipe.taken, sumPipe.buf);
      assert dataPipe.taken == idata[..];
      assert outPipe.taken == outPipe.written;
      assert odata[..] == odata[..idata.Length];
    }

    /** One tick: every unit that can complete its pipe operations steps,
        downstream first. */
    method Tick(ghost ticks: nat)
      requires Valid(ticks)
      modifies inPipe, sumPipe, dataPipe, outPipe, source, b, sink, odata
      ensures Valid(ticks + 1)
    {
      SinkPhase(ticks);
      BPhase(ticks);
      APhase(ticks);
      SourcePhase(ticks);
    }
  }

  /** Runs the two-stage pipeline until the sink has collected the whole
      stream: the stream length plus three ticks of pipeline latency, one
      more than the single-stage pipeline. */
  method RunTwoStage(W: nat, idata: array<Flit>, odata: array<Flit>) returns (ticks: nat)
    requires 1 <= W && idata != odata && idata.Length == odata.Length
    requires Uniform(idata[..], W)
    modifies odata
    ensures ticks == idata.Length + 3
    ensures odata[..] == TwoStageStream(idata[..])
  {
    var p := new TwoStagePipeline(W, idata, odata);
    ticks := 0;
    while ticks < idata.Length + 3
      invariant p.Valid(ticks) && ticks <= idata.Length + 3
      invariant p.idata == idata && p.odata == odata
    {
      p.Tick(ticks);
      ticks := ticks + 1;
    }
    p.Done();
  }

  /** The output a pipeline leaves in the output buffer passes the host's
      check at every flit and lane. */
  lemma StreamMatchesTotals(fs: seq<Flit>, out: seq<Flit>, w: nat)
    requires Uniform(fs, w) && out == SimpleStream(0, fs)
    ensures Uniform(out, w)
    ensures forall k, j :: 0 <= k < |fs| && 0 <= j < w ==> out[k][j] == RunningTotal(fs, k, j)
  {
    SimpleStreamUniform(0, fs, w);
    forall k, j | 0 <= k < |fs| && 0 <= j < w
      ensures out[k][j] == RunningTotal(fs, k, j)
    {
      SimpleStreamAt(fs, k, j);
    }
  }

  /** The program: fill the buffers, stream them through one of the two
      pipelines, and check the result the way the host does. Whichever
      pipeline runs, the check passes, and the output, flattened, is the
      prefix sum of the input: element i of the output (lane i % W of flit
      i / W, see FlattenAt) is the sum of input elements 0..i. */
  method HostProgram(input: seq<Element>, W: nat, twoStage: bool) returns (ok: bool, output: seq<Flit>)
    requires 1 <= W && |input| % W == 0
    ensures ok
    ensures |output| == |input| / W && Uniform(output, W)
    ensures Flatten(output) == PrefixSums(input)
  {
    var idata, odata := PackStream(input, W);
    var ticks;
    if twoStage {
      ticks := RunTwoStage(W, idata, odata);
      TwoStageEquivalence(idata[..]);
    } else {
      ticks := RunSimple(W, idata, odata);
    }
    assert odata[..] == SimpleStream(0, idata[..]);
    StreamMatchesTotals(idata[..], odata[..], W);
    forall k, j | 0 <= k < odata.Length && 0 <= j < W
      ensures odata[k][j] == RunningTotal(idata[..], k, j)
    {
      assert odata[k] == odata[..][k];
    }
    ok := HostCheck(W, idata, odata);
    output := odata[..];
    SimpleStreamCorrect(0, idata[..]);
  }

  /** The program as built: the host fills 2^24 elements with element i
      holding the value i, the flits are StreamWidth lanes wide, and either
      pipeline leaves the triangular numbers 0 + 1 + ... + i (modulo 2^64)
      behind, which the host check accepts. */
  method TestProgram(twoStage: bool) returns (ok: bool, output: seq<Flit>)
    ensures ok
    ensures |output| == StreamLength / StreamWidth && Uniform(output, StreamWidth)
    ensures |Flatten(output)| == StreamLength
    ensures forall i :: 0 <= i < StreamLength ==> Flatten(output)[i] == Triangle(i) % Modulus
  {
    ok, output := HostProgram(TestInput(), StreamWidth, twoStage);
    forall i | 0 <= i < StreamLength
      ensures Flatten(output)[i] == Triangle(i) % Modulus
    {
      TestPrefixSum(i);
    }
  }
}
