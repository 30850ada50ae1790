# Streaming prefix sum, modelled in Dafny

This project models a SYCL/FPGA streaming prefix-sum design.

Step by step:

1. The host fills a buffer with a stream of 64-bit unsigned elements, packed
   W to a *flit*.
2. A source kernel streams that buffer, flit by flit, into a pipe.
3. A processing pipeline replaces each element by the sum of all elements up
   to and including it. The sum wraps modulo 2^64.
4. A sink kernel copies the result from the exit pipe into an output buffer.
5. The host re-accumulates the input and compares.

There are two processing pipelines:

- **Single-stage**: `prefixSumSimple`, which carries a running `prefixSum`
  from one flit to the next.
- **Two-stage**: `prefixSumA` sends each flit's lane sum down a sum pipe and
  the flit itself down a data pipe. `prefixSumB` then scans the flit, seeded
  with the `sumSoFar` it carries, and adds the partial sum to it.

Every pipe is a bounded FIFO declared with depth 4. Under the modelled
schedule no pipe ever holds more than one value (`AtMostOneInFlight`), so
freedom from deadlock here holds for any depth of at least 1; it says
nothing specific about the value 4.

The model has five modules, one per part of the program:

- `Stream` holds the element arithmetic: `uint64_t` addition as an explicit
  wrap-around.
  - Flits are a `seq<Element>`, and `Uniform` says that every flit has W
    lanes.
  - It defines the reference sums `Sum`, `Scan` and `PrefixSums`, and
    `Flatten`, which reads a flit stream as its stream of elements.
  - It also holds the index arithmetic of the host's packing loop: element i
    sits in lane i % W of flit i / W.
- `Pipes` is the pipe: a `Channel` class.
  - `buf` holds the values written and not yet read.
  - Ghost histories `written` and `taken` record every value ever written
    and ever read.
  - The invariant says `written == taken + buf` and `|buf| <= depth`.
- `Kernels` holds the three processing kernels in two forms:
  - As stream functions: what each kernel writes, given what it reads and
    its carried state.
  - As classes whose `Step` runs one iteration of the kernel's endless
    loop, including the unrolled lane loop. Each `Step` is proved against
    the stream functions.
- `Host` holds the host buffers:
  - the packing loop;
  - the source and sink kernels, as classes with `Step`;
  - the host's final check.
- `Pipeline` wires the units into the two pipelines and runs them.
  - Each pipeline is a class. Its `Tick` lets every unit whose pipe
    operations can complete take one step, downstream first.
  - Each pipeline keeps an invariant `Valid(ticks)`: every unit has handled
    `Filled(ticks - d, n)` flits, where d is its distance from the source.
    So no unit is ever blocked while it still has work, and after n + 2
    ticks (single-stage) or n + 3 ticks (two-stage) the output buffer is
    complete.
  - `HostProgram` puts everything together.

The headline results:

- `Kernels.TwoStageEquivalence`: B fed by A writes exactly the flits that
  prefixSumSimple writes.
- `Kernels.SimpleStreamCorrect`: flattened, those flits are the prefix sums
  of the input elements.
- `Pipeline.HostProgram`: whichever pipeline runs, the host check passes,
  and the output buffer, flattened, is `PrefixSums(input)`.

## Model

| member | source | states |
|---|---|---|
| Stream.Add | main.cpp:34 | `uint64_t` addition: the result is (a + b) mod 2^64 |
| Stream.Zeros | main.cpp:219 | a cleared flit: w lanes, every lane 0 |
| Stream.Scan | main.cpp:95-99 | the lanes of the unrolled loop: lane i is the seed plus the sum of lanes 0..i, and there are as many lanes as inputs |
| Stream.PrefixSums | main.cpp:66-69 | the intended output stream: element i is the sum of input elements 0..i |
| Stream.Sum | main.cpp:125-131 | adding `uint64_t` values one at a time from the left, as A's lane loop does: however often the running total wraps, the result is the true integer sum modulo 2^64 |
| Stream.Flatten | main.cpp:217-219 | the elements of a flit stream, flit after flit and lane after lane (a definition without a contract of its own; FlattenAt and FlattenUpdate state how it matches the packing loop) |
| Stream.SumAppend | main.cpp:105-113 | the sum of a concatenation is the sum of the sums of the parts, modulo 2^64 (why splitting the sum across A and B is sound) |
| Stream.ScanAppend | main.cpp:87-99 | scanning a concatenation: the second part continues from the total the first part ends with, as the carried `prefixSum` does across flits |
| Stream.FlattenAt | main.cpp:217-219 | element i of a stream of W-lane flits is lane i % W of flit i / W |
| Stream.FlattenUpdate | main.cpp:218-219 | storing at lane i % W of flit i / W stores at element i and nothing else, and keeps every flit W lanes wide |
| Stream.RunningTotal | main.cpp:308-311 | the value the host check expects at flit k, lane j: the total carried over all earlier whole flits plus lanes 0..j of flit k |
| Stream.RunningTotalFlat | main.cpp:307-318 | what the host check expects at flit k, lane j is the reference prefix sum at that element's flat position |
| Stream.SumExtend | main.cpp:310-311 | one more lane adds that lane to the host's running sum |
| Pipes.Channel.constructor | main.cpp:53-64 | a pipe of the given depth starts empty, with empty histories |
| Pipes.Channel.Write | main.cpp:49-58 | a write that does not block queues the value behind everything written before and keeps the FIFO invariant |
| Pipes.Channel.Read | main.cpp:49-58 | a read that does not block returns the oldest buffered value, which is the n-th value ever written, and removes it |
| Kernels.SimpleStream | main.cpp:86-103 | prefixSumSimple's output over a whole stream from a carried `prefixSum`: one output flit per input flit, each as wide as its input flit |
| Kernels.BStream | main.cpp:138-162 | prefixSumB's output over a whole stream from a carried `sumSoFar`: one output flit per flit read, each as wide as that flit |
| Kernels.TwoStageStream | main.cpp:258-268 | the output of the `#else` pipeline, B fed by A: one output flit per input flit, each as wide as its input flit |
| Kernels.PartialSums | main.cpp:124-133 | A's sum-pipe stream: entry k is the lane sum of flit k |
| Kernels.PartialSumsAppend | main.cpp:120-136 | A works flit by flit: the partial sums of a concatenation are those of the parts |
| Kernels.SimpleStreamSnoc | main.cpp:86-103 | one more input flit makes prefixSumSimple write one more flit, its scan seeded with everything summed before |
| Kernels.BStreamSnoc | main.cpp:138-162 | one more flit and partial sum make prefixSumB write one more flit, its scan seeded with the partial sums read before |
| Kernels.SumOfPartialSums | main.cpp:140-159 | the partial sums B accumulates in `sumSoFar` add up to the sum of every element read |
| Kernels.TwoStageMatchesSimple | main.cpp:86-162 | from any common carried state, B fed with A's partial sums writes exactly the flits prefixSumSimple writes |
| Kernels.TwoStageEquivalence | main.cpp:252-268 | the two pipelines selected by the `#if` write identical output streams from their initial state |
| Kernels.SimpleStreamCorrect | main.cpp:66-103 | flattened, prefixSumSimple's output is the running sum of its flattened input |
| Kernels.SimpleStreamFlit | main.cpp:87-101 | output flit k is input flit k scanned from the sum of all earlier flits |
| Kernels.SimpleStreamUniform | main.cpp:92-98 | output flits are as wide as input flits |
| Kernels.SimpleStreamAt | main.cpp:307-318 | every output lane holds what the host check compares it with |
| Kernels.PrefixSumSimple.constructor | main.cpp:86-87 | the kernel is wired to two distinct valid pipes and its carried `prefixSum` starts at 0 |
| Kernels.PrefixSumSimple.Step | main.cpp:90-102 | one iteration reads one flit, writes its scan seeded with `prefixSum`, and advances `prefixSum` by the flit's sum; the pipes change only by that read and write |
| Kernels.PrefixSumA.constructor | main.cpp:120-123 | A is wired to its three pipes, which must be valid and whose entry and data pipes are distinct; it keeps no state |
| Kernels.PrefixSumA.Step | main.cpp:123-135 | one iteration reads one flit, writes its lane sum to the sum pipe and the unchanged flit to the data pipe |
| Kernels.PrefixSumB.constructor | main.cpp:138-140 | B is wired to its three valid pipes, its data and exit pipes distinct, and its carried `sumSoFar` starts at 0 |
| Kernels.PrefixSumB.Step | main.cpp:143-161 | one iteration reads one flit and one partial sum, writes the flit's scan seeded with `sumSoFar`, and adds the partial sum to `sumSoFar` |
| Host.PackStream | main.cpp:213-220 | the two host buffers are fresh and distinct, with (input length) / W flits of W lanes; flattened, the input buffer is the input and the output buffer is all zeros |
| Host.FillBuffers | main.cpp:217-220 | the element loop leaves the input buffer holding the input and the output buffer cleared, element by element |
| Host.StoreElement | main.cpp:218-219 | one assignment of the loop changes element i of the flattened buffer and nothing else |
| Host.HostCheck | main.cpp:307-318 | the check succeeds if and only if every output lane equals the running total of the input up to that lane; it fails at the first difference |
| Host.TestInput | main.cpp:211-218 | the program's test stream: 2^24 elements, element i holding the value i |
| Host.TriangleSum | main.cpp:217-218 | the first i + 1 elements of the test stream add up to the triangular number i * (i + 1) / 2 |
| Host.TestPrefixSum | main.cpp:307-318 | the prefix sum the host check expects at element i of the test stream is i * (i + 1) / 2 modulo 2^64 |
| Host.Source.constructor | main.cpp:273-276 | the source reads the input buffer into the entry pipe, starting at flit 0 |
| Host.Source.Step | main.cpp:276-279 | one iteration writes the next buffer flit to the entry pipe |
| Host.Sink.Step | main.cpp:242-245 | one iteration reads the exit pipe into the next output buffer slot and changes no other slot |
| Host.Sink.constructor | main.cpp:239-242 | the sink writes the exit pipe into the output buffer, starting at flit 0 |
| Pipeline.FifoPairing | main.cpp:133-134 | because A writes a partial sum beside each flit and B reads one of each, what B has read and what still waits pair up exactly |
| Pipeline.SimplePipeline.constructor | main.cpp:236-281 | launching the single-stage pipeline: fresh pipes declared with depth 4 and units wired source, kernel, sink; no flit has moved |
| Pipeline.SimplePipeline.SinkPhase | main.cpp:242-245 | the sink's turn in a tick: it takes the flit waiting in the exit pipe, if any, so that it has caught up with the kernel |
| Pipeline.SimplePipeline.KernelPhase | main.cpp:90-102 | the kernel's turn in a tick: it handles the flit waiting in the entry pipe, if any, so that it has caught up with the source |
| Pipeline.SimplePipeline.KernelFire | main.cpp:90-102 | one iteration of prefixSumSimple keeps the pipeline invariant: its output is SimpleStream of what it read, and `prefixSum` is the sum of every element read |
| Pipeline.SimplePipeline.SourcePhase | main.cpp:276-279 | the source's turn in a tick: it sends the next buffer flit, if any is left |
| Pipeline.SimplePipeline.AtMostOneInFlight | main.cpp:53-58 | under the downstream-first schedule no pipe holds more than one flit between ticks, so the declared depth is never approached |
| Pipeline.SimplePipeline.Tick | main.cpp:238-281 | one tick keeps every pipe's FIFO invariant and the stream contents, and moves every unit one flit on until the stream is through |
| Pipeline.SimplePipeline.Done | main.cpp:283-284 | once the stream is through, the output buffer holds prefixSumSimple's whole output |
| Pipeline.RunSimple | main.cpp:236-284 | the single-stage pipeline finishes in n + 2 ticks (no deadlock), leaving prefixSumSimple's output stream in the output buffer |
| Pipeline.TwoStagePipeline.constructor | main.cpp:236-281 | launching the two-stage pipeline: four fresh pipes declared with depth 4, nothing moved |
| Pipeline.TwoStagePipeline.SinkPhase | main.cpp:242-245 | the sink's turn in a tick: it takes the flit waiting in the exit pipe, if any, so that it has caught up with B |
| Pipeline.TwoStagePipeline.BPhase | main.cpp:143-161 | B's turn in a tick: it handles the flit and partial sum waiting for it, if any, so that it has caught up with A |
| Pipeline.TwoStagePipeline.APhase | main.cpp:123-135 | A's turn in a tick: it handles the flit waiting in the entry pipe, if any, so that it has caught up with the source |
| Pipeline.TwoStagePipeline.SourcePhase | main.cpp:276-279 | the source's turn in a tick: it sends the next buffer flit, if any is left |
| Pipeline.TwoStagePipeline.AtMostOneInFlight | main.cpp:53-64 | under the downstream-first schedule none of the four pipes holds more than one value between ticks, so the declared depth is never approached |
| Pipeline.TwoStagePipeline.CarriedSumsAgree | main.cpp:140-159 | B's carried `sumSoFar` is the sum of every element it has read, which is what prefixSumSimple carries in `prefixSum` after the same flits |
| Pipeline.TwoStagePipeline.AFire | main.cpp:120-136 | one iteration of A keeps the pipeline invariant: the data pipe carries the flits read, the sum pipe their partial sums |
| Pipeline.TwoStagePipeline.BFire | main.cpp:138-162 | one iteration of B keeps the pipeline invariant: its output is BStream of what it read, and `sumSoFar` is the sum of the partial sums it read |
| Pipeline.TwoStagePipeline.Tick | main.cpp:238-281 | one tick keeps the pipeline invariant and moves every unit one flit on until the stream is through |
| Pipeline.TwoStagePipeline.Done | main.cpp:283-284 | once the stream is through, the output buffer holds B's whole output stream |
| Pipeline.RunTwoStage | main.cpp:236-284 | the two-stage pipeline finishes in n + 3 ticks (no deadlock), leaving the two-stage output stream in the output buffer |
| Pipeline.StreamMatchesTotals | main.cpp:307-318 | the output of either pipeline has W-lane flits and matches the host's running total at every flit and lane |
| Pipeline.HostProgram | main.cpp:169-327 | for any input of whole flits, with either pipeline, the host check passes and the flattened output buffer is the prefix sum of the input |
| Pipeline.TestProgram | main.cpp:169-327 | the program as built (2^24 elements holding 0, 1, 2, ..., flits of StreamWidth = 8 lanes): with either pipeline the check passes and output element i is i * (i + 1) / 2 modulo 2^64 |

## Left out

- SYCL set-up, device selection, the exception handler, events, profiling,
  the timing and bandwidth printouts and the commented-out debug printing:
  none of these affect the data.
- FPGA attributes (`initiation_interval`, `#pragma unroll`) are scheduling
  hints. The lane loops are modelled as ordinary loops.
- The `double` and `uint16_t` element types are left out. Only `uint64_t` is
  modelled, so `StreamWidth` is 8; the kernels and pipelines take the width
  W as a parameter.
- Concurrency: the kernels run as a sequential interleaving in fixed ticks.
  One iteration of a kernel is atomic, and a kernel takes its step only when
  every pipe operation of the iteration can complete. A kernel blocked
  half-way through an iteration is not modelled. Under this schedule no
  unit is ever blocked while it has work, and no pipe ever holds more than
  one value, whatever its depth; schedules in which kernels run ahead and
  fill a pipe to its depth of 4 are not explored.
- The endless kernel loops run for a bounded number of ticks: n + 2 or
  n + 3, enough for the whole stream to be through.
- The compile-time `#if 0` choice between the pipelines is the `twoStage`
  parameter of `HostProgram`.
- `HostProgram` takes the stream length as a parameter, any multiple of W;
  `TestProgram` instantiates it with the program's 2^24 elements and
  W = StreamWidth.
- The host buffers are allocated with twice the flits the stream needs, and
  only the first half is ever read or written. The model allocates exactly
  the flits the stream needs.
- The source, sink and host-check loops step an element offset by W and
  index flit offset / W. The model iterates the flit index directly.
- The program fills element i with the value i (`TestInput`).
  `HostProgram` takes any input stream of whole flits, which includes that
  one.
- Host.PackStream: a stream length that is not a multiple of W is required
  away. The program's length is a multiple of W.
- The host's "Sum incorrect" message and exit status 1 become
  `HostCheck` returning false.
