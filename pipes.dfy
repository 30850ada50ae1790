/** The pipes that connect the kernels: bounded single-producer,
    single-consumer FIFOs declared with a fixed depth. */
module Pipes {

  /** The depth every pipe of the design is declared with. */
  const DefaultPipeDepth: nat := 4

  /** A bounded FIFO of `T`. `buf` holds what has been written and not yet
      read, oldest first. The ghost histories record every value ever
      written and ever read, so that the FIFO discipline can be stated:
      what has been read followed by what is buffered is exactly what has
      been written, and the buffer never holds more than `depth` values.

      The blocking of a read on an empty pipe and of a write on a full one is
      not a state of the pipe: a kernel whose pipe operations cannot complete
      does not take its step in that tick (see the pipelines' `Tick`). */
  class Channel<T> {
    const depth: nat
    var buf: seq<T>
    ghost var written: seq<T>
    ghost var taken: seq<T>

    ghost predicate Valid()
      reads this
    {
      1 <= depth && |buf| <= depth && written == taken + buf
    }

    constructor (depth: nat)
      requires 1 <= depth
      ensures Valid() && this.depth == depth
      ensures buf == [] && written == [] && taken == []
    {
      this.depth := depth;
      buf, written, taken := [], [], [];
    }

    /** A write would block. */
    predicate Full()
      reads this
    {
      |buf| >= depth
    }

    /** A read would block. */
    predicate Empty()
      reads this
    {
      buf == []
    }

    /** One `write`: the value is queued behind everything written before. */
    method Write(x: T)
      requires Valid() && !Full()
      modifies this
      ensures Valid()
      ensures buf == old(buf) + [x]
      ensures written == old(written) + [x] && taken == old(taken)
    {
      buf := buf + [x];
      written := written + [x];
    }

    /** One `read`: the n-th read returns the n-th value written. */
    method Read() returns (x: T)
      requires Valid() && !Empty()
      modifies this
      ensures Valid()
      ensures x == old(buf)[0] && buf == old(buf)[1..]
      ensures taken == old(taken) + [x] && written == old(written)
      ensures x == written[|old(taken)|]
    {
      x := buf[0];
      buf := buf[1..];
      taken := taken + [x];
    }
  }
}
