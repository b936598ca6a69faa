/**
  The discard writer behind the logger's disabled levels (nilwriter.go).
  `nilWriter` is a struct without fields, so the receiver carries no
  information and a write is a pure function of the buffer it is given.
*/
module NilWriter {
  import opened Wrappers

  type byte = x: int | 0 <= x < 256

  /** What a Go `io.Writer.Write` call returns: a byte count and an optional error. */
  datatype WriteResult = WriteResult(n: int, err: Option<string>)

  /**
    The `io.Writer` contract: the count lies in 0..len(p), and a count
    short of len(p) comes with an error.
  */
  predicate IsWriterResult(p: seq<byte>, r: WriteResult)
  {
    0 <= r.n <= |p| && (r.n < |p| ==> r.err.Some?)
  }

  /** `nilWriter.Write`: accepts and drops the whole buffer, reporting its full length and no error. */
  function Write(p: seq<byte>): (r: WriteResult)
    ensures r.n == |p|
    ensures r.err == None
  {
    WriteResult(|p|, None)
  }

  /** `nilWriter` is an `io.Writer`: every result, the empty buffer's included, meets the writer contract. */
  lemma WriteAcceptsAll(p: seq<byte>)
    ensures IsWriterResult(p, Write(p))
  {
  }

  /** The total count reported by writing each buffer of `ps` in turn. */
  function Reported(ps: seq<seq<byte>>): int
  {
    if ps == [] then 0 else Write(ps[0]).n + Reported(ps[1..])
  }

  /** True when no write of the sequence reports an error. */
  predicate NoErrors(ps: seq<seq<byte>>)
  {
    forall i :: 0 <= i < |ps| ==> Write(ps[i]).err == None
  }

  /** The buffers of `ps` laid end to end. */
  function Concat(ps: seq<seq<byte>>): seq<byte>
  {
    if ps == [] then [] else ps[0] + Concat(ps[1..])
  }

  /** The total of the buffers' lengths. */
  function SumLengths(ps: seq<seq<byte>>): nat
  {
    if ps == [] then 0 else |ps[0]| + SumLengths(ps[1..])
  }

  /**
    Over any sequence of writes the reported counts add up to the total
    length of the input, and writing the buffers one by one reports the
    same count as writing their concatenation in one call.
  */
  lemma {:induction false} ReportedIsTotalLength(ps: seq<seq<byte>>)
    ensures Reported(ps) == SumLengths(ps) == |Concat(ps)|
    ensures Reported(ps) == Write(Concat(ps)).n
  {
    if ps != [] {
      ReportedIsTotalLength(ps[1..]);
    }
  }

  /** No write in any sequence of writes reports an error. */
  lemma NeverFails(ps: seq<seq<byte>>)
    ensures NoErrors(ps)
  {
  }
}
