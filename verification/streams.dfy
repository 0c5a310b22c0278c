/**
 * Bytes and byte streams: request and object bodies, and the chunks a
 * stream reader hands out one `read()` at a time.
 */
module Streams {

  /** Request and object bodies are byte sequences (a `Uint8Array`'s elements). */
  newtype byte = x: int | 0 <= x < 256

  /** The number of bytes in a run of chunks, counted chunk by chunk. */
  function TotalLength(chunks: seq<seq<byte>>): nat
  {
    if chunks == [] then 0 else TotalLength(chunks[..|chunks| - 1]) + |chunks[|chunks| - 1]|
  }

  /** The bytes of a stream, read chunk by chunk, in order; as many as the chunks hold together. */
  function Flatten(chunks: seq<seq<byte>>): (r: seq<byte>)
    ensures |r| == TotalLength(chunks)
    ensures |chunks| == 1 ==> r == chunks[0]
  {
    if chunks == [] then [] else Flatten(chunks[..|chunks| - 1]) + chunks[|chunks| - 1]
  }
}
