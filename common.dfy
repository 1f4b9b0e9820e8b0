/** Values shared by every engine of the file transfer: bytes, optional
    values, and the arithmetic on byte chunks that the upload and receive
    loops perform. */
module Common {

  /** One octet of file content. */
  newtype byte = x: int | 0 <= x < 256

  datatype Option<+T> = None | Some(value: T)

  function Min(a: int, b: int): (r: int)
    ensures r <= a && r <= b && (r == a || r == b)
  {
    if a <= b then a else b
  }

  function Max(a: int, b: int): (r: int)
    ensures r >= a && r >= b && (r == a || r == b)
  {
    if a >= b then a else b
  }

  /** The bytes of several chunks laid end to end. */
  function Concat(chunks: seq<seq<byte>>): seq<byte>
  {
    if chunks == [] then [] else chunks[0] + Concat(chunks[1..])
  }

  /** Total number of bytes in several chunks. */
  function TotalLength(chunks: seq<seq<byte>>): nat
  {
    if chunks == [] then 0 else |chunks[0]| + TotalLength(chunks[1..])
  }

  lemma {:induction false} ConcatLength(chunks: seq<seq<byte>>)
    ensures |Concat(chunks)| == TotalLength(chunks)
  {
    if chunks != [] {
      ConcatLength(chunks[1..]);
    }
  }

  lemma {:induction false} ConcatAppend(chunks: seq<seq<byte>>, c: seq<byte>)
    ensures Concat(chunks + [c]) == Concat(chunks) + c
    ensures TotalLength(chunks + [c]) == TotalLength(chunks) + |c|
  {
    if chunks == [] {
      assert chunks + [c] == [c];
    } else {
      assert (chunks + [c])[1..] == chunks[1..] + [c];
      ConcatAppend(chunks[1..], c);
    }
  }

  /** A file as the manifest describes it: name, size in bytes and media
      type (the JSON fields `Name`, `Size` and `Type`). */
  datatype Descriptor = Descriptor(name: string, size: nat, mediaType: string)

  /** Go's integer division truncates toward zero; Dafny's rounds toward
      minus infinity for a negative dividend, so it is written out. */
  function TruncDiv(a: int, b: int): (r: int)
    requires b > 0
    ensures a >= 0 ==> r == a / b
    ensures a < 0 ==> -r == (-a) / b
  {
    if a >= 0 then a / b else -((-a) / b)
  }

  /** JavaScript's `slice(start, end)` on a byte array: both ends are clamped
      to the array, and an empty range gives an empty array. */
  function Slice(data: seq<byte>, start: nat, end: nat): (r: seq<byte>)
    ensures |r| <= |data| && |r| <= if start <= end then end - start else 0
    ensures start <= end && start <= |data| ==> r == data[start..Min(end, |data|)]
    ensures start < |data| && start < end ==> |r| > 0
  {
    var lo := Min(start, |data|);
    var hi := Min(end, |data|);
    if lo <= hi then data[lo..hi] else []
  }
}
