/** The growing and the shrinking buffer of the `bytes` crate, as far as the codecs use them. */
module Buffers {
  import opened Wrappers
  import opened Words

  /** `BytesMut`: numbers and slices are appended. */
  class Writer {
    var bytes: seq<byte>

    constructor ()
      ensures bytes == []
    {
      bytes := [];
    }

    method PutNumber(n: nat, width: nat)
      modifies this
      ensures bytes == old(bytes) + Put(n, width)
    {
      bytes := bytes + Put(n, width);
    }

    method PutSlice(b: seq<byte>)
      modifies this
      ensures bytes == old(bytes) + b
    {
      bytes := bytes + b;
    }
  }

  /** `Bytes`: numbers and slices are taken from the front; taking more than there is panics, here `None`. */
  class Reader {
    var bytes: seq<byte>

    constructor (bytes: seq<byte>)
      ensures this.bytes == bytes
    {
      this.bytes := bytes;
    }

    method GetNumber(width: nat) returns (n: Option<nat>)
      modifies this
      ensures n == Number(old(bytes), width)
      ensures bytes == if n.Some? then old(bytes)[width..] else old(bytes)
    {
      if |bytes| < width {
        return None;
      }
      n := Some(Get(bytes[..width]));
      bytes := bytes[width..];
    }

    method GetSlice(length: nat) returns (b: Option<seq<byte>>)
      modifies this
      ensures b.Some? <==> length <= |old(bytes)|
      ensures b.Some? ==> b.value == old(bytes)[..length] && bytes == old(bytes)[length..]
      ensures b.None? ==> bytes == old(bytes)
    {
      if |bytes| < length {
        return None;
      }
      b := Some(bytes[..length]);
      bytes := bytes[length..];
    }
  }

  function Number(b: seq<byte>, width: nat): (n: Option<nat>)
    ensures n.Some? ==> width <= |b| && n.value < Power256(width)
  {
    if |b| < width then None else GetBound(b[..width]); Some(Get(b[..width]))
  }

  /** What was appended first is read first. */
  lemma NumberFirst(n: nat, width: nat, rest: seq<byte>)
    requires n < Power256(width)
    ensures Number(Put(n, width) + rest, width) == Some(n)
    ensures (Put(n, width) + rest)[width..] == rest
  {
    assert (Put(n, width) + rest)[..width] == Put(n, width);
    GetPut(n, width);
  }
}
