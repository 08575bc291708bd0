/** The growing byte buffer both encoders write into. */
module Buffers {
  import opened Types

  type Bytes = seq<Byte>

  /** Text whose characters are single bytes, as its bytes. */
  function AsBytes(text: string): (b: Bytes)
    requires forall i :: 0 <= i < |text| ==> text[i] < '\U{80}'
    ensures |b| == |text|
  {
    seq(|text|, i requires 0 <= i < |text| => text[i] as int)
  }

  class Buffer {
    var bytes: Bytes

    constructor ()
      ensures bytes == []
    {
      bytes := [];
    }

    method Push(b: Byte)
      modifies this
      ensures bytes == old(bytes) + [b]
    {
      bytes := bytes + [b];
    }

    method Extend(more: Bytes)
      modifies this
      ensures bytes == old(bytes) + more
    {
      bytes := bytes + more;
    }
  }
}
