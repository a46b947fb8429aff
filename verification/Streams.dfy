/** Byte sources that hand out their input in pieces of any size. */
module Streams {
  type Byte = b: int | 0 <= b < 256
  type Bytes = seq<Byte>

  /** A read callback over a fixed input.  A full one, such as a regular file, gives all that
      was asked for while there is enough. */
  class Source {
    var data: Bytes
    const full: bool

    constructor (input: Bytes, full: bool)
      ensures data == input && this.full == full
    {
      data := input;
      this.full := full;
    }

    /** Some of the next size bytes; nothing only at the end. */
    method Read(size: nat) returns (x: Bytes)
      requires size > 0
      modifies this
      ensures x + data == old(data) && |x| <= size
      ensures x == [] <==> old(data) == []
      ensures full && data != [] ==> |x| == size
    {
      var n := if size < |data| then size else |data|;
      if data != [] && !full { n :| 1 <= n <= |data| && n <= size; }
      x, data := data[..n], data[n..];
    }
  }
}
