/** Bytes and concatenation of blocks of bytes. */
module Bytes {

  newtype byte = b: int | 0 <= b < 256

  function Flatten(blocks: seq<seq<byte>>): (r: seq<byte>) {
    if blocks == [] then [] else blocks[0] + Flatten(blocks[1..])
  }

  lemma {:induction false} FlattenAppend(blocks: seq<seq<byte>>, last: seq<byte>)
    ensures Flatten(blocks + [last]) == Flatten(blocks) + last
  {
    if blocks == [] {
      assert blocks + [last] == [last];
      assert Flatten([last]) == last + Flatten([]);
    } else {
      FlattenAppend(blocks[1..], last);
      assert (blocks + [last])[1..] == blocks[1..] + [last];
      assert blocks[0] + (Flatten(blocks[1..]) + last) == blocks[0] + Flatten(blocks[1..]) + last;
    }
  }
}
