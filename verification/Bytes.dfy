/** Bytes and the concatenation of byte blocks. */
module Bytes {

  newtype byte = b: int | 0 <= b < 256

  function Flatten(parts: seq<seq<byte>>): seq<byte> {
    if parts == [] then [] else parts[0] + Flatten(parts[1..])
  }

  function Min(a: nat, b: nat): nat { if a < b then a else b }
  function Max(a: nat, b: nat): nat { if a < b then b else a }

  function Sum(sizes: seq<nat>): nat {
    if sizes == [] then 0 else sizes[0] + Sum(sizes[1..])
  }

  function Lengths(blocks: seq<seq<byte>>): (lens: seq<nat>)
    ensures |lens| == |blocks|
    ensures forall i :: 0 <= i < |blocks| ==> lens[i] == |blocks[i]|
  {
    seq(|blocks|, i requires 0 <= i < |blocks| => |blocks[i]|)
  }
}
