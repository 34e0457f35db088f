/** Small sequence helpers shared by the queue and stream models. */
module Seqs {
  function Min(a: nat, b: nat): nat {
    if a <= b then a else b
  }

  /** The elements of 'parts' one after another. */
  function Concat<T>(parts: seq<seq<T>>): seq<T> {
    if |parts| == 0 then [] else parts[0] + Concat(parts[1..])
  }
}
