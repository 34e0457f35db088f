/**
 * The stream behind the meta-service export call: the exported lines are
 * handed out from the front in chunks of at most sixteen, and the stream
 * ends once nothing is left.
 */
module ExportStream {
  import opened Wrappers
  import opened Seqs

  /** The largest number of lines one poll hands out. */
  const ChunkSize: nat := 16

  /** The chunks the stream yields for 'data', in order; together they are 'data'. */
  function Chunks(data: seq<string>): (chunks: seq<seq<string>>)
    ensures Concat(chunks) == data
    decreases |data|
  {
    if |data| == 0 then []
    else
      var k := Min(ChunkSize, |data|);
      var rest := Chunks(data[k..]);
      assert ([data[..k]] + rest)[1..] == rest;
      assert data == data[..k] + data[k..];
      [data[..k]] + rest
  }

  /**
   * Every chunk holds between one and sixteen lines, every chunk but the
   * last exactly sixteen, and there are ceil(n / 16) of them.
   */
  lemma {:induction false} ChunkShape(data: seq<string>)
    ensures |Chunks(data)| == (|data| + ChunkSize - 1) / ChunkSize
    ensures forall i :: 0 <= i < |Chunks(data)| ==> 1 <= |Chunks(data)[i]| <= ChunkSize
    ensures forall i :: 0 <= i < |Chunks(data)| - 1 ==> |Chunks(data)[i]| == ChunkSize
    decreases |data|
  {
    if |data| > 0 {
      var k := Min(ChunkSize, |data|);
      ChunkShape(data[k..]);
      var chunks, rest := Chunks(data), Chunks(data[k..]);
      assert chunks == [data[..k]] + rest;
      if |data| <= ChunkSize {
        assert |data[k..]| == 0;
      } else {
        assert |data[k..]| + ChunkSize - 1 == |data| + ChunkSize - 1 - ChunkSize;
      }
    }
  }

  class ExportStream {
    var data: seq<string>

    constructor (data: seq<string>)
      ensures this.data == data
    {
      this.data := data;
    }

    /**
     * One poll: the end of the stream when no line is left, otherwise the
     * first min(16, n) lines, which leave the stream.
     */
    method PollNext() returns (item: Option<seq<string>>)
      modifies this
      ensures item.None? <==> |old(data)| == 0
      ensures item.None? ==> data == old(data)
      ensures item.Some? ==>
                var k := Min(ChunkSize, |old(data)|);
                1 <= k && item.value == old(data)[..k] && data == old(data)[k..]
      ensures item.Some? ==> |data| < |old(data)|
      ensures item.Some? ==> [item.value] + Chunks(data) == Chunks(old(data))
    {
      var l := |data|;
      if l == 0 {
        return None;
      }
      var chunkSize := Min(ChunkSize, l);
      item := Some(data[..chunkSize]);
      data := data[chunkSize..];
    }

    /**
     * The receiving side: polls until the end of the stream and collects
     * what each poll returned.
     */
    method Drain() returns (chunks: seq<seq<string>>)
      modifies this
      ensures chunks == Chunks(old(data))
      ensures Concat(chunks) == old(data)
      ensures data == []
    {
      chunks := [];
      ghost var all := Chunks(data);
      while true
        invariant chunks + Chunks(data) == all
        decreases |data|
      {
        ghost var before := Chunks(data);
        var item := PollNext();
        if item.None? {
          assert data == [];
          assert chunks + before == chunks;
          break;
        }
        assert chunks + before == (chunks + [item.value]) + Chunks(data);
        chunks := chunks + [item.value];
      }
    }
  }
}
