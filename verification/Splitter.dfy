/**
 * Cutting a stream into blocks (newAsyncDataSplitter in client/datastor/pipeline/async_splitter.go): each
 * successful read makes one block, and the read that ends the stream makes none, whatever it carries.
 */
module Splitter {
  import opened Lists
  import opened Metatypes

  datatype End = More | Eof | Broken

  /** What one call of the reader returns: bytes, and possibly the end of the stream or an error. */
  datatype Reading = Reading(bytes: Bytes, end: End)

  /** What a reader promises: it fills at most the buffer it is given, and comes to an end. */
  ghost predicate Reads(stream: seq<Reading>, chunkSize: nat) {
    (forall i :: 0 <= i < |stream| ==> |stream[i].bytes| <= chunkSize) && Ending(stream) < |stream|
  }

  /** The first read that ends the stream, or |stream|. */
  function Ending(stream: seq<Reading>): (e: nat)
    ensures e <= |stream| && (e < |stream| ==> !stream[e].end.More?)
    ensures forall i :: 0 <= i < e ==> stream[i].end.More?
  {
    if stream == [] || !stream[0].end.More? then 0 else 1 + Ending(stream[1..])
  }

  /** All bytes the reader handed over. */
  function Delivered(stream: seq<Reading>): Bytes {
    if stream == [] then [] else stream[0].bytes + if stream[0].end.More? then Delivered(stream[1..]) else []
  }

  /** What the splitter passes on: the blocks, and whether it returns an error. */
  datatype Passed = Passed(blocks: seq<Bytes>, failing: bool)

  function Cut(stream: seq<Reading>): Passed
    requires Ending(stream) < |stream|
  {
    var e := Ending(stream);
    Passed(seq(e, i requires 0 <= i < e => stream[i].bytes), stream[e].end.Broken?)
  }

  lemma {:induction false} EndingAt(stream: seq<Reading>, e: nat)
    requires e < |stream| && !stream[e].end.More? && forall i :: 0 <= i < e ==> stream[i].end.More?
    ensures Ending(stream) == e
  {
    if e > 0 {
      EndingAt(stream[1..], e - 1);
    }
  }

  /** The loop of the splitter, which reads into the same buffer every time and copies what it got. */
  method SplitStream(stream: seq<Reading>, chunkSize: nat) returns (blocks: seq<Bytes>, failing: bool)
    requires chunkSize >= 1 && Reads(stream, chunkSize)
    ensures Passed(blocks, failing) == Cut(stream)
    ensures failing <==> stream[Ending(stream)].end.Broken?
    ensures forall i :: 0 <= i < |blocks| ==> |blocks[i]| <= chunkSize
  {
    var index := 0;
    var buf := new Byte[chunkSize](_ => 0);
    blocks := [];
    while true
      invariant index == |blocks| <= Ending(stream)
      invariant forall i :: 0 <= i < index ==> blocks[i] == stream[i].bytes && stream[i].end.More?
      decreases |stream| - index
    {
      var n, end := |stream[index].bytes|, stream[index].end;
      CopyAt(buf, 0, stream[index].bytes);
      if !end.More? {
        EndingAt(stream, index);
        return blocks, end.Broken?;
      }
      var data := buf[..n];
      assert data == stream[index].bytes;
      blocks := blocks + [data];
      index := index + 1;
    }
  }

  lemma {:induction false} CutDelivers(stream: seq<Reading>)
    requires Ending(stream) < |stream|
    ensures Delivered(stream) == Concat(Cut(stream).blocks) + stream[Ending(stream)].bytes
  {
    if stream[0].end.More? {
      var rest := stream[1..];
      CutDelivers(rest);
      assert Cut(stream).blocks == [stream[0].bytes] + Cut(rest).blocks;
      assert (([stream[0].bytes]) + Cut(rest).blocks)[1..] == Cut(rest).blocks;
      assert stream[0].bytes + (Concat(Cut(rest).blocks) + stream[Ending(stream)].bytes)
          == stream[0].bytes + Concat(Cut(rest).blocks) + stream[Ending(stream)].bytes;
    }
  }

  /** The blocks are all that was handed over if and only if the read that ended the stream carried nothing. */
  lemma {:induction false} SplitterKeepsAllIff(stream: seq<Reading>)
    requires Ending(stream) < |stream|
    ensures Concat(Cut(stream).blocks) == Delivered(stream) <==> stream[Ending(stream)].bytes == []
  {
    CutDelivers(stream);
    var kept, lost := Concat(Cut(stream).blocks), stream[Ending(stream)].bytes;
    assert |kept + lost| == |kept| + |lost|;
  }

  /** A whole stream that comes in one read, together with its end, is lost without an error. */
  lemma StreamCanVanish(data: Bytes)
    requires data != []
    ensures
      var stream := [Reading(data, Eof)];
      Ending(stream) < |stream| && Cut(stream) == Passed([], false) && Delivered(stream) == data
  {
    var stream := [Reading(data, Eof)];
    EndingAt(stream, 0);
  }
}
