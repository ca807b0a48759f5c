/** Bytes, options and the metadata types shared by the client's modules. */
module Metatypes {
  type Byte = b: int | 0 <= b < 256

  type Bytes = seq<Byte>

  datatype Option<+T> = None | Some(value: T)

  /** The ways a chunk operation can fail. */
  datatype StorageError = UnexpectedObjectCount | ShardsUnavailable | CodingFailed

  datatype Result<+T> = Success(value: T) | Failure(error: StorageError)

  /** An object, addressed by the shard it is stored on and the key that shard gave it. */
  datatype Object = Object(key: Bytes, shard: Bytes)

  /** Where and how a chunk of data is stored. */
  datatype ChunkConfig = ChunkConfig(size: int, objects: seq<Object>)

  datatype Chunk = Chunk(size: int, objects: seq<Object>, hash: Bytes) {
    function Config(): ChunkConfig { ChunkConfig(size, objects) }
  }

  datatype Metadata = Metadata(
    key: Bytes, size: int, creationEpoch: int, lastWriteEpoch: int,
    chunks: seq<Chunk>, previousKey: Bytes, nextKey: Bytes)

  const NO_OBJECT := Object([], [])
  const NO_CHUNK := Chunk(0, [], [])
  const NO_METADATA := Metadata([], 0, 0, 0, [], [], [])

  /** What a chunk check reports; the order is from worst to best. */
  datatype CheckStatus = Invalid | Valid | Optimal {
    function Rank(): nat {
      match this case Invalid => 0 case Valid => 1 case Optimal => 2
    }
  }

  /** The number whose digits to base 256 these are, the lowest first. */
  function FromDigits(bytes: Bytes): nat { if bytes == [] then 0 else bytes[0] + 256 * FromDigits(bytes[1..]) }

  function Concat(blocks: seq<Bytes>): Bytes {
    if blocks == [] then [] else blocks[0] + Concat(blocks[1..])
  }

  lemma {:induction false} ConcatAppend(a: seq<Bytes>, b: seq<Bytes>)
    ensures Concat(a + b) == Concat(a) + Concat(b)
  {
    if a == [] {
      assert a + b == b;
    } else {
      assert (a + b)[1..] == a[1..] + b;
      ConcatAppend(a[1..], b);
    }
  }
}
