/** Queues, files and locations: the vocabulary shared by the whole log engine. */
module PipeLog {

  datatype LogQueue = AppendQueue | RewriteQueue

  /** Sequence number of a log file, unique and increasing within one queue. */
  type FileSeq = nat

  datatype FileId = FileId(queue: LogQueue, seqno: FileSeq)

  /** A chunk of bytes in a log file. */
  datatype FileBlockHandle = FileBlockHandle(id: FileId, offset: nat, len: nat)

  datatype CompressionType = NoCompression | Lz4

  /** Where the bytes of one log entry are: a block, and a slice of the unfolded block. */
  datatype Location = Location(block: FileBlockHandle, compression: CompressionType,
                               entryOffset: nat, entryLen: nat)
  {
    function Queue(): LogQueue { block.id.queue }
    function Seq(): FileSeq { block.id.seqno }
  }

  /** A location together with the log index of the entry it holds. */
  datatype EntryIndex = EntryIndex(index: nat, loc: Location)

  datatype Option<+T> = None | Some(value: T)

  /** Log indexes in one batch are consecutive. */
  predicate Consecutive(es: seq<EntryIndex>) {
    forall k :: 0 <= k < |es| ==> es[k].index == es[0].index + k
  }

  /** Every entry of `es` sits in file `id`. */
  predicate AllIn(es: seq<EntryIndex>, id: FileId) {
    forall k :: 0 <= k < |es| ==> es[k].loc.block.id == id
  }

  function Locations(es: seq<EntryIndex>): (ls: seq<Location>)
    ensures |ls| == |es|
    ensures forall k :: 0 <= k < |es| ==> ls[k] == es[k].loc
  {
    seq(|es|, k requires 0 <= k < |es| => es[k].loc)
  }
}
