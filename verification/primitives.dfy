/**
 * Fixed-width integers, digests, TAI64 labels, block headers and blocks, and the
 * error values the adapters return.
 */
module Primitives {

  const U32_MAX: nat := 0xFFFF_FFFF
  const U64_MAX: nat := 0xFFFF_FFFF_FFFF_FFFF

  /** Rust's `u32` and `u64`: unbounded naturals restricted to their range. */
  type u32 = x: nat | x <= U32_MAX
  type u64 = x: nat | x <= U64_MAX

  /** `Bytes32`: a 32-byte digest. */
  type Bytes32 = s: seq<bv8> | |s| == 32 witness ZERO_BYTES

  const ZERO_BYTES: seq<bv8> := [0, 0, 0, 0, 0, 0, 0, 0, 0, 0, 0, 0, 0, 0, 0, 0,
                                  0, 0, 0, 0, 0, 0, 0, 0, 0, 0, 0, 0, 0, 0, 0, 0]

  /** `Bytes32::zeroed()`. */
  const ZERO_DIGEST: Bytes32 := ZERO_BYTES

  /** A TAI64 label: seconds since 1970-01-01 TAI, offset by 2^62. */
  type Tai64 = u64

  /**
   * `Tai64::UNIX_EPOCH`: the label of 1970-01-01T00:00:00 UTC, which is
   * 1970-01-01T00:00:10 TAI, i.e. 2^62 + 10. It is not the label `Tai64(0)`.
   */
  const UNIX_EPOCH: Tai64 := 0x4000_0000_0000_000A

  /** `u64::saturating_add`. */
  function SatAdd(a: u64, b: u64): (r: u64)
    ensures r <= a + b
    ensures r == a + b || r == U64_MAX
    ensures a <= r && b <= r
  {
    if a + b <= U64_MAX then a + b else U64_MAX
  }

  /** An exact natural clamped into `u64`: the value a saturating computation reaches. */
  function Clamp(x: nat): (r: u64)
    ensures r <= x
    ensures r == x || r == U64_MAX
  {
    if x <= U64_MAX then x else U64_MAX
  }

  /** The DA (data-availability) height: a height on the foreign ledger. */
  type DaHeight = u64

  /** `BlockHeight` is a `u32`. */
  type BlockHeight = u32

  /** Transaction identifiers are 32-byte digests. */
  type TxId = Bytes32

  /** A transaction in its serialized form; its contents are not interpreted here. */
  type Transaction = seq<bv8>

  /** The header fields this model reads. */
  datatype BlockHeader = BlockHeader(
    previousRoot: Bytes32,
    time: Tai64,
    height: BlockHeight,
    daHeight: DaHeight)

  /** A stored block: its header and the ids of its transactions, in block order. */
  datatype CompressedBlock = CompressedBlock(header: BlockHeader, transactionIds: seq<TxId>)

  /** A full block: its header and its materialized transactions. */
  datatype Block = Block(header: BlockHeader, transactions: seq<Transaction>)

  /** `CompressedBlock::uncompress`: attach a transaction list to the header. */
  function Uncompress(b: CompressedBlock, transactions: seq<Transaction>): Block
  {
    Block(b.header, transactions)
  }

  /** The storage tables the adapters read. */
  datatype TableName =
    | FuelBlocks
    | Transactions
    | ConsensusParametersVersions
    | StateTransitionBytecodeVersions
    | EventsHistory

  /** `StorageError`: a missing entry (`not_found!(Table)`), or a failed read. */
  datatype StorageError = NotFound(table: TableName) | ReadFailure(table: TableName)

  /** `anyhow::Error`: a message, a converted storage error, or a failed relayer wait. */
  datatype AnyError = Anyhow(text: string) | Storage(cause: StorageError) | RelayerSyncFailed
}
