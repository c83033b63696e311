/**
 * The block producer's read-only view of committed chain storage
 * (`BlockProducerDatabase` over the on-chain view).
 */
module ProducerDatabase {
  import opened Wrappers
  import opened Primitives
  import opened Storage

  /** A serialized consensus-parameters set or state-transition bytecode; not interpreted here. */
  type Blob = seq<bv8>

  /** The tables of the view that the producer reads. */
  datatype View = View(
    blocks: OrderedTable<CompressedBlock>,
    transactions: Table<TxId, Transaction>,
    consensusParametersVersions: OrderedTable<Blob>,
    stateTransitionBytecodeVersions: OrderedTable<Blob>)

  /**
   * `latest_height`: the view's own latest-height lookup (the first item of a reverse
   * scan of the block table) with every error turned into `None`.
   */
  function LatestHeight(view: View): (r: Option<BlockHeight>)
    ensures r.None? <==> LatestKey(view.blocks, FuelBlocks).Err?
    ensures |view.blocks.entries| == 0 ==> r.None?
    ensures r.Some? && Ascending(view.blocks) ==> IsMaxKey(view.blocks, r.value)
  {
    match LatestKey(view.blocks, FuelBlocks)
    case Ok(h) => Some(h)
    case Err(_) => None
  }

  /** `get_block`: the stored compressed block, or not-found when there is none. */
  function GetBlock(view: View, height: BlockHeight): (r: Result<CompressedBlock, StorageError>)
    ensures r.Ok? <==> HasKey(view.blocks, height) && height !in view.blocks.corrupt
    ensures r.Ok? ==> exists i :: 0 <= i < |view.blocks.entries| && view.blocks.entries[i] == (height, r.value)
    ensures r.Err? && height !in view.blocks.corrupt ==> r.error == NotFound(FuelBlocks)
    ensures r.Err? && height in view.blocks.corrupt ==> r.error == ReadFailure(FuelBlocks)
  {
    match Lookup(view.blocks, FuelBlocks, height)
    case Err(e) => Err(e)
    case Ok(None) => Err(NotFound(FuelBlocks))
    case Ok(Some(b)) => Ok(b)
  }

  /** On a well-formed block table the block `GetBlock` returns is the one stored under `height`. */
  lemma GetBlockReturnsStored(view: View, height: BlockHeight, i: nat)
    requires Ascending(view.blocks)
    requires i < |view.blocks.entries| && view.blocks.entries[i].0 == height
    requires height !in view.blocks.corrupt
    ensures GetBlock(view, height) == Ok(view.blocks.entries[i].1)
  {
  }

  /** One id resolved against the transaction table: `get(id)?.ok_or(not_found!(Transactions))`. */
  function ResolveTransaction(txs: Table<TxId, Transaction>, id: TxId): Result<Transaction, StorageError>
  {
    match Get(txs, Transactions, id)
    case Err(e) => Err(e)
    case Ok(None) => Err(NotFound(Transactions))
    case Ok(Some(tx)) => Ok(tx)
  }

  /** Every id is stored and readable. */
  predicate AllResolve(txs: Table<TxId, Transaction>, ids: seq<TxId>)
  {
    forall i :: 0 <= i < |ids| ==> ids[i] in txs.entries && ids[i] !in txs.corrupt
  }

  /**
   * `ids.iter().map(resolve).collect::<Result<Vec<_>, _>>()`: all transactions, in id
   * order, or the error of the first id that does not resolve.
   */
  function CollectTransactions(txs: Table<TxId, Transaction>, ids: seq<TxId>)
    : (r: Result<seq<Transaction>, StorageError>)
    ensures r.Ok? <==> AllResolve(txs, ids)
    ensures r.Ok? ==> |r.value| == |ids| && forall i :: 0 <= i < |ids| ==> r.value[i] == txs.entries[ids[i]]
    ensures r.Err? ==>
      exists k :: 0 <= k < |ids| && ResolveTransaction(txs, ids[k]) == Err(r.error)
        && forall i :: 0 <= i < k ==> ResolveTransaction(txs, ids[i]).Ok?
    decreases |ids|
  {
    if ids == [] then Ok([])
    else
      match ResolveTransaction(txs, ids[0])
      case Err(e) => Err(e)
      case Ok(tx) =>
        match CollectTransactions(txs, ids[1..])
        case Err(e) =>
          ghost var k :| 0 <= k < |ids[1..]| && ResolveTransaction(txs, ids[1..][k]) == Err(e)
            && forall i :: 0 <= i < k ==> ResolveTransaction(txs, ids[1..][i]).Ok?;
          assert ResolveTransaction(txs, ids[k + 1]) == Err(e);
          Err(e)
        case Ok(rest) => Ok([tx] + rest)
  }

  /**
   * `get_full_block`: the block at `height` with every transaction id replaced by its
   * transaction, in the same order and under the same header; fails when the block is
   * absent or any id does not resolve.
   */
  function GetFullBlock(view: View, height: BlockHeight): (r: Result<Block, StorageError>)
    ensures GetBlock(view, height).Err? ==> r == Err(GetBlock(view, height).error)
    ensures r.Ok? <==>
      GetBlock(view, height).Ok? && AllResolve(view.transactions, GetBlock(view, height).value.transactionIds)
    ensures r.Ok? ==>
      var ids := GetBlock(view, height).value.transactionIds;
      && r.value.header == GetBlock(view, height).value.header
      && |r.value.transactions| == |ids|
      && forall i :: 0 <= i < |ids| ==> r.value.transactions[i] == view.transactions.entries[ids[i]]
    ensures GetBlock(view, height).Ok? && r.Err? ==>
      r == Err(CollectTransactions(view.transactions, GetBlock(view, height).value.transactionIds).error)
  {
    match GetBlock(view, height)
    case Err(e) => Err(e)
    case Ok(b) =>
      match CollectTransactions(view.transactions, b.transactionIds)
      case Err(e) => Err(e)
      case Ok(transactions) => Ok(Uncompress(b, transactions))
  }

  /** `latest_consensus_parameters_version`: the largest version, not-found on an empty index. */
  function LatestConsensusParametersVersion(view: View): (r: Result<u32, StorageError>)
    ensures r == Err(NotFound(ConsensusParametersVersions)) <==> |view.consensusParametersVersions.entries| == 0
    ensures r.Ok? && Ascending(view.consensusParametersVersions) ==>
      IsMaxKey(view.consensusParametersVersions, r.value)
    ensures r.Err? && |view.consensusParametersVersions.entries| > 0 ==>
      r == Err(ReadFailure(ConsensusParametersVersions)) && (Ascending(view.consensusParametersVersions) ==> exists k :: IsMaxKey(view.consensusParametersVersions, k) && k in view.consensusParametersVersions.corrupt)
    ensures forall k :: Ascending(view.consensusParametersVersions) && IsMaxKey(view.consensusParametersVersions, k) && k !in view.consensusParametersVersions.corrupt ==> r == Ok(k)
  {
    LatestKey(view.consensusParametersVersions, ConsensusParametersVersions)
  }

  /** `latest_state_transition_bytecode_version`: the largest version, not-found on an empty index. */
  function LatestStateTransitionBytecodeVersion(view: View): (r: Result<u32, StorageError>)
    ensures r == Err(NotFound(StateTransitionBytecodeVersions))
      <==> |view.stateTransitionBytecodeVersions.entries| == 0
    ensures r.Ok? && Ascending(view.stateTransitionBytecodeVersions) ==>
      IsMaxKey(view.stateTransitionBytecodeVersions, r.value)
    ensures r.Err? && |view.stateTransitionBytecodeVersions.entries| > 0 ==>
      r == Err(ReadFailure(StateTransitionBytecodeVersions)) && (Ascending(view.stateTransitionBytecodeVersions) ==> exists k :: IsMaxKey(view.stateTransitionBytecodeVersions, k) && k in view.stateTransitionBytecodeVersions.corrupt)
    ensures forall k :: Ascending(view.stateTransitionBytecodeVersions) && IsMaxKey(view.stateTransitionBytecodeVersions, k) && k !in view.stateTransitionBytecodeVersions.corrupt ==> r == Ok(k)
  {
    LatestKey(view.stateTransitionBytecodeVersions, StateTransitionBytecodeVersions)
  }
}
