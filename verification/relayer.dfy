/**
 * `MaybeRelayerAdapter`: the block producer's view of the data-availability relayer,
 * present when the node is built with the relayer feature and absent otherwise.
 */
module RelayerAdapter {
  import opened Wrappers
  import opened Primitives
  import opened Storage

  /** A relayed event and the gas it costs: a bridged message or a forced transaction. */
  datatype Event = Message(cost: u64) | Transaction(cost: u64)

  /** `RelayerBlockInfo`: the cost and transaction count of one DA height. */
  datatype RelayerBlockInfo = RelayerBlockInfo(gasCost: u64, txCount: u64)

  /** The relayer's sync handle: whether the wait fails, and the finalized DA height it then reports. */
  datatype SyncHandle = SyncHandle(awaitFails: bool, finalizedDaHeight: DaHeight)

  /** Relayer events stored per DA height. */
  type RelayerDatabase = Table<DaHeight, seq<Event>>

  /**
   * The compile-time `relayer` feature and the optional `relayer_synced` handle:
   * no feature, the feature without a sync handle, or the feature with one.
   */
  datatype MaybeRelayerAdapter =
    | NoFeature
    | FeatureNoSync(database: RelayerDatabase)
    | FeatureSynced(sync: SyncHandle, database: RelayerDatabase)

  const NO_RELAYER_MESSAGE: string := "Cannot have a da height above zero without a relayer"

  /** `relayer_database.get_events(height)`: no entry means no events at that height. */
  function GetEvents(db: RelayerDatabase, height: DaHeight): Result<seq<Event>, StorageError>
  {
    match Get(db, EventsHistory, height)
    case Err(e) => Err(e)
    case Ok(None) => Ok([])
    case Ok(Some(events)) => Ok(events)
  }

  // ---------------------------------------------------------------------------
  // The event fold and its reference definition

  const EMPTY_INFO: RelayerBlockInfo := RelayerBlockInfo(0, 0)

  /** One step of the fold: add the cost, count the event if it is a transaction. */
  function Step(acc: RelayerBlockInfo, e: Event): RelayerBlockInfo
  {
    RelayerBlockInfo(
      SatAdd(acc.gasCost, e.cost),
      match e
      case Message(_) => acc.txCount
      case Transaction(_) => SatAdd(acc.txCount, 1))
  }

  /** `events.iter().fold(acc, step)`, first event first. */
  function Fold(acc: RelayerBlockInfo, events: seq<Event>): RelayerBlockInfo
    decreases |events|
  {
    if events == [] then acc else Fold(Step(acc, events[0]), events[1..])
  }

  /** The exact (unbounded) sum of the costs. */
  function TotalCost(events: seq<Event>): nat
    decreases |events|
  {
    if events == [] then 0 else events[0].cost + TotalCost(events[1..])
  }

  /** The number of `Transaction` events. */
  function TransactionEvents(events: seq<Event>): nat
    decreases |events|
  {
    if events == [] then 0
    else (if events[0].Transaction? then 1 else 0) + TransactionEvents(events[1..])
  }

  /** Folding clamps the exact totals into `u64`: saturation never wraps and never loses order. */
  lemma {:induction false} FoldIsClampedTotal(acc: RelayerBlockInfo, events: seq<Event>)
    ensures Fold(acc, events) ==
      RelayerBlockInfo(Clamp(acc.gasCost + TotalCost(events)), Clamp(acc.txCount + TransactionEvents(events)))
    decreases |events|
  {
    if events != [] {
      FoldIsClampedTotal(Step(acc, events[0]), events[1..]);
    }
  }

  /** Folding one more event is one more step. */
  lemma {:induction false} FoldAppend(acc: RelayerBlockInfo, events: seq<Event>, e: Event)
    ensures Fold(acc, events + [e]) == Step(Fold(acc, events), e)
    decreases |events|
  {
    if events == [] {
      assert [e][1..] == [];
    } else {
      assert (events + [e])[1..] == events[1..] + [e];
      FoldAppend(Step(acc, events[0]), events[1..], e);
    }
  }

  /** A `Message` event adds its cost and leaves the count alone. */
  lemma MessageNotCounted(events: seq<Event>, cost: u64)
    ensures Fold(EMPTY_INFO, events + [Message(cost)]).txCount == Fold(EMPTY_INFO, events).txCount
    ensures Fold(EMPTY_INFO, events + [Message(cost)]).gasCost
      == SatAdd(Fold(EMPTY_INFO, events).gasCost, cost)
  {
    FoldAppend(EMPTY_INFO, events, Message(cost));
  }

  /** A `Transaction` event adds its cost and one to the count, both saturating. */
  lemma TransactionCounted(events: seq<Event>, cost: u64)
    ensures Fold(EMPTY_INFO, events + [Transaction(cost)]).txCount
      == SatAdd(Fold(EMPTY_INFO, events).txCount, 1)
    ensures Fold(EMPTY_INFO, events + [Transaction(cost)]).gasCost
      == SatAdd(Fold(EMPTY_INFO, events).gasCost, cost)
  {
    FoldAppend(EMPTY_INFO, events, Transaction(cost));
  }

  lemma {:induction false} TransactionEventsAtMostLength(events: seq<Event>)
    ensures TransactionEvents(events) <= |events|
    decreases |events|
  {
    if events != [] {
      TransactionEventsAtMostLength(events[1..]);
    }
  }

  lemma {:induction false} CostAtMostTotal(events: seq<Event>, i: nat)
    requires i < |events|
    ensures events[i].cost <= TotalCost(events)
    decreases |events|
  {
    if i > 0 {
      CostAtMostTotal(events[1..], i - 1);
    }
  }

  /** The folded cost bounds every single cost, and the count never exceeds the number of events. */
  lemma FoldBounds(events: seq<Event>)
    ensures forall i :: 0 <= i < |events| ==> events[i].cost <= Fold(EMPTY_INFO, events).gasCost
    ensures Fold(EMPTY_INFO, events).txCount <= |events|
  {
    FoldIsClampedTotal(EMPTY_INFO, events);
    TransactionEventsAtMostLength(events);
    forall i | 0 <= i < |events|
      ensures events[i].cost <= Fold(EMPTY_INFO, events).gasCost
    {
      CostAtMostTotal(events, i);
    }
  }

  // ---------------------------------------------------------------------------
  // The two relayer operations

  /**
   * `wait_for_at_least_height`. Without the feature only DA height zero is accepted,
   * and zero is returned; with the feature but no sync handle the request is echoed;
   * with a sync handle the wait's error is propagated or the finalized height returned.
   */
  function WaitForAtLeastHeight(relayer: MaybeRelayerAdapter, height: DaHeight): (r: Result<DaHeight, AnyError>)
    ensures relayer.NoFeature? ==> (r.Ok? <==> height == 0)
    ensures relayer.NoFeature? && r.Ok? ==> r.value == 0
    ensures relayer.NoFeature? && r.Err? ==> r.error == Anyhow(NO_RELAYER_MESSAGE)
    ensures relayer.FeatureNoSync? ==> r == Ok(height)
    ensures relayer.FeatureSynced? ==> (r.Ok? <==> !relayer.sync.awaitFails)
    ensures relayer.FeatureSynced? && r.Ok? ==> r.value == relayer.sync.finalizedDaHeight
    ensures relayer.FeatureSynced? && r.Err? ==> r.error == RelayerSyncFailed
  {
    match relayer
    case NoFeature =>
      if height == 0 then Ok(0) else Err(Anyhow(NO_RELAYER_MESSAGE))
    case FeatureNoSync(_) =>
      Ok(height)
    case FeatureSynced(sync, _) =>
      if sync.awaitFails then Err(RelayerSyncFailed) else Ok(sync.finalizedDaHeight)
  }

  /**
   * `get_cost_and_transactions_number_for_block`. Without the feature: zero info at DA
   * height zero and an error above it. With the feature: the events at that height,
   * folded into their clamped total cost and clamped transaction count.
   */
  function CostAndTransactionsNumberForBlock(relayer: MaybeRelayerAdapter, height: DaHeight)
    : (r: Result<RelayerBlockInfo, AnyError>)
    ensures relayer.NoFeature? ==> (r.Ok? <==> height == 0)
    ensures relayer.NoFeature? && r.Ok? ==> r.value == RelayerBlockInfo(0, 0)
    ensures relayer.NoFeature? && r.Err? ==> r.error == Anyhow(NO_RELAYER_MESSAGE)
    ensures !relayer.NoFeature? ==> (r.Ok? <==> GetEvents(relayer.database, height).Ok?)
    ensures !relayer.NoFeature? && r.Err? ==> r.error == Storage(GetEvents(relayer.database, height).error)
    ensures !relayer.NoFeature? && r.Ok? ==>
      var events := GetEvents(relayer.database, height).value;
      r.value == RelayerBlockInfo(Clamp(TotalCost(events)), Clamp(TransactionEvents(events)))
  {
    match relayer
    case NoFeature =>
      if height == 0 then Ok(RelayerBlockInfo(0, 0)) else Err(Anyhow(NO_RELAYER_MESSAGE))
    case _ =>
      match GetEvents(relayer.database, height)
      case Err(e) => Err(Storage(e))
      case Ok(events) =>
        FoldIsClampedTotal(EMPTY_INFO, events);
        Ok(Fold(EMPTY_INFO, events))
  }

  /** Without a relayer both operations accept exactly the same DA heights, namely zero. */
  lemma NoRelayerOperationsAgree(height: DaHeight)
    ensures WaitForAtLeastHeight(NoFeature, height).Ok?
      <==> CostAndTransactionsNumberForBlock(NoFeature, height).Ok?
  {
  }
}
