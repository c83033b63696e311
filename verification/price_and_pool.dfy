/** `StaticGasPrice` and `TxPoolAdapter::get_source`. */
module PriceAndPool {
  import opened Wrappers
  import opened Primitives

  /** A gas-price provider configured with one fixed price. */
  datatype StaticGasPrice = StaticGasPrice(gasPrice: u64)

  /** `production_gas_price`. */
  function ProductionGasPrice(p: StaticGasPrice): Result<u64, AnyError>
  {
    Ok(p.gasPrice)
  }

  /** `dry_run_gas_price`. */
  function DryRunGasPrice(p: StaticGasPrice): Result<u64, AnyError>
  {
    Ok(p.gasPrice)
  }

  /** Both accessors succeed with the configured price. */
  lemma GasPricesAgree(p: StaticGasPrice)
    ensures ProductionGasPrice(p) == DryRunGasPrice(p) == Ok(p.gasPrice)
  {
  }

  /** A handle on the shared transaction-pool service; cloning it keeps its identity. */
  type PoolService = nat

  datatype TxPoolAdapter = TxPoolAdapter(service: PoolService)

  /** `TransactionsSource::new(gas_price, service)`. */
  datatype TransactionsSource = TransactionsSource(gasPrice: u64, service: PoolService)

  /** `get_source`: a source for the given price over the adapter's pool; the height is unused. */
  function GetSource(adapter: TxPoolAdapter, gasPrice: u64, height: BlockHeight): Result<TransactionsSource, AnyError>
  {
    Ok(TransactionsSource(gasPrice, adapter.service))
  }

  /** `get_source` never fails, passes the gas price through and ignores the height. */
  lemma GetSourceIgnoresHeight(adapter: TxPoolAdapter, gasPrice: u64, h1: BlockHeight, h2: BlockHeight)
    ensures GetSource(adapter, gasPrice, h1) == GetSource(adapter, gasPrice, h2)
    ensures GetSource(adapter, gasPrice, h1) == Ok(TransactionsSource(gasPrice, adapter.service))
  {
  }
}
