# Block-producer adapters and the genesis header verifier

This project models two pieces of a blockchain node's block-production core.

- **The block-producer adapters.** `producer.rs` is the glue between the generic block producer and the node.
  - The relayer adapter talks to the data-availability (DA) relayer. Without one, it degrades to a stub that accepts only DA height zero.
  - The relayer adapter folds the relayed events of one DA height into `RelayerBlockInfo { gas_cost, tx_count }`.
  - The read-only database view returns the latest height, single blocks, full blocks, and the latest consensus-parameters and state-transition-bytecode versions.
  - The static gas-price provider returns one fixed price.
  - The transaction-pool adapter returns a transaction source.
- **The genesis header verifier.** `verify_genesis_block_fields` accepts a genesis header only when all of these hold:
  - its previous root is the zero digest;
  - its time is `Tai64::UNIX_EPOCH`;
  - its height and DA height equal the configured expected values.

Everything here is pure and sequential, so it is modelled as datatypes, functions and lemmas:

- `wrappers.dfy`: `Option` and `Result`.
- `primitives.dfy`:
  - `u32`/`u64` as bounded naturals, and saturating addition.
  - 32-byte digests, TAI64 labels, headers and blocks.
  - The storage and `anyhow` error values.
- `storage.dfy`: the storage tables.
  - A keyed table is a map.
  - A table that storage iterates in key order is a sequence of `(key, value)` entries. Storage keeps its keys ascending (`Ascending`).
  - Reading a key in the table's `corrupt` set fails. This stands for every storage-layer error that a `get` or an iterator item can carry.
  - Also here: the reverse scan, and "first item of the reverse scan" (`LatestKey`).
- `relayer.dfy`:
  - The compile-time `relayer` feature and the optional sync handle, as the three-case datatype `MaybeRelayerAdapter` (`NoFeature`, `FeatureNoSync`, `FeatureSynced`).
  - The event fold, with a reference definition (exact totals, clamped into `u64`) and lemmas linking the fold to it.
- `producer_database.dfy`: five of the database view's six lookups (`block_header_merkle_root` is left out).
- `price_and_pool.dfy`: `StaticGasPrice` and `TxPoolAdapter::get_source`.
- `genesis_verifier.dfy`: the verifier, plus the nine test scenarios as lemmas.

Modelling choices:

- **Assumed latest-height lookup.** `latest_height` wraps the view's own latest-height lookup, whose code is not part of this model. It is modelled as the key of the first item of a reverse scan of the block table, the same shape as the version lookups.
- **Assumed `get_events` behaviour.** The relayer database's `get_events` is not part of this model either. A DA height with no stored entry gives the empty event list, and a failed read gives a storage error.
- **Sync handle.** With the relayer feature and a sync handle, the wait and the finalized height come from the relayer. `SyncHandle` carries whether the wait fails and the finalized DA height reported afterwards.
- **Verifier body and check order.** The verifier's own body is not part of this model, so its contract is taken from the test cases. The order in which it checks the fields is a modelling choice: previous root, time, height, then DA height. Each test header breaks exactly one field, so the field a rejection names does not depend on that order.
- **`UNIX_EPOCH` constant.** `Tai64::UNIX_EPOCH` is the TAI64 label 2^62 + 10, for 1970-01-01T00:00:10 TAI. It differs from `Tai64(0)`.
- **Feature on, no sync handle.** With the relayer feature compiled in but no sync handle, `wait_for_at_least_height` returns the requested height unchanged (`FeatureNoSync`). It waits and returns the finalized height only when a sync handle exists.

## Model

| member | source | states |
|---|---|---|
| `Primitives.SatAdd` | crates/fuel-core/src/service/adapters/producer.rs:192 | saturating `u64` addition: the exact sum when it fits, otherwise `u64::MAX`; never below either operand |
| `Storage.LatestKey` | crates/fuel-core/src/service/adapters/producer.rs:251-256 | first item of a reverse scan: not-found exactly when the table is empty, the read error when the top entry cannot be read, otherwise a stored, readable key that is the maximum key; on an ascending table a readable maximum key is always returned |
| `Storage.ReverseScanDescends` | crates/fuel-core/src/service/adapters/producer.rs:252 | on a table with ascending keys, the keys produced by a reverse scan strictly decrease |
| `Storage.Lookup` | crates/fuel-core/src/service/adapters/producer.rs:224-225 | a storage `get`: fails exactly on an unreadable key, gives `None` exactly when the key is readable and absent, otherwise a value stored under that key |
| `RelayerAdapter.WaitForAtLeastHeight` | crates/fuel-core/src/service/adapters/producer.rs:156-179 | without the feature it succeeds iff the height is 0, returns 0 and otherwise fails with the no-relayer message; with the feature and no sync handle it echoes the height; with a handle it propagates the wait's error or returns the finalized height |
| `RelayerAdapter.CostAndTransactionsNumberForBlock` | crates/fuel-core/src/service/adapters/producer.rs:181-215 | without the feature `{0, 0}` iff the height is 0, the no-relayer error otherwise; with the feature it fails iff reading the events fails, and otherwise returns the clamped total cost and clamped count of transaction events |
| `RelayerAdapter.FoldIsClampedTotal` | crates/fuel-core/src/service/adapters/producer.rs:187-200 | the saturating fold equals the exact total cost and exact transaction-event count, each clamped to `u64::MAX` (saturation never wraps) |
| `RelayerAdapter.FoldAppend` | crates/fuel-core/src/service/adapters/producer.rs:191-200 | folding one more event is one more step of the fold |
| `RelayerAdapter.MessageNotCounted` | crates/fuel-core/src/service/adapters/producer.rs:192-194 | a `Message` event adds its cost (saturating) and leaves `tx_count` unchanged |
| `RelayerAdapter.TransactionCounted` | crates/fuel-core/src/service/adapters/producer.rs:192-197 | a `Transaction` event adds its cost and adds one to `tx_count`, both saturating |
| `RelayerAdapter.FoldBounds` | crates/fuel-core/src/service/adapters/producer.rs:191-199 | the folded cost is at least every single event's cost and the folded count is at most the number of events |
| `RelayerAdapter.NoRelayerOperationsAgree` | crates/fuel-core/src/service/adapters/producer.rs:170-214 | without the feature both relayer operations accept exactly the same DA heights |
| `ProducerDatabase.LatestHeight` | crates/fuel-core/src/service/adapters/producer.rs:219-221 | `None` exactly when the lookup fails (so always on an empty chain); otherwise the maximum stored height |
| `ProducerDatabase.GetBlock` | crates/fuel-core/src/service/adapters/producer.rs:223-227 | succeeds iff the height is stored and readable, returning the block stored under it; not-found for an absent height, the read error for an unreadable one |
| `ProducerDatabase.GetBlockReturnsStored` | crates/fuel-core/src/service/adapters/producer.rs:223-227 | on a well-formed block table the returned block is exactly the one stored under the height |
| `ProducerDatabase.CollectTransactions` | crates/fuel-core/src/service/adapters/producer.rs:231-240 | the short-circuiting collect: succeeds iff every id resolves, then yields the transactions in id order; otherwise returns the error of the first id that does not resolve |
| `ProducerDatabase.GetFullBlock` | crates/fuel-core/src/service/adapters/producer.rs:229-242 | fails with `get_block`'s error when that fails; otherwise succeeds iff every transaction id resolves, keeping the header and giving one transaction per id in the same order; a failure is the error of the first transaction id that does not resolve |
| `ProducerDatabase.LatestConsensusParametersVersion` | crates/fuel-core/src/service/adapters/producer.rs:248-257 | not-found iff the version index is empty; on an ascending index, `Ok` with the maximum version when that entry is readable, and the read error exactly when it is not |
| `ProducerDatabase.LatestStateTransitionBytecodeVersion` | crates/fuel-core/src/service/adapters/producer.rs:259-268 | not-found iff the version index is empty; on an ascending index, `Ok` with the maximum version when that entry is readable, and the read error exactly when it is not |
| `RelayerAdapter.Step` | crates/fuel-core/src/service/adapters/producer.rs:191-200 | one step of the fold; no contract of its own — `FoldAppend`, `MessageNotCounted` and `TransactionCounted` state its effect |
| `RelayerAdapter.Fold` | crates/fuel-core/src/service/adapters/producer.rs:187-200 | the left fold over the events; no contract of its own — `FoldIsClampedTotal` and `FoldBounds` state its result |
| `ProducerDatabase.ResolveTransaction` | crates/fuel-core/src/service/adapters/producer.rs:234-239 | one id resolved against the transaction table; no contract of its own — `CollectTransactions` states its outcomes per id |
| `PriceAndPool.ProductionGasPrice` | crates/fuel-core/src/service/adapters/producer.rs:272-274 | no contract of its own; `GasPricesAgree` states it returns the configured price |
| `PriceAndPool.DryRunGasPrice` | crates/fuel-core/src/service/adapters/producer.rs:276-278 | no contract of its own; `GasPricesAgree` states it returns the configured price |
| `PriceAndPool.GetSource` | crates/fuel-core/src/service/adapters/producer.rs:90-96 | no contract of its own; `GetSourceIgnoresHeight` states it always succeeds with the gas price passed through and the height ignored |
| `PriceAndPool.GasPricesAgree` | crates/fuel-core/src/service/adapters/producer.rs:271-279 | both gas-price accessors succeed with the one configured price |
| `PriceAndPool.GetSourceIgnoresHeight` | crates/fuel-core/src/service/adapters/producer.rs:87-97 | `get_source` always succeeds with a source over the adapter's pool at the given gas price, whatever the height |
| `GenesisVerifier.VerifyGenesisBlockFields` | crates/services/consensus_module/src/block_verifier/tests.rs:95-105 | accepts iff the previous root is zero, the time is `UNIX_EPOCH`, and height and DA height equal the expected ones; a rejection names a field whose check fails |
| `GenesisVerifier.SingleFailureNamesField` | crates/services/consensus_module/src/block_verifier/tests.rs:45-94 | breaking any single check while the others hold is rejected, naming that field |
| `GenesisVerifier.AcceptedScenarios` | crates/services/consensus_module/src/block_verifier/tests.rs:4-44 | the four correct headers, at heights (0,0), (113,0), (0,1234) and (113,1234), are accepted |
| `GenesisVerifier.RejectedScenarios` | crates/services/consensus_module/src/block_verifier/tests.rs:45-94 | wrong expected height, wrong header height, wrong DA height, time `Tai64(0)` and root `[1u8; 32]` are each rejected for that field |

## Left out

- `ExecutorAdapter::produce_without_commit` (both variants), `dry_run` and `storage_read_replay` (producer.rs:99-152): they forward to an execution engine that is not part of this model. The new-transaction waiter races a deadline, which is about time and concurrency.
- The relayer's `await_at_least_synced` and `get_finalized_da_height` (producer.rs:162-165): an asynchronous wait on an external relayer. Only its outcome is modelled (`SyncHandle`). The relayer's guarantee that the finalized height reaches the requested one is not modelled.
- `block_header_merkle_root` (producer.rs:244-246): a cryptographic root computed by the storage layer, which is not part of this model.
- `ChainStateInfoProvider::consensus_params_at_version` and `BlockProducerAdapter::new` (producer.rs:281-288, 79-85): lookups in shared process state and `Arc` wrapping, with no local logic.
- Storage internals: which storage errors exist and where they arise are abstracted to "this key cannot be read". `uncompress` is modelled only as "attach this transaction list to the header".
- Header fields other than previous root, time, height and DA height are not modelled, because the verifier does not read them.
- `ProducerDatabase.LatestHeight`: the view's own latest-height lookup is assumed to be the first item of a reverse scan of the block table. Its code is not part of this model.
- `GenesisVerifier.VerifyGenesisBlockFields`: when several fields are wrong, the field named is fixed by the modelled check order. The tests do not pin this down.
