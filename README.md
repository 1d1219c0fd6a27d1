# Sui indexer read router and genesis fixtures, in Dafny

This project models two pieces of the Sui repository and proves properties of them.

**The indexer's read router** (`ReadApi`, crates/sui-indexer/src/apis/read_api.rs) is in
`read_api.dfy`, module `ReadApi`. Every RPC read method either forwards the call unchanged
to the upstream full node, or answers from the local `IndexerStore`. It answers locally
when a fixed registry key (not always the method's own name) is in `migrated_methods`.
Five methods always forward. The local batch path does three things, all modelled and
proved:

- it rebuilds the store's unordered rows in request order;
- it fails when the rebuilt count differs from the fetched count;
- it composes every row, and fails the batch if any one composition fails.

The router is pure. The full-node client and the store are records of total functions,
so each call may return any value or any error.

**Genesis fixture generation** (crates/sui-config/src/genesis_config.rs) is in
`genesis_config.dfy`, module `Genesis`.

- `generate_accounts` is an imperative method over `map`/`set` state. It is proved equal
  to a specification, a left fold of one step per account. Lemmas about that fold state
  the precedence rules: the later itemised entry wins, ranges never overwrite, the first
  range claiming an id wins, and only range ids are claimed across accounts. They also
  state key generation (one key per address-less account, in order), per-account output
  (ascending, no duplicates, owned by the account) and failure (any range error aborts
  the whole run).
- `from_base_ip` is pure, with its port layout proved.
- `custom_genesis` and `custom_genesis_with_addresses` are methods with nested loops.
  `for_local_testing*` call them.
- `new_for_benchmarks` is a pure constructor. Lemmas tie each constructor's accounts to
  what `generate_accounts` makes of them.

Shared pieces:

- `wrappers.dfy`: `Option` and `Result`.
- `machine_ints.dfy`: `u16`/`u64`/`i64` ranges and the `i64 as u64` cast.
- `seq_facts.dfy`: distinct sequences.

Randomness and foreign code are parameters:

- `get_key_pair_from_rng` is `keyAt`, a function from the draw number to the address
  and key pair that draw yields.
- `ObjectID::random()` is `randomId`, indexed by draw number.
- The seeded benchmark `StdRng` is a `BenchmarkRng` record, indexed by draw number.
- `ObjectID::in_range` is `inRange`, which may fail.

## Model

| member | source | states |
|---|---|---|
| `MachineInts.AsU64` | crates/sui-indexer/src/apis/read_api.rs:43 | `n as u64` is `n` modulo 2^64: a non-negative count is kept, and a negative one wraps to `n + 2^64`, at least 2^63 |
| `ReadApi.WithOptions` | crates/sui-indexer/src/apis/read_api.rs:58-62 | the response keeps its digest and metadata; every optional part whose flag is off is dropped, and every part whose flag is on is kept as composed; a response that already respects the options is unchanged |
| `ReadApi.WithOptionsIdempotent` | crates/sui-indexer/src/apis/read_api.rs:58-62 | applying the options twice is the same as once |
| `ReadApi.DefaultOptionsShowNothing` | crates/sui-indexer/src/apis/read_api.rs:60 | with `unwrap_or_default()` options no optional part survives |
| `ReadApi.Lift` | crates/sui-indexer/src/apis/read_api.rs:134 | `Ok(x?)` keeps a value and turns an indexer error into an RPC error |
| `ReadApi.Find` | crates/sui-indexer/src/apis/read_api.rs:79-82 | `find` succeeds exactly when some fetched row has the digest, and returns the earliest such row |
| `ReadApi.Reorder` | crates/sui-indexer/src/apis/read_api.rs:76-84 | the `filter_map` yields at most one row per request, each one a fetched row |
| `ReadApi.MatchedPositions` | crates/sui-indexer/src/apis/read_api.rs:76-84 | the request positions whose digest has a row, strictly ascending: exactly those positions |
| `ReadApi.ReorderAppend` | crates/sui-indexer/src/apis/read_api.rs:76-84 | reordering distributes over concatenation of the request |
| `ReadApi.ReorderFollowsRequestOrder` | crates/sui-indexer/src/apis/read_api.rs:71-84 | the k-th reordered row is the first fetched row for the k-th requested digest that has one; digests with no row are dropped |
| `ReadApi.ReorderExample` | crates/sui-indexer/src/apis/read_api.rs:76-84 | requesting `[A, B, C]` when the store holds `[C, B]` yields `[B, C]` |
| `ReadApi.FoundDigestsCoverRows` | crates/sui-indexer/src/apis/read_api.rs:76-84 | when the store returns distinct rows only for requested digests, the digests matched in request order are exactly the fetched rows' digests |
| `ReadApi.FoundDigestsDistinctIff` | crates/sui-indexer/src/apis/read_api.rs:76-84 | the matched digests are pairwise distinct exactly when no digest that has a row was requested twice |
| `ReadApi.CountCheckPassesIff` | crates/sui-indexer/src/apis/read_api.rs:85-89 | when the store returns distinct rows only for requested digests, the count check passes exactly when no digest that has a row was requested twice |
| `ReadApi.ConsistentReorderIsPermutation` | crates/sui-indexer/src/apis/read_api.rs:76-89 | when the store returns distinct rows only for requested digests and the count check passes, the reordered rows are a permutation of the fetched rows |
| `ReadApi.ComposeAll` | crates/sui-indexer/src/apis/read_api.rs:90-97 | the batch succeeds exactly when every row composes; it is then index-aligned with the rows; otherwise it fails with the first failing row's error |
| `ReadApi.ComposeReordered` | crates/sui-indexer/src/apis/read_api.rs:76-97 | composing the reordered rows, read back through request positions: the k-th response composes the row found for the k-th matched request |
| `ReadApi.ReadApi.GetTotalTransactionNumberInternal` | crates/sui-indexer/src/apis/read_api.rs:40-44 | the store's count cast `as u64`, or its error |
| `ReadApi.ReadApi.GetTransactionWithOptionsInternal` | crates/sui-indexer/src/apis/read_api.rs:46-64 | a lookup error or a composition error is returned; otherwise the composed response gated by the caller's options or the defaults |
| `ReadApi.ReadApi.MultiGetTransactionsWithOptionsInternal` | crates/sui-indexer/src/apis/read_api.rs:66-99 | a store error is propagated; a count mismatch is a `PostgresReadError` with the source's message; otherwise the batch succeeds exactly when every matched row composes, element k being the composition for the k-th matched request, and it fails with one row's error |
| `ReadApi.ReadApi.GetObjectWithOptionsInternal` | crates/sui-indexer/src/apis/read_api.rs:101-108 | the store is read at version `None`; a read error is returned; otherwise the conversion with the given or default options, which may fail |
| `ReadApi.ReadApi.GetLatestCheckpointSequenceNumberInternal` | crates/sui-indexer/src/apis/read_api.rs:110-114 | the store's number cast `as u64`, or its error |
| `ReadApi.ReadApi.GetObject` | crates/sui-indexer/src/apis/read_api.rs:122-135 | without `"get_object_with_options"` in the registry the upstream result, errors included; with it the local lookup |
| `ReadApi.ReadApi.MultiGetObjects` | crates/sui-indexer/src/apis/read_api.rs:137-143 | always the upstream result |
| `ReadApi.ReadApi.GetTotalTransactionBlocks` | crates/sui-indexer/src/apis/read_api.rs:145-153 | keyed by `"get_total_transaction_number"`: upstream when absent, local count when present |
| `ReadApi.ReadApi.GetTransactionBlock` | crates/sui-indexer/src/apis/read_api.rs:155-169 | keyed by `"get_transaction"`: upstream when absent, local lookup when present |
| `ReadApi.ReadApi.MultiGetTransactionBlocks` | crates/sui-indexer/src/apis/read_api.rs:171-188 | keyed by `"multi_get_transactions_with_options"`: upstream when absent, local batch when present |
| `ReadApi.ReadApi.TryGetPastObject` | crates/sui-indexer/src/apis/read_api.rs:190-199 | always the upstream result |
| `ReadApi.ReadApi.TryMultiGetPastObjects` | crates/sui-indexer/src/apis/read_api.rs:201-209 | always the upstream result |
| `ReadApi.ReadApi.GetLatestCheckpointSequenceNumber` | crates/sui-indexer/src/apis/read_api.rs:211-223 | keyed by `"get_latest_checkpoint_sequence_number"`: upstream when absent, local number when present |
| `ReadApi.ReadApi.GetCheckpoint` | crates/sui-indexer/src/apis/read_api.rs:225-233 | keyed by `"get_checkpoint"`: upstream when absent, the store's checkpoint or its error when present |
| `ReadApi.ReadApi.GetCheckpoints` | crates/sui-indexer/src/apis/read_api.rs:235-245 | always the upstream result |
| `ReadApi.ReadApi.GetEvents` | crates/sui-indexer/src/apis/read_api.rs:247-249 | always the upstream result |
| `ReadApi.LocalBatchIgnoresFullNode` | crates/sui-indexer/src/apis/read_api.rs:171-188 | a migrated batch does not depend on the full node, and all its errors are indexer errors |
| `ReadApi.RpcNamesDoNotMigrate` | crates/sui-indexer/src/apis/read_api.rs:127-178 | listing the RPC method names in the registry migrates none of the four methods keyed by an internal name |
| `ReadApi.DuplicateRequestFailsBatch` | crates/sui-indexer/src/apis/read_api.rs:76-89 | a digest requested twice but stored once fails the whole batch with the reorder-count error |
| `Genesis.FromBaseIp` | crates/sui-config/src/genesis_config.rs:166-208 | needs `port_offset < 1000`; each endpoint is its role's base port plus the offset, on the given ip, `0.0.0.0` or the listen ip; the seven ports are pairwise distinct and all leave the offset modulo 1000; gas price and commission are the defaults; keys pass through |
| `Genesis.DifferentOffsetsShareNoPort` | crates/sui-config/src/genesis_config.rs:166-208 | two `from_base_ip` validators with different offsets below 1000 share no port, whatever their ips and keys |
| `Genesis.LastItemValueIsLast` | crates/sui-config/src/genesis_config.rs:72-76 | the value kept for a repeated itemised id is that of its last entry |
| `Genesis.InsertItemsEffect` | crates/sui-config/src/genesis_config.rs:72-76 | itemised ids already claimed by a range are skipped; every other one is present with its last entry's value |
| `Genesis.InsertRangeIdsEffect` | crates/sui-config/src/genesis_config.rs:83-90 | a range's ids enter the map only when in neither the map nor the claimed set; existing values are never overwritten; each id taken is claimed |
| `Genesis.FirstRangeValueIsFirst` | crates/sui-config/src/genesis_config.rs:79-91 | a ranged id's value is that of the first range naming it |
| `Genesis.InsertRangesEffect` | crates/sui-config/src/genesis_config.rs:79-92 | the ranges fail exactly when one fails to expand; otherwise the new keys and claims are the range ids not claimed and not itemised, each valued by the first range naming it |
| `Genesis.MinId` | crates/sui-config/src/genesis_config.rs:94 | the least id of a non-empty set, where `BTreeMap` iteration starts |
| `Genesis.SortedObjectsFacts` | crates/sui-config/src/genesis_config.rs:94-97 | the map is emitted as one object per entry with its value, owned by the address, in strictly ascending id order |
| `Genesis.AccountObjectsEffect` | crates/sui-config/src/genesis_config.rs:69-92 | one account's map: it fails exactly when a range fails; its ids are its item and range ids minus those already claimed; the claims grow by its range ids that it does not itemise |
| `Genesis.AccountStepShape` | crates/sui-config/src/genesis_config.rs:59-97 | one account's step fails exactly when a range fails; it draws a key only when the account has no address, and appends one block |
| `Genesis.AccountStepBlock` | crates/sui-config/src/genesis_config.rs:59-97 | the appended block is ascending, owned by the account's address or its drawn key's, and valued as configured |
| `Genesis.AccountStepIds` | crates/sui-config/src/genesis_config.rs:69-92 | the appended block holds the account's item and range ids not claimed before; only range ids are claimed |
| `Genesis.RunErrorIsFinal` | crates/sui-config/src/genesis_config.rs:81 | once an account's range fails, that error is the result of the whole run |
| `Genesis.RunFailsIff` | crates/sui-config/src/genesis_config.rs:59-98 | the run over the accounts succeeds exactly when every range of every account expands |
| `Genesis.RunShape` | crates/sui-config/src/genesis_config.rs:58-68 | one block per account; one key per address-less account, the k-th key being the k-th draw |
| `Genesis.RunClaimed` | crates/sui-config/src/genesis_config.rs:72-91 | the cross-account set holds exactly the range ids that the accounts claimed |
| `Genesis.RunPrefix` | crates/sui-config/src/genesis_config.rs:59-98 | the first k blocks are those of the run over the first k accounts, since accounts are processed in order |
| `Genesis.RunBlockAt` | crates/sui-config/src/genesis_config.rs:59-98 | block a is the one account a appends to the state the first a accounts leave |
| `Genesis.ClaimedByContains` | crates/sui-config/src/genesis_config.rs:87-88 | every account's non-itemised range ids are in the claimed set |
| `Genesis.GenerateAccountsFailsIff` | crates/sui-config/src/genesis_config.rs:81 | `generate_accounts` fails exactly when some range fails to expand, with no partial result |
| `Genesis.GeneratedKeysAreDrawnForAddresslessAccounts` | crates/sui-config/src/genesis_config.rs:58-66 | exactly one key per account without an address, in account order; the k-th is the k-th draw |
| `Genesis.BlockFacts` | crates/sui-config/src/genesis_config.rs:59-97 | the facts about account a's block, read off the step that appended it |
| `Genesis.GeneratedObjectsByAccount` | crates/sui-config/src/genesis_config.rs:59-100 | the objects are the account blocks concatenated in account order; each block is strictly ascending, owned by the account's address or drawn key, valued as configured, and holds the account's ids minus those earlier accounts' ranges claimed |
| `Genesis.SharedIdsAreItemisedByTheEarlierAccount` | crates/sui-config/src/genesis_config.rs:72-89 | if two accounts receive the same id, the earlier one received it as an itemised object |
| `Genesis.PopulateItemised` | crates/sui-config/src/genesis_config.rs:72-76 | the itemised loop computes the itemised fold |
| `Genesis.PopulateRangeIds` | crates/sui-config/src/genesis_config.rs:83-90 | the loop over one range's ids computes the range fold on both map and set |
| `Genesis.PopulateRanged` | crates/sui-config/src/genesis_config.rs:79-92 | the ranges loop computes the range fold, returning the first expansion error |
| `Genesis.EmitObjects` | crates/sui-config/src/genesis_config.rs:94-97 | draining the map least id first yields the sorted emission |
| `Genesis.GenerateAccounts` | crates/sui-config/src/genesis_config.rs:48-101 | the method returns exactly the specified keys and objects, or the first range error |
| `Genesis.DrawAccountObjects` | crates/sui-config/src/genesis_config.rs:286-291 | the inner loop takes the next `num_objects_per_account` id draws, each worth `DEFAULT_GAS_AMOUNT` |
| `Genesis.CustomGenesis` | crates/sui-config/src/genesis_config.rs:273-303 | needs `num_authorities > 0`; one address-less account per requested account, in order, each with its own draws and an empty range list; every other field, including committee size 4, from `Default` |
| `Genesis.CustomGenesisWithAddresses` | crates/sui-config/src/genesis_config.rs:305-335 | the same, with one account per address in order, owning that address |
| `Genesis.ForLocalTesting` | crates/sui-config/src/genesis_config.rs:257-263 | five address-less accounts of five objects, otherwise the default |
| `Genesis.ForLocalTestingWithAddresses` | crates/sui-config/src/genesis_config.rs:265-271 | one account of five objects per address, otherwise the default |
| `Genesis.ItemisedOnlyBlock` | crates/sui-config/src/genesis_config.rs:72-97 | accounts without ranges cannot fail and each receives exactly its itemised ids at their last values |
| `Genesis.CustomGenesisKeys` | crates/sui-config/src/genesis_config.rs:273-303 | generating from `custom_genesis` accounts succeeds and draws key a for account a |
| `Genesis.CustomGenesisBlocks` | crates/sui-config/src/genesis_config.rs:273-303 | account a's objects are exactly its draws' ids, ascending, owned by key a's address, worth `DEFAULT_GAS_AMOUNT` |
| `Genesis.CustomGenesisWithAddressesKeys` | crates/sui-config/src/genesis_config.rs:305-335 | generating from `custom_genesis_with_addresses` accounts succeeds and draws no key |
| `Genesis.CustomGenesisWithAddressesBlocks` | crates/sui-config/src/genesis_config.rs:305-335 | account a's objects are exactly its draws' ids, ascending, owned by address a, worth `DEFAULT_GAS_AMOUNT` |
| `Genesis.BenchmarkOffsetsArePrefixes` | crates/sui-config/src/genesis_config.rs:414-419 | fewer offsets are a prefix of more, because every call reseeds the RNG |
| `Genesis.NewForBenchmarks` | crates/sui-config/src/genesis_config.rs:341-401 | validator i is exactly `from_base_ip` on ip i at port offset 500, with key draws 4i to 4i+3 and listen host `0.0.0.0`, so every `FromBaseIp` guarantee applies to it; its consensus address is 127.0.0.1:8083; committee size is the ip count; one account at the gas key's address, with no items and one range per ip (the ip's offset, 5000 ids, `u64::MAX` each); chain start at 0; gRPC limits unset |
| `Genesis.SingleAccountGeneration` | crates/sui-config/src/genesis_config.rs:48-101 | generation from a single account cannot fail once its ranges expand; it draws one key exactly when the account has no address; the output is ascending, owned by the account, valued as configured, and holds all its item and range ids |
| `Genesis.BenchmarkGenesisFailsIff` | crates/sui-config/src/genesis_config.rs:362-383 | generating the benchmark accounts fails exactly when one validator's range fails to expand, and draws no key |
| `Genesis.BenchmarkGenesisObjects` | crates/sui-config/src/genesis_config.rs:362-383 | the benchmark gas objects are exactly the ranges' ids, ascending, owned by the gas key's address, each worth `u64::MAX` |

## Left out

- Async execution, `join_all` concurrency and the `HttpClient` transport. The full node is a record of total functions, and `join_all` followed by `collect` is a sequential map that stops at the first error.
- `IndexerStore` internals (Postgres reads, `compose_sui_transaction_block_response`, `get_checkpoint`, the `try_into` object conversion). Each is a function that may fail. The store's counters are taken to be `i64`.
- `BigInt` and `SuiCheckpointSequenceNumber` wire encoding, because those types are defined in a crate not part of this model. The `u64` is returned as is.
- `ReadApi.WithOptions`: crates/sui-indexer/src/types.rs, which defines `SuiTransactionBlockResponseWithOptions::into`, is not part of this model. The model assumes `into` drops every optional part whose flag is off, and keeps every part whose flag is on and every non-optional field unchanged.
- `ReadApi.DigestStrings`: a transaction digest is identified with its base58 text. This assumes `base58_encode` is injective.
- `rpc()` and `rpc_doc_module()`: RPC module wiring.
- Key generation, `ObjectID::random`, the seeded `StdRng` and `ObjectID::in_range` are foreign. Each is a function of the draw number (or of the range). Two draws of different key types from one stream are modelled as independent values, although the real RNG derives both from the same bytes.
- `Genesis.BenchmarkGasKey`, `Genesis.BenchmarkGasObjectIdOffsets`: modelled as reading the first draws of a fresh `BenchmarkRng`, with no cryptography.
- `SuiAddress::from(&key.public())` is the `addressOf` parameter of `NewForBenchmarks`.
- Multiaddr and SocketAddr text: an endpoint is a host, a transport and a port. `Genesis.FromBaseIp` and `Genesis.NewForBenchmarks` accept any ip string. The source panics through `.parse().unwrap()` when the ip is not an IPv4 literal (genesis_config.rs:180-184 and 195-197), and that panic is not modelled. `from_localhost_for_testing`, `default_socket_address` and `default_multiaddr_address` allocate OS ports and are left out.
- `serde` attributes, `tracing::info!` and the contents of `GenesisCeremonyParameters` (only "default" or "chain start at 0" is kept).
- The `addresses` vector in `generate_accounts` is filled but never read, so it is not modelled.
- `DEFAULT_GAS_PRICE`, `DEFAULT_COMMISSION_RATE` and `DEFAULT_GRPC_CONCURRENCY_LIMIT` are defined in files not part of this model. They are the `NodeDefaults` parameter.
- `Genesis.GenerateAccounts`: the emitted objects are appended block by block, rather than one `push` at a time. The resulting sequence is the same.
- `Genesis.Default` has no contract of its own. Its fields are stated through `CustomGenesis` and `CustomGenesisWithAddresses`.
- `ObjectID` is a 32-byte number ordered as `BTreeMap` orders it. Object creation (`Object::with_id_owner_gas_for_testing`) keeps only id, owner and gas value.
