/** The indexer's migration-aware read router (`ReadApi` in
    crates/sui-indexer/src/apis/read_api.rs).

    Every read method either forwards its call unchanged to the upstream full node or,
    when a fixed registry key is in `migrated_methods`, answers from the local
    `IndexerStore`. The full-node client and the store are foreign: each of their
    operations is a total function carried in a record, so it may return any value
    or any error. The `async`/`await` plumbing disappears; `join_all` followed by
    `collect::<Result<Vec<_>, _>>()` becomes a sequential map that stops at the first
    error, which has the same all-or-nothing, index-aligned outcome. */
module ReadApi {
  import opened Wrappers
  import opened MachineInts
  import opened SeqFacts

  // ---------------------------------------------------------------------------
  // Values the router only passes along (defined in crates not part of this model)

  type ObjectId(==)
  type SequenceNumber(==)
  type ObjectRead
  type ObjectResponse
  type PastObjectRequest
  type PastObjectResponse
  type CheckpointId
  type Checkpoint
  type CheckpointPage
  type Event
  type StoredPayload
  type TransactionData
  type RawTransaction
  type TransactionEffects
  type TransactionEvents
  type ObjectChanges
  type BalanceChanges
  type ResponseMetadata
  type StoreFailure
  type UpstreamFailure

  /** A transaction digest, identified with its base58 text: `base58_encode` is a
      bijection between 32-byte digests and their encodings, and the router only ever
      compares encodings. */
  datatype TransactionDigest = TransactionDigest(base58: string)

  /** `digests.iter().map(|digest| digest.base58_encode()).collect()` */
  function DigestStrings(digests: seq<TransactionDigest>): (keys: seq<string>)
    ensures |keys| == |digests|
    ensures forall i | 0 <= i < |digests| :: keys[i] == digests[i].base58
  {
    seq(|digests|, i requires 0 <= i < |digests| => digests[i].base58)
  }

  /** `SuiObjectDataOptions`; its derived `Default` sets every flag to false. */
  datatype ObjectDataOptions = ObjectDataOptions(
    showType: bool, showOwner: bool, showPreviousTransaction: bool, showDisplay: bool,
    showContent: bool, showBcs: bool, showStorageRebate: bool)

  const DEFAULT_OBJECT_OPTIONS: ObjectDataOptions :=
    ObjectDataOptions(false, false, false, false, false, false, false)

  /** `SuiTransactionBlockResponseOptions`; its derived `Default` sets every flag to false. */
  datatype TransactionBlockResponseOptions = TransactionBlockResponseOptions(
    showInput: bool, showRawInput: bool, showEffects: bool, showEvents: bool,
    showObjectChanges: bool, showBalanceChanges: bool)

  const DEFAULT_TRANSACTION_OPTIONS: TransactionBlockResponseOptions :=
    TransactionBlockResponseOptions(false, false, false, false, false, false)

  /** `SuiTransactionBlockResponse`: the digest, six optional parts each gated by one
      option flag, and the remaining always-present fields. */
  datatype TransactionBlockResponse = TransactionBlockResponse(
    digest: string,
    transaction: Option<TransactionData>,
    rawTransaction: Option<RawTransaction>,
    effects: Option<TransactionEffects>,
    events: Option<TransactionEvents>,
    objectChanges: Option<ObjectChanges>,
    balanceChanges: Option<BalanceChanges>,
    metadata: ResponseMetadata)

  /** No optional part is present whose flag is off in `options`. */
  predicate RespectsOptions(options: TransactionBlockResponseOptions, r: TransactionBlockResponse) {
    && (!options.showInput ==> r.transaction == None)
    && (!options.showRawInput ==> r.rawTransaction == None)
    && (!options.showEffects ==> r.effects == None)
    && (!options.showEvents ==> r.events == None)
    && (!options.showObjectChanges ==> r.objectChanges == None)
    && (!options.showBalanceChanges ==> r.balanceChanges == None)
  }

  /** `SuiTransactionBlockResponseWithOptions { response, options }.into()`: the composed
      response with every optional part whose flag is off dropped, and every other part
      and field kept as composed. */
  function WithOptions(response: TransactionBlockResponse, options: TransactionBlockResponseOptions)
    : (r: TransactionBlockResponse)
    ensures RespectsOptions(options, r)
    ensures r.digest == response.digest && r.metadata == response.metadata
    ensures RespectsOptions(options, response) ==> r == response
    ensures options.showInput ==> r.transaction == response.transaction
    ensures options.showRawInput ==> r.rawTransaction == response.rawTransaction
    ensures options.showEffects ==> r.effects == response.effects
    ensures options.showEvents ==> r.events == response.events
    ensures options.showObjectChanges ==> r.objectChanges == response.objectChanges
    ensures options.showBalanceChanges ==> r.balanceChanges == response.balanceChanges
  {
    response.(
      transaction := if options.showInput then response.transaction else None,
      rawTransaction := if options.showRawInput then response.rawTransaction else None,
      effects := if options.showEffects then response.effects else None,
      events := if options.showEvents then response.events else None,
      objectChanges := if options.showObjectChanges then response.objectChanges else None,
      balanceChanges := if options.showBalanceChanges then response.balanceChanges else None)
  }

  /** Applying the same options twice is the same as applying them once. */
  lemma WithOptionsIdempotent(response: TransactionBlockResponse, options: TransactionBlockResponseOptions)
    ensures WithOptions(WithOptions(response, options), options) == WithOptions(response, options)
  {
  }

  /** With the default options nothing optional survives. */
  lemma DefaultOptionsShowNothing(response: TransactionBlockResponse)
    ensures var r := WithOptions(response, DEFAULT_TRANSACTION_OPTIONS);
      r.transaction == None && r.rawTransaction == None && r.effects == None &&
      r.events == None && r.objectChanges == None && r.balanceChanges == None
  {
  }

  /** A transaction row as the store returns it; only its digest column is inspected here. */
  datatype StoredTransaction = StoredTransaction(transactionDigest: string, payload: StoredPayload)

  // ---------------------------------------------------------------------------
  // Errors

  /** `IndexerError`: the one variant this file builds, and whatever else the store reports. */
  datatype IndexerError = PostgresReadError(message: string) | StoreError(failure: StoreFailure)

  const REORDER_COUNT_MESSAGE: string :=
    "Transaction count changed after reorder, this should never happen."

  /** The RPC error: either what the full node sent back, or an `IndexerError` converted
      by `?` through its `From` implementation. */
  datatype RpcError = Upstream(failure: UpstreamFailure) | FromIndexer(cause: IndexerError)

  type RpcResult<T> = Result<T, RpcError>

  /** `Ok(local?)`: an indexer failure becomes an RPC error, a value is kept. */
  function Lift<T>(local: Result<T, IndexerError>): (r: RpcResult<T>)
    ensures local.Ok? <==> r.Ok?
    ensures local.Ok? ==> r.value == local.value
    ensures local.Err? ==> r.error == FromIndexer(local.error)
  {
    match local
    case Ok(v) => Ok(v)
    case Err(e) => Err(FromIndexer(e))
  }

  // ---------------------------------------------------------------------------
  // Collaborators

  /** The upstream full node's `ReadApiClient`, one operation per RPC method. */
  datatype FullNodeClient = FullNodeClient(
    getObject: (ObjectId, Option<ObjectDataOptions>) -> RpcResult<ObjectResponse>,
    multiGetObjects: (seq<ObjectId>, Option<ObjectDataOptions>) -> RpcResult<seq<ObjectResponse>>,
    getTotalTransactionBlocks: RpcResult<U64>,
    getTransactionBlock: (TransactionDigest, Option<TransactionBlockResponseOptions>) -> RpcResult<TransactionBlockResponse>,
    multiGetTransactionBlocks: (seq<TransactionDigest>, Option<TransactionBlockResponseOptions>) -> RpcResult<seq<TransactionBlockResponse>>,
    tryGetPastObject: (ObjectId, SequenceNumber, Option<ObjectDataOptions>) -> RpcResult<PastObjectResponse>,
    tryMultiGetPastObjects: (seq<PastObjectRequest>, Option<ObjectDataOptions>) -> RpcResult<seq<PastObjectResponse>>,
    getLatestCheckpointSequenceNumber: RpcResult<U64>,
    getCheckpoint: CheckpointId -> RpcResult<Checkpoint>,
    getCheckpoints: (Option<U64>, Option<nat>, bool) -> RpcResult<CheckpointPage>,
    getEvents: TransactionDigest -> RpcResult<seq<Event>>)

  /** The `IndexerStore` operations the router uses, including the conversion of an object
      read into a response (`try_into`) and the composition of a transaction row. */
  datatype IndexerStore = IndexerStore(
    totalTransactionNumberFromCheckpoints: Result<I64, IndexerError>,
    latestCheckpointSequenceNumber: Result<I64, IndexerError>,
    transactionByDigest: string -> Result<StoredTransaction, IndexerError>,
    transactionsByDigests: seq<string> -> Result<seq<StoredTransaction>, IndexerError>,
    composeResponse: (StoredTransaction, Option<TransactionBlockResponseOptions>) -> Result<TransactionBlockResponse, IndexerError>,
    objectRead: (ObjectId, Option<SequenceNumber>) -> Result<ObjectRead, IndexerError>,
    objectResponse: (ObjectRead, ObjectDataOptions) -> Result<ObjectResponse, IndexerError>,
    checkpoint: CheckpointId -> Result<Checkpoint, IndexerError>)

  // ---------------------------------------------------------------------------
  // Registry keys: what each migratable method looks up in `migrated_methods`

  const GET_OBJECT_KEY: string := "get_object_with_options"
  const TOTAL_TRANSACTIONS_KEY: string := "get_total_transaction_number"
  const GET_TRANSACTION_KEY: string := "get_transaction"
  const MULTI_GET_TRANSACTIONS_KEY: string := "multi_get_transactions_with_options"
  const LATEST_CHECKPOINT_KEY: string := "get_latest_checkpoint_sequence_number"
  const GET_CHECKPOINT_KEY: string := "get_checkpoint"

  // ---------------------------------------------------------------------------
  // Reordering the store's rows into request order

  function Digests(rows: seq<StoredTransaction>): (ds: seq<string>)
    ensures |ds| == |rows|
    ensures forall i | 0 <= i < |rows| :: ds[i] == rows[i].transactionDigest
  {
    seq(|rows|, i requires 0 <= i < |rows| => rows[i].transactionDigest)
  }

  /** `tx_vec.iter().find(|tx| tx.transaction_digest == *digest).cloned()`: the first row
      carrying `digest`, if any. */
  function Find(rows: seq<StoredTransaction>, digest: string): (r: Option<StoredTransaction>)
    ensures r.Some? <==> digest in Digests(rows)
    ensures r.Some? ==> exists i | 0 <= i < |rows| :: rows[i] == r.value && IsFirstWith(rows, digest, i)
  {
    if rows == [] then None
    else if rows[0].transactionDigest == digest then
      assert IsFirstWith(rows, digest, 0);
      Some(rows[0])
    else
      var r := Find(rows[1..], digest);
      if r.Some? then
        var i :| 0 <= i < |rows[1..]| && rows[1..][i] == r.value && IsFirstWith(rows[1..], digest, i);
        assert IsFirstWith(rows, digest, i + 1);
        r
      else
        assert rows[0].transactionDigest != digest;
        r
  }

  /** Row `i` is the earliest one whose digest is `digest`. */
  predicate IsFirstWith(rows: seq<StoredTransaction>, digest: string, i: int) {
    && 0 <= i < |rows|
    && rows[i].transactionDigest == digest
    && forall j | 0 <= j < i :: rows[j].transactionDigest != digest
  }

  /** The `filter_map` over the requested digests: for each, in request order, the first
      fetched row with that digest; requests without a row are dropped. */
  function Reorder(requested: seq<string>, rows: seq<StoredTransaction>): (r: seq<StoredTransaction>)
    ensures |r| <= |requested|
    ensures forall t | t in r :: t in rows
  {
    if requested == [] then []
    else
      match Find(rows, requested[0])
      case Some(tx) => [tx] + Reorder(requested[1..], rows)
      case None => Reorder(requested[1..], rows)
  }

  /** Positions in `requested`, ascending, of exactly the digests that have a fetched row:
      a reference for `Reorder` that speaks of indices only. */
  function MatchedPositions(requested: seq<string>, rows: seq<StoredTransaction>): (ps: seq<nat>)
    ensures forall k | 0 <= k < |ps| :: ps[k] < |requested|
    ensures forall k, l | 0 <= k < l < |ps| :: ps[k] < ps[l]
    ensures forall j | 0 <= j < |requested| :: j in ps <==> requested[j] in Digests(rows)
    decreases |requested|
  {
    if requested == [] then []
    else
      var n := |requested| - 1;
      var front := MatchedPositions(requested[..n], rows);
      assert forall j | 0 <= j < n :: requested[..n][j] == requested[j];
      front + (if requested[n] in Digests(rows) then [n] else [])
  }

  /** The requested digests that have a fetched row, in request order. */
  function FoundDigests(requested: seq<string>, rows: seq<StoredTransaction>): (found: seq<string>)
    ensures |found| == |MatchedPositions(requested, rows)|
    ensures forall k | 0 <= k < |found| :: found[k] in Digests(rows)
  {
    var ps := MatchedPositions(requested, rows);
    seq(|ps|, k requires 0 <= k < |ps| => requested[ps[k]])
  }

  /** `filter_map` distributes over concatenation of the request. */
  lemma {:induction false} ReorderAppend(a: seq<string>, b: seq<string>, rows: seq<StoredTransaction>)
    ensures Reorder(a + b, rows) == Reorder(a, rows) + Reorder(b, rows)
  {
    if a != [] {
      assert (a + b)[0] == a[0];
      assert (a + b)[1..] == a[1..] + b;
      ReorderAppend(a[1..], b, rows);
    } else {
      assert a + b == b;
    }
  }

  /** Order preservation under partial absence: the k-th reordered row is the first
      fetched row for the k-th requested digest that has one. */
  lemma {:induction false} ReorderFollowsRequestOrder(requested: seq<string>, rows: seq<StoredTransaction>)
    ensures var ps := MatchedPositions(requested, rows);
      && |Reorder(requested, rows)| == |ps|
      && forall k | 0 <= k < |ps| :: Find(rows, requested[ps[k]]) == Some(Reorder(requested, rows)[k])
  {
    if requested != [] {
      var n := |requested| - 1;
      var front := requested[..n];
      ReorderFollowsRequestOrder(front, rows);
      assert requested == front + [requested[n]];
      ReorderAppend(front, [requested[n]], rows);
      assert [requested[n]][1..] == [];
      var psFront := MatchedPositions(front, rows);
      assert forall k | 0 <= k < |psFront| :: front[psFront[k]] == requested[psFront[k]];
    }
  }

  /** Concrete case: of `[A, B, C]` only B and C are stored, and the store returns them as
      `[C, B]`; the reordered list is `[B, C]`. */
  lemma ReorderExample(rowB: StoredTransaction, rowC: StoredTransaction)
    requires rowB.transactionDigest == "B" && rowC.transactionDigest == "C"
    ensures Reorder(["A", "B", "C"], [rowC, rowB]) == [rowB, rowC]
  {
    assert Find([rowC, rowB], "A") == None by {
      assert Digests([rowC, rowB]) == ["C", "B"];
    }
    assert ["A", "B", "C"][1..] == ["B", "C"];
    assert ["B", "C"][1..] == ["C"];
    assert [rowC, rowB][1..] == [rowB];
    assert Reorder(["C"], [rowC, rowB]) == [rowC];
    assert Reorder(["B", "C"], [rowC, rowB]) == [rowB, rowC];
  }

  // ---------------------------------------------------------------------------
  // The count check

  /** The store answered consistently with the request: one row per stored digest, and
      only rows for digests that were asked for. */
  predicate RowsConsistent(requested: seq<string>, rows: seq<StoredTransaction>) {
    && Distinct(Digests(rows))
    && forall i | 0 <= i < |rows| :: rows[i].transactionDigest in requested
  }

  /** No digest that has a row is requested more than once. */
  predicate NoFoundDigestRepeated(requested: seq<string>, rows: seq<StoredTransaction>) {
    forall i, j | 0 <= i < j < |requested| && requested[i] in Digests(rows) :: requested[i] != requested[j]
  }

  lemma FoundDigestsCoverRows(requested: seq<string>, rows: seq<StoredTransaction>)
    requires RowsConsistent(requested, rows)
    ensures Elements(FoundDigests(requested, rows)) == Elements(Digests(rows))
  {
    var ps := MatchedPositions(requested, rows);
    var found := FoundDigests(requested, rows);
    forall x | x in Elements(Digests(rows)) ensures x in Elements(found) {
      var j :| 0 <= j < |requested| && requested[j] == x;
      assert j in ps;
      var k :| 0 <= k < |ps| && ps[k] == j;
      assert found[k] == x;
    }
  }

  lemma FoundDigestsDistinctIff(requested: seq<string>, rows: seq<StoredTransaction>)
    ensures Distinct(FoundDigests(requested, rows)) <==> NoFoundDigestRepeated(requested, rows)
  {
    var ps := MatchedPositions(requested, rows);
    var found := FoundDigests(requested, rows);
    if !NoFoundDigestRepeated(requested, rows) {
      var i, j :| 0 <= i < j < |requested| && requested[i] in Digests(rows) && requested[i] == requested[j];
      assert i in ps && j in ps;
      var k :| 0 <= k < |ps| && ps[k] == i;
      var l :| 0 <= l < |ps| && ps[l] == j;
      assert k < l;
      assert found[k] == found[l];
    } else {
      forall k, l | 0 <= k < l < |found| ensures found[k] != found[l] {
        assert ps[k] < ps[l];
        assert requested[ps[k]] in Digests(rows);
      }
    }
  }

  /** With a consistent store the count check passes exactly when no digest that has a
      row was requested twice: a repeated stored digest yields one reordered row per
      request but one fetched row, and the call fails. */
  lemma CountCheckPassesIff(requested: seq<string>, rows: seq<StoredTransaction>)
    requires RowsConsistent(requested, rows)
    ensures |Reorder(requested, rows)| == |rows| <==> NoFoundDigestRepeated(requested, rows)
  {
    ReorderFollowsRequestOrder(requested, rows);
    FoundDigestsCoverRows(requested, rows);
    FoundDigestsDistinctIff(requested, rows);
    DistinctCard(FoundDigests(requested, rows));
    DistinctCard(Digests(rows));
  }

  /** When the count check passes against a consistent store, nothing fetched is lost or
      duplicated: the reordered rows are a permutation of the fetched rows. */
  lemma ConsistentReorderIsPermutation(requested: seq<string>, rows: seq<StoredTransaction>)
    requires RowsConsistent(requested, rows)
    requires NoFoundDigestRepeated(requested, rows)
    ensures multiset(Reorder(requested, rows)) == multiset(rows)
  {
    var ordered := Reorder(requested, rows);
    var ps := MatchedPositions(requested, rows);
    var found := FoundDigests(requested, rows);
    ReorderFollowsRequestOrder(requested, rows);
    FoundDigestsCoverRows(requested, rows);
    FoundDigestsDistinctIff(requested, rows);
    assert forall k | 0 <= k < |ordered| :: ordered[k].transactionDigest == found[k];
    assert Distinct(ordered) by {
      forall k, l | 0 <= k < l < |ordered| ensures ordered[k] != ordered[l] {
        assert found[k] != found[l];
      }
    }
    assert Distinct(rows) by {
      forall i, j | 0 <= i < j < |rows| ensures rows[i] != rows[j] {
        assert Digests(rows)[i] != Digests(rows)[j];
      }
    }
    forall t ensures multiset(ordered)[t] == multiset(rows)[t] {
      DistinctMultiplicity(ordered, t);
      DistinctMultiplicity(rows, t);
      if t in rows {
        var i :| 0 <= i < |rows| && rows[i] == t;
        assert t.transactionDigest in Elements(found);
        var k :| 0 <= k < |found| && found[k] == t.transactionDigest;
        var first :| 0 <= first < |rows| && rows[first] == ordered[k] && IsFirstWith(rows, found[k], first);
        assert Digests(rows)[first] == Digests(rows)[i];
        assert first == i;
      }
    }
    assert multiset(ordered) == multiset(rows);
  }

  // ---------------------------------------------------------------------------
  // Composing the reordered rows

  /** `join_all(...).collect::<Result<Vec<_>, _>>()`: every row composed with the same
      options; the first failure in row order fails the whole batch. */
  function ComposeAll(store: IndexerStore, rows: seq<StoredTransaction>, options: Option<TransactionBlockResponseOptions>)
    : (r: Result<seq<TransactionBlockResponse>, IndexerError>)
    ensures r.Ok? <==> forall i | 0 <= i < |rows| :: store.composeResponse(rows[i], options).Ok?
    ensures r.Ok? ==> |r.value| == |rows|
    ensures r.Ok? ==> forall i | 0 <= i < |rows| :: store.composeResponse(rows[i], options) == Ok(r.value[i])
    ensures r.Err? ==> exists i | 0 <= i < |rows| ::
      FirstComposeFailure(store, rows, options, i) && store.composeResponse(rows[i], options) == Err(r.error)
  {
    if rows == [] then Ok([])
    else
      match store.composeResponse(rows[0], options)
      case Err(e) =>
        assert FirstComposeFailure(store, rows, options, 0);
        Err(e)
      case Ok(head) =>
        var rest := ComposeAll(store, rows[1..], options);
        match rest
        case Err(e) =>
          var i :| 0 <= i < |rows[1..]| && FirstComposeFailure(store, rows[1..], options, i) &&
                   store.composeResponse(rows[1..][i], options) == Err(e);
          assert FirstComposeFailure(store, rows, options, i + 1);
          Err(e)
        case Ok(tail) =>
          assert forall i | 1 <= i < |rows| :: rows[i] == rows[1..][i - 1];
          Ok([head] + tail)
  }

  /** Row `i` is the first whose composition fails. */
  predicate FirstComposeFailure(store: IndexerStore, rows: seq<StoredTransaction>, options: Option<TransactionBlockResponseOptions>, i: int) {
    && 0 <= i < |rows|
    && store.composeResponse(rows[i], options).Err?
    && forall j | 0 <= j < i :: store.composeResponse(rows[j], options).Ok?
  }

  /** The composition of the first fetched row carrying `key`. */
  function ComposedRow(store: IndexerStore, rows: seq<StoredTransaction>, key: string, options: Option<TransactionBlockResponseOptions>)
    : Result<TransactionBlockResponse, IndexerError>
    requires key in Digests(rows)
  {
    store.composeResponse(Find(rows, key).value, options)
  }

  /** Composing the reordered rows, read back through the request positions they came
      from. */
  lemma ComposeReordered(store: IndexerStore, keys: seq<string>, rows: seq<StoredTransaction>,
                         options: Option<TransactionBlockResponseOptions>)
    ensures var ps := MatchedPositions(keys, rows);
      var r := ComposeAll(store, Reorder(keys, rows), options);
      && |Reorder(keys, rows)| == |ps|
      && (r.Ok? <==> forall k | 0 <= k < |ps| :: ComposedRow(store, rows, keys[ps[k]], options).Ok?)
      && (r.Ok? ==> |r.value| == |ps|)
      && (r.Ok? ==> forall k | 0 <= k < |ps| :: ComposedRow(store, rows, keys[ps[k]], options) == Ok(r.value[k]))
      && (r.Err? ==> exists k | 0 <= k < |ps| :: ComposedRow(store, rows, keys[ps[k]], options) == Err(r.error))
  {
    ReorderFollowsRequestOrder(keys, rows);
    var ps := MatchedPositions(keys, rows);
    var ordered := Reorder(keys, rows);
    assert forall k | 0 <= k < |ps| :: ComposedRow(store, rows, keys[ps[k]], options) == store.composeResponse(ordered[k], options);
  }

  // ---------------------------------------------------------------------------
  // The router

  datatype ReadApi = ReadApi(fullnode: FullNodeClient, state: IndexerStore, migratedMethods: seq<string>) {

    /** `self.migrated_methods.contains(&key)`: exact string match. */
    predicate Migrated(key: string) {
      key in migratedMethods
    }

    function GetTotalTransactionNumberInternal(): (r: Result<U64, IndexerError>)
      ensures r.Ok? <==> state.totalTransactionNumberFromCheckpoints.Ok?
      ensures r.Err? ==> r.error == state.totalTransactionNumberFromCheckpoints.error
      ensures r.Ok? ==> r.value == AsU64(state.totalTransactionNumberFromCheckpoints.value)
      ensures r.Ok? && 0 <= state.totalTransactionNumberFromCheckpoints.value ==>
                r.value == state.totalTransactionNumberFromCheckpoints.value
    {
      var n :- state.totalTransactionNumberFromCheckpoints;
      Ok(AsU64(n))
    }

    function GetTransactionWithOptionsInternal(digest: TransactionDigest, options: Option<TransactionBlockResponseOptions>)
      : (r: Result<TransactionBlockResponse, IndexerError>)
      ensures state.transactionByDigest(digest.base58).Err? ==> r == Err(state.transactionByDigest(digest.base58).error)
      ensures state.transactionByDigest(digest.base58).Ok? ==>
        var composed := state.composeResponse(state.transactionByDigest(digest.base58).value, options);
        && (composed.Err? ==> r == Err(composed.error))
        && (composed.Ok? ==> r == Ok(WithOptions(composed.value, options.GetOr(DEFAULT_TRANSACTION_OPTIONS))))
      ensures r.Ok? ==> RespectsOptions(options.GetOr(DEFAULT_TRANSACTION_OPTIONS), r.value)
    {
      var tx :- state.transactionByDigest(digest.base58);
      var response :- state.composeResponse(tx, options);
      Ok(WithOptions(response, options.GetOr(DEFAULT_TRANSACTION_OPTIONS)))
    }

    /** The local batch path. The store's error is propagated; a reordered count that
        differs from the fetched count is a `PostgresReadError`; otherwise the k-th
        response is the composition of the first fetched row for the k-th requested
        digest that has one, and any failed composition fails the batch. */
    function MultiGetTransactionsWithOptionsInternal(digests: seq<TransactionDigest>, options: Option<TransactionBlockResponseOptions>)
      : (r: Result<seq<TransactionBlockResponse>, IndexerError>)
      ensures var keys := DigestStrings(digests);
        var fetched := state.transactionsByDigests(keys);
        && (fetched.Err? ==> r == Err(fetched.error))
        && (fetched.Ok? ==>
              var ps := MatchedPositions(keys, fetched.value);
              && (|ps| != |fetched.value| ==> r == Err(PostgresReadError(REORDER_COUNT_MESSAGE)))
              && (|ps| == |fetched.value| ==>
                    && (r.Ok? <==> forall k | 0 <= k < |ps| :: ComposedRow(state, fetched.value, keys[ps[k]], options).Ok?)
                    && (r.Ok? ==> |r.value| == |ps|)
                    && (r.Ok? ==> forall k | 0 <= k < |ps| :: ComposedRow(state, fetched.value, keys[ps[k]], options) == Ok(r.value[k]))
                    && (r.Err? ==> exists k | 0 <= k < |ps| :: ComposedRow(state, fetched.value, keys[ps[k]], options) == Err(r.error))))
    {
      var keys := DigestStrings(digests);
      var rows :- state.transactionsByDigests(keys);
      ComposeReordered(state, keys, rows, options);
      var ordered := Reorder(keys, rows);
      if |ordered| != |rows| then Err(PostgresReadError(REORDER_COUNT_MESSAGE))
      else ComposeAll(state, ordered, options)
    }

    function GetObjectWithOptionsInternal(objectId: ObjectId, options: Option<ObjectDataOptions>)
      : (r: Result<ObjectResponse, IndexerError>)
      ensures state.objectRead(objectId, None).Err? ==> r == Err(state.objectRead(objectId, None).error)
      ensures state.objectRead(objectId, None).Ok? ==>
                r == state.objectResponse(state.objectRead(objectId, None).value, options.GetOr(DEFAULT_OBJECT_OPTIONS))
    {
      var read :- state.objectRead(objectId, None);
      state.objectResponse(read, options.GetOr(DEFAULT_OBJECT_OPTIONS))
    }

    function GetLatestCheckpointSequenceNumberInternal(): (r: Result<U64, IndexerError>)
      ensures r.Ok? <==> state.latestCheckpointSequenceNumber.Ok?
      ensures r.Err? ==> r.error == state.latestCheckpointSequenceNumber.error
      ensures r.Ok? ==> r.value == AsU64(state.latestCheckpointSequenceNumber.value)
      ensures r.Ok? && 0 <= state.latestCheckpointSequenceNumber.value ==>
                r.value == state.latestCheckpointSequenceNumber.value
    {
      var n :- state.latestCheckpointSequenceNumber;
      Ok(AsU64(n))
    }

    // ----- ReadApiServer -----

    function GetObject(objectId: ObjectId, options: Option<ObjectDataOptions>): (r: RpcResult<ObjectResponse>)
      ensures !Migrated(GET_OBJECT_KEY) ==> r == fullnode.getObject(objectId, options)
      ensures Migrated(GET_OBJECT_KEY) ==> r == Lift(GetObjectWithOptionsInternal(objectId, options))
    {
      if !Migrated(GET_OBJECT_KEY) then fullnode.getObject(objectId, options)
      else Lift(GetObjectWithOptionsInternal(objectId, options))
    }

    function MultiGetObjects(objectIds: seq<ObjectId>, options: Option<ObjectDataOptions>): (r: RpcResult<seq<ObjectResponse>>)
      ensures r == fullnode.multiGetObjects(objectIds, options)
    {
      fullnode.multiGetObjects(objectIds, options)
    }

    function GetTotalTransactionBlocks(): (r: RpcResult<U64>)
      ensures !Migrated(TOTAL_TRANSACTIONS_KEY) ==> r == fullnode.getTotalTransactionBlocks
      ensures Migrated(TOTAL_TRANSACTIONS_KEY) ==> r == Lift(GetTotalTransactionNumberInternal())
    {
      if !Migrated(TOTAL_TRANSACTIONS_KEY) then fullnode.getTotalTransactionBlocks
      else Lift(GetTotalTransactionNumberInternal())
    }

    function GetTransactionBlock(digest: TransactionDigest, options: Option<TransactionBlockResponseOptions>)
      : (r: RpcResult<TransactionBlockResponse>)
      ensures !Migrated(GET_TRANSACTION_KEY) ==> r == fullnode.getTransactionBlock(digest, options)
      ensures Migrated(GET_TRANSACTION_KEY) ==> r == Lift(GetTransactionWithOptionsInternal(digest, options))
    {
      if !Migrated(GET_TRANSACTION_KEY) then fullnode.getTransactionBlock(digest, options)
      else Lift(GetTransactionWithOptionsInternal(digest, options))
    }

    function MultiGetTransactionBlocks(digests: seq<TransactionDigest>, options: Option<TransactionBlockResponseOptions>)
      : (r: RpcResult<seq<TransactionBlockResponse>>)
      ensures !Migrated(MULTI_GET_TRANSACTIONS_KEY) ==> r == fullnode.multiGetTransactionBlocks(digests, options)
      ensures Migrated(MULTI_GET_TRANSACTIONS_KEY) ==> r == Lift(MultiGetTransactionsWithOptionsInternal(digests, options))
    {
      if !Migrated(MULTI_GET_TRANSACTIONS_KEY) then fullnode.multiGetTransactionBlocks(digests, options)
      else Lift(MultiGetTransactionsWithOptionsInternal(digests, options))
    }

    function TryGetPastObject(objectId: ObjectId, version: SequenceNumber, options: Option<ObjectDataOptions>)
      : (r: RpcResult<PastObjectResponse>)
      ensures r == fullnode.tryGetPastObject(objectId, version, options)
    {
      fullnode.tryGetPastObject(objectId, version, options)
    }

    function TryMultiGetPastObjects(pastObjects: seq<PastObjectRequest>, options: Option<ObjectDataOptions>)
      : (r: RpcResult<seq<PastObjectResponse>>)
      ensures r == fullnode.tryMultiGetPastObjects(pastObjects, options)
    {
      fullnode.tryMultiGetPastObjects(pastObjects, options)
    }

    function GetLatestCheckpointSequenceNumber(): (r: RpcResult<U64>)
      ensures !Migrated(LATEST_CHECKPOINT_KEY) ==> r == fullnode.getLatestCheckpointSequenceNumber
      ensures Migrated(LATEST_CHECKPOINT_KEY) ==> r == Lift(GetLatestCheckpointSequenceNumberInternal())
    {
      if !Migrated(LATEST_CHECKPOINT_KEY) then fullnode.getLatestCheckpointSequenceNumber
      else Lift(GetLatestCheckpointSequenceNumberInternal())
    }

    function GetCheckpoint(id: CheckpointId): (r: RpcResult<Checkpoint>)
      ensures !Migrated(GET_CHECKPOINT_KEY) ==> r == fullnode.getCheckpoint(id)
      ensures Migrated(GET_CHECKPOINT_KEY) ==> r == Lift(state.checkpoint(id))
    {
      if !Migrated(GET_CHECKPOINT_KEY) then fullnode.getCheckpoint(id)
      else Lift(state.checkpoint(id))
    }

    function GetCheckpoints(cursor: Option<U64>, limit: Option<nat>, descendingOrder: bool): (r: RpcResult<CheckpointPage>)
      ensures r == fullnode.getCheckpoints(cursor, limit, descendingOrder)
    {
      fullnode.getCheckpoints(cursor, limit, descendingOrder)
    }

    function GetEvents(transactionDigest: TransactionDigest): (r: RpcResult<seq<Event>>)
      ensures r == fullnode.getEvents(transactionDigest)
    {
      fullnode.getEvents(transactionDigest)
    }
  }

  // ---------------------------------------------------------------------------
  // Properties of the router as a whole

  /** A locally answered batch never reaches the full node: swapping the client changes
      nothing, and every error it reports is an indexer error. */
  lemma LocalBatchIgnoresFullNode(api: ReadApi, other: FullNodeClient, digests: seq<TransactionDigest>,
                                  options: Option<TransactionBlockResponseOptions>)
    requires api.Migrated(MULTI_GET_TRANSACTIONS_KEY)
    ensures api.MultiGetTransactionBlocks(digests, options) == api.(fullnode := other).MultiGetTransactionBlocks(digests, options)
    ensures api.MultiGetTransactionBlocks(digests, options).Err? ==> api.MultiGetTransactionBlocks(digests, options).error.FromIndexer?
  {
  }

  /** Four migratable methods are keyed by an internal name that differs from the RPC
      method's own name: listing those RPC names migrates none of the four. */
  lemma RpcNamesDoNotMigrate(api: ReadApi)
    requires api.migratedMethods == ["get_object", "get_total_transaction_blocks", "get_transaction_block",
                                     "multi_get_transaction_blocks"]
    ensures !api.Migrated(GET_OBJECT_KEY) && !api.Migrated(TOTAL_TRANSACTIONS_KEY)
    ensures !api.Migrated(GET_TRANSACTION_KEY) && !api.Migrated(MULTI_GET_TRANSACTIONS_KEY)
  {
  }

  /** A digest requested twice but stored once fails the whole local batch with the
      reorder-count error. */
  lemma DuplicateRequestFailsBatch(api: ReadApi, a: string, row: StoredTransaction,
                                   options: Option<TransactionBlockResponseOptions>)
    requires api.Migrated(MULTI_GET_TRANSACTIONS_KEY)
    requires row.transactionDigest == a
    requires api.state.transactionsByDigests([a, a]) == Ok([row])
    ensures api.MultiGetTransactionBlocks([TransactionDigest(a), TransactionDigest(a)], options)
            == Err(FromIndexer(PostgresReadError(REORDER_COUNT_MESSAGE)))
  {
    var digests := [TransactionDigest(a), TransactionDigest(a)];
    assert DigestStrings(digests) == [a, a];
    assert Digests([row]) == [a];
    var requested := [a, a];
    assert requested[0] in Digests([row]) && requested[0] == requested[1];
    assert !NoFoundDigestRepeated(requested, [row]);
    CountCheckPassesIff([a, a], [row]);
  }
}
