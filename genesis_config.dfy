/** Genesis fixtures (crates/sui-config/src/genesis_config.rs): turning account
    configurations into key pairs and gas objects, validator port layout, and the
    deterministic configuration constructors.

    Key generation, `ObjectID::random`, the seeded benchmark RNG and `ObjectID::in_range`
    are foreign: each is a parameter, a function from a draw number (or range) to what
    that draw yields. Addresses are modelled as host, transport and port; no text is
    formatted or parsed. */
module Genesis {
  import opened Wrappers
  import opened MachineInts
  import opened SeqFacts

  // ---------------------------------------------------------------------------
  // Values defined in crates not part of this model

  type SuiAddress(==)
  type AccountKeyPair
  type AuthorityKeyPair
  type NetworkKeyPair
  type OtherSchemeKeyPair
  type RangeError

  /** `SuiKeyPair`: the benchmark validators use the Ed25519 variant. */
  datatype SuiKeyPair = Ed25519(pair: NetworkKeyPair) | OtherScheme(key: OtherSchemeKeyPair)

  const OBJECT_ID_BOUND: int := 0x1_0000_0000_0000_0000_0000_0000_0000_0000_0000_0000_0000_0000_0000_0000_0000_0000

  /** `ObjectID`: 32 bytes, ordered as a big-endian number (the `BTreeMap`/`BTreeSet` order). */
  type ObjectId = x: int | 0 <= x < OBJECT_ID_BOUND

  /** Constants defined next to `Config` and `NodeConfig` in the same crate. */
  datatype NodeDefaults = NodeDefaults(gasPrice: U64, commissionRate: U64, grpcConcurrencyLimit: nat)

  const DEFAULT_GAS_AMOUNT: U64 := 30_000_000_000_000_000
  const DEFAULT_NUMBER_OF_AUTHORITIES: nat := 4
  const DEFAULT_NUMBER_OF_ACCOUNT: nat := 5
  const DEFAULT_NUMBER_OF_OBJECT_PER_ACCOUNT: nat := 5
  const BENCHMARKS_RNG_SEED: U64 := 0
  const BENCHMARKS_PORT_OFFSET: nat := 500
  const BENCHMARK_RANGE_COUNT: U64 := 5000

  // ---------------------------------------------------------------------------
  // Configuration records

  /** `ObjectConfig`: one itemised gas object. */
  datatype ObjectConfig = ObjectConfig(objectId: ObjectId, gasValue: U64)

  /** `ObjectConfigRange`: `count` consecutive ids from `offset`, each worth `gasValue`. */
  datatype ObjectConfigRange = ObjectConfigRange(offset: ObjectId, count: U64, gasValue: U64)

  datatype AccountConfig = AccountConfig(
    address: Option<SuiAddress>,
    gasObjects: seq<ObjectConfig>,
    gasObjectRanges: Option<seq<ObjectConfigRange>>)

  /** `Object::with_id_owner_gas_for_testing(id, owner, gasValue)` */
  datatype GasObject = GasObject(id: ObjectId, owner: SuiAddress, gasValue: U64)

  datatype Transport = TcpHttp | Udp | Socket

  /** A `Multiaddr` or `SocketAddr`, kept as its parts. */
  datatype Endpoint = Endpoint(host: string, transport: Transport, port: U16)

  datatype ValidatorGenesisInfo = ValidatorGenesisInfo(
    keyPair: AuthorityKeyPair,
    workerKeyPair: NetworkKeyPair,
    accountKeyPair: SuiKeyPair,
    networkKeyPair: NetworkKeyPair,
    networkAddress: Endpoint,
    p2pAddress: Endpoint,
    p2pListenAddress: Option<Endpoint>,
    metricsAddress: Endpoint,
    narwhalMetricsAddress: Endpoint,
    gasPrice: U64,
    commissionRate: U64,
    narwhalPrimaryAddress: Endpoint,
    narwhalWorkerAddress: Endpoint)

  datatype ValidatorConfigInfo = ValidatorConfigInfo(
    genesisInfo: ValidatorGenesisInfo,
    consensusAddress: Endpoint,
    consensusInternalWorkerAddress: Option<Endpoint>)

  /** `GenesisCeremonyParameters`: only which constructor produced it is kept. */
  datatype CeremonyParameters = DefaultParameters | ChainStartAtZero

  datatype GenesisConfig = GenesisConfig(
    validatorConfigInfo: Option<seq<ValidatorConfigInfo>>,
    parameters: CeremonyParameters,
    committeeSize: nat,
    grpcLoadShed: Option<bool>,
    grpcConcurrencyLimit: Option<nat>,
    accounts: seq<AccountConfig>)

  /** `impl Default for GenesisConfig` */
  function Default(defaults: NodeDefaults): GenesisConfig {
    GenesisConfig(None, DefaultParameters, DEFAULT_NUMBER_OF_AUTHORITIES, None,
                  Some(defaults.grpcConcurrencyLimit), [])
  }

  // ---------------------------------------------------------------------------
  // Validator ports

  const DEFAULT_NETWORK_PORT: U16 := 1000
  const DEFAULT_P2P_PORT: U16 := 2000
  const DEFAULT_P2P_LISTEN_PORT: U16 := 3000
  const DEFAULT_METRICS_PORT: U16 := 4000
  const DEFAULT_NARWHAL_METRICS_PORT: U16 := 5000
  const DEFAULT_NARWHAL_PRIMARY_PORT: U16 := 6000
  const DEFAULT_NARWHAL_WORKER_PORT: U16 := 7000

  /** Every port a validator listens on, in the order of the port constants. */
  function Ports(v: ValidatorGenesisInfo): seq<int> {
    [v.networkAddress.port, v.p2pAddress.port]
    + (if v.p2pListenAddress.Some? then [v.p2pListenAddress.value.port] else [])
    + [v.metricsAddress.port, v.narwhalMetricsAddress.port,
       v.narwhalPrimaryAddress.port, v.narwhalWorkerAddress.port]
  }

  /** `ValidatorGenesisInfo::from_base_ip`. The source asserts `port_offset < 1000`. Every
      port is its role's base plus the offset, so the ports are pairwise distinct, the
      offset is what each port leaves modulo 1000, and all fit in a `u16`. */
  function FromBaseIp(
    keyPair: AuthorityKeyPair, workerKeyPair: NetworkKeyPair, accountKeyPair: SuiKeyPair,
    networkKeyPair: NetworkKeyPair, p2pListenAddress: Option<string>, ip: string,
    portOffset: nat, defaults: NodeDefaults): (v: ValidatorGenesisInfo)
    requires portOffset < 1000
    ensures v.networkAddress == Endpoint(ip, TcpHttp, DEFAULT_NETWORK_PORT + portOffset)
    ensures v.p2pAddress == Endpoint(ip, Udp, DEFAULT_P2P_PORT + portOffset)
    ensures v.p2pListenAddress == if p2pListenAddress.Some?
              then Some(Endpoint(p2pListenAddress.value, Socket, DEFAULT_P2P_LISTEN_PORT + portOffset))
              else None
    ensures v.metricsAddress == Endpoint("0.0.0.0", Socket, DEFAULT_METRICS_PORT + portOffset)
    ensures v.narwhalMetricsAddress == Endpoint("0.0.0.0", TcpHttp, DEFAULT_NARWHAL_METRICS_PORT + portOffset)
    ensures v.narwhalPrimaryAddress == Endpoint(ip, Udp, DEFAULT_NARWHAL_PRIMARY_PORT + portOffset)
    ensures v.narwhalWorkerAddress == Endpoint(ip, Udp, DEFAULT_NARWHAL_WORKER_PORT + portOffset)
    ensures v.gasPrice == defaults.gasPrice && v.commissionRate == defaults.commissionRate
    ensures v.keyPair == keyPair && v.workerKeyPair == workerKeyPair
    ensures v.accountKeyPair == accountKeyPair && v.networkKeyPair == networkKeyPair
    ensures Distinct(Ports(v))
    ensures forall p | p in Ports(v) :: p % 1000 == portOffset
  {
    var offset: U16 := portOffset;
    ValidatorGenesisInfo(
      keyPair, workerKeyPair, accountKeyPair, networkKeyPair,
      Endpoint(ip, TcpHttp, DEFAULT_NETWORK_PORT + offset),
      Endpoint(ip, Udp, DEFAULT_P2P_PORT + offset),
      if p2pListenAddress.Some?
        then Some(Endpoint(p2pListenAddress.value, Socket, DEFAULT_P2P_LISTEN_PORT + offset))
        else None,
      Endpoint("0.0.0.0", Socket, DEFAULT_METRICS_PORT + offset),
      Endpoint("0.0.0.0", TcpHttp, DEFAULT_NARWHAL_METRICS_PORT + offset),
      defaults.gasPrice,
      defaults.commissionRate,
      Endpoint(ip, Udp, DEFAULT_NARWHAL_PRIMARY_PORT + offset),
      Endpoint(ip, Udp, DEFAULT_NARWHAL_WORKER_PORT + offset))
  }

  /** Two validators built by `from_base_ip` with different offsets share no port,
      whatever their ips, keys and listen addresses, which is what lets several nodes
      run on one host. */
  lemma DifferentOffsetsShareNoPort(
    keyPair1: AuthorityKeyPair, workerKeyPair1: NetworkKeyPair, accountKeyPair1: SuiKeyPair,
    networkKeyPair1: NetworkKeyPair, p2pListenAddress1: Option<string>, ip1: string, portOffset1: nat,
    keyPair2: AuthorityKeyPair, workerKeyPair2: NetworkKeyPair, accountKeyPair2: SuiKeyPair,
    networkKeyPair2: NetworkKeyPair, p2pListenAddress2: Option<string>, ip2: string, portOffset2: nat,
    defaults: NodeDefaults)
    requires portOffset1 < 1000 && portOffset2 < 1000 && portOffset1 != portOffset2
    ensures var v1 := FromBaseIp(keyPair1, workerKeyPair1, accountKeyPair1, networkKeyPair1,
                                 p2pListenAddress1, ip1, portOffset1, defaults);
            var v2 := FromBaseIp(keyPair2, workerKeyPair2, accountKeyPair2, networkKeyPair2,
                                 p2pListenAddress2, ip2, portOffset2, defaults);
            forall p | p in Ports(v1) :: p !in Ports(v2)
  {
    var v1 := FromBaseIp(keyPair1, workerKeyPair1, accountKeyPair1, networkKeyPair1,
                         p2pListenAddress1, ip1, portOffset1, defaults);
    var v2 := FromBaseIp(keyPair2, workerKeyPair2, accountKeyPair2, networkKeyPair2,
                         p2pListenAddress2, ip2, portOffset2, defaults);
    forall p | p in Ports(v1)
      ensures p !in Ports(v2)
    {
      assert p % 1000 == portOffset1;
    }
  }

  // ---------------------------------------------------------------------------
  // generate_accounts: the specification, one account at a time

  /** What the RNG's k-th `get_key_pair_from_rng` call yields. */
  type KeySource = nat -> (SuiAddress, AccountKeyPair)

  /** `ObjectID::in_range(offset, count)`. */
  type RangeExpander = (ObjectId, U64) -> Result<seq<ObjectId>, RangeError>

  function RangesOf(account: AccountConfig): seq<ObjectConfigRange> {
    if account.gasObjectRanges.Some? then account.gasObjectRanges.value else []
  }

  /** The per-account map and the cross-account set of ids claimed by ranges
      (`preload_objects_map`, `all_preload_objects_set`). */
  datatype Claims = Claims(objects: map<ObjectId, U64>, claimed: set<ObjectId>)

  function ItemIds(items: seq<ObjectConfig>): set<ObjectId> {
    set q | q in items :: q.objectId
  }

  /** The itemised loop, as a left fold: an id already claimed by a range is skipped;
      otherwise the entry is inserted, overwriting an earlier one. */
  function InsertItems(m: map<ObjectId, U64>, items: seq<ObjectConfig>, claimed: set<ObjectId>)
    : map<ObjectId, U64>
  {
    if items == [] then m
    else
      var m' := InsertItems(m, items[..|items| - 1], claimed);
      var q := items[|items| - 1];
      if q.objectId in claimed then m' else m'[q.objectId := q.gasValue]
  }

  /** The value of the last item naming `id`: the reference for "a later entry wins". */
  function LastItemValue(items: seq<ObjectConfig>, id: ObjectId): (v: U64)
    requires id in ItemIds(items)
    ensures exists i | 0 <= i < |items| :: items[i].objectId == id && items[i].gasValue == v
  {
    var n := |items| - 1;
    if items[n].objectId == id then items[n].gasValue
    else
      assert id in ItemIds(items[..n]) by {
        var q :| q in items && q.objectId == id;
        var i :| 0 <= i < |items| && items[i] == q;
        assert items[..n][i] == q;
      }
      var v := LastItemValue(items[..n], id);
      ghost var i :| 0 <= i < n && items[..n][i].objectId == id && items[..n][i].gasValue == v;
      assert items[i] == items[..n][i];
      v
  }

  /** The entry `LastItemValue` picks is the one no later entry renames. */
  lemma {:induction false} LastItemValueIsLast(items: seq<ObjectConfig>, id: ObjectId, i: nat)
    requires i < |items| && items[i].objectId == id
    requires forall j | i < j < |items| :: items[j].objectId != id
    ensures id in ItemIds(items) && LastItemValue(items, id) == items[i].gasValue
  {
    assert items[i] in items;
    var n := |items| - 1;
    if i < n {
      assert items[..n][i] == items[i];
      forall j | i < j < n ensures items[..n][j].objectId != id {
        assert items[..n][j] == items[j];
      }
      LastItemValueIsLast(items[..n], id, i);
    }
  }

  /** Itemised objects: an id claimed by an earlier account's range is skipped, any other
      named id is present with the value of its last entry, and nothing else changes. */
  lemma {:induction false} InsertItemsEffect(m: map<ObjectId, U64>, items: seq<ObjectConfig>, claimed: set<ObjectId>)
    ensures InsertItems(m, items, claimed).Keys == m.Keys + (ItemIds(items) - claimed)
    ensures forall id | id in InsertItems(m, items, claimed) ::
              InsertItems(m, items, claimed)[id]
                == if id in ItemIds(items) - claimed then LastItemValue(items, id) else m[id]
  {
    if items != [] {
      var n := |items| - 1;
      InsertItemsEffect(m, items[..n], claimed);
      assert items == items[..n] + [items[n]];
      assert ItemIds(items) == ItemIds(items[..n]) + {items[n].objectId};
    }
  }

  /** The inner loop over one range's ids, as a left fold: an id is taken only when it
      is in neither the account's map nor the claimed set, and then enters both. */
  function InsertRangeIds(st: Claims, ids: seq<ObjectId>, gasValue: U64): Claims {
    if ids == [] then st
    else
      var st' := InsertRangeIds(st, ids[..|ids| - 1], gasValue);
      var id := ids[|ids| - 1];
      if id !in st'.objects && id !in st'.claimed
      then Claims(st'.objects[id := gasValue], st'.claimed + {id})
      else st'
  }

  /** One range never overwrites: ids already in the map keep their value, ids claimed
      elsewhere are skipped, and every id taken is claimed. */
  lemma {:induction false} InsertRangeIdsEffect(st: Claims, ids: seq<ObjectId>, gasValue: U64)
    ensures InsertRangeIds(st, ids, gasValue).objects.Keys == st.objects.Keys + (Elements(ids) - st.claimed)
    ensures InsertRangeIds(st, ids, gasValue).claimed == st.claimed + (Elements(ids) - st.objects.Keys)
    ensures forall id | id in st.objects :: InsertRangeIds(st, ids, gasValue).objects[id] == st.objects[id]
    ensures forall id | id in InsertRangeIds(st, ids, gasValue).objects && id !in st.objects ::
              InsertRangeIds(st, ids, gasValue).objects[id] == gasValue
  {
    if ids != [] {
      var n := |ids| - 1;
      InsertRangeIdsEffect(st, ids[..n], gasValue);
      assert ids == ids[..n] + [ids[n]];
      assert Elements(ids) == Elements(ids[..n]) + {ids[n]};
    }
  }

  /** Every range of the list expands without error. */
  predicate Expands(ranges: seq<ObjectConfigRange>, inRange: RangeExpander) {
    forall i | 0 <= i < |ranges| :: inRange(ranges[i].offset, ranges[i].count).Ok?
  }

  lemma ExpandsCons(ranges: seq<ObjectConfigRange>, inRange: RangeExpander)
    requires ranges != []
    ensures Expands(ranges, inRange)
            <==> inRange(ranges[0].offset, ranges[0].count).Ok? && Expands(ranges[1..], inRange)
  {
    if inRange(ranges[0].offset, ranges[0].count).Ok? && Expands(ranges[1..], inRange) {
      forall i | 0 < i < |ranges| ensures inRange(ranges[i].offset, ranges[i].count).Ok? {
        assert ranges[i] == ranges[1..][i - 1];
      }
    }
  }

  /** All ids the ranges expand to. */
  function RangeIds(ranges: seq<ObjectConfigRange>, inRange: RangeExpander): set<ObjectId>
    requires Expands(ranges, inRange)
  {
    if ranges == [] then {}
    else
      ExpandsCons(ranges, inRange);
      Elements(inRange(ranges[0].offset, ranges[0].count).value) + RangeIds(ranges[1..], inRange)
  }

  /** The gas value of the first range that names `id`: the reference for "the first
      range wins". */
  function FirstRangeValue(ranges: seq<ObjectConfigRange>, inRange: RangeExpander, id: ObjectId): (v: U64)
    requires Expands(ranges, inRange) && id in RangeIds(ranges, inRange)
    ensures exists i | 0 <= i < |ranges| :: ranges[i].gasValue == v
  {
    ExpandsCons(ranges, inRange);
    if id in Elements(inRange(ranges[0].offset, ranges[0].count).value) then ranges[0].gasValue
    else
      var v := FirstRangeValue(ranges[1..], inRange, id);
      ghost var i :| 0 <= i < |ranges[1..]| && ranges[1..][i].gasValue == v;
      assert ranges[i + 1] == ranges[1..][i];
      v
  }

  /** The range `FirstRangeValue` picks is the first whose ids include `id`. */
  lemma {:induction false} FirstRangeValueIsFirst(ranges: seq<ObjectConfigRange>, inRange: RangeExpander,
                                                  id: ObjectId, i: nat)
    requires Expands(ranges, inRange) && i < |ranges|
    requires id in Elements(inRange(ranges[i].offset, ranges[i].count).value)
    requires forall j | 0 <= j < i :: id !in Elements(inRange(ranges[j].offset, ranges[j].count).value)
    ensures id in RangeIds(ranges, inRange) && FirstRangeValue(ranges, inRange, id) == ranges[i].gasValue
  {
    ExpandsCons(ranges, inRange);
    if 0 < i {
      assert ranges[1..][i - 1] == ranges[i];
      forall j | 0 <= j < i - 1
        ensures id !in Elements(inRange(ranges[1..][j].offset, ranges[1..][j].count).value)
      {
        assert ranges[1..][j] == ranges[j + 1];
      }
      FirstRangeValueIsFirst(ranges[1..], inRange, id, i - 1);
    }
  }

  /** The loop over the ranges; a failed expansion stops everything (`?`). */
  function InsertRanges(st: Claims, ranges: seq<ObjectConfigRange>, inRange: RangeExpander)
    : Result<Claims, RangeError>
    decreases |ranges|
  {
    if ranges == [] then Ok(st)
    else
      var ids :- inRange(ranges[0].offset, ranges[0].count);
      InsertRanges(InsertRangeIds(st, ids, ranges[0].gasValue), ranges[1..], inRange)
  }

  /** The ranged part of an account: it fails exactly when some range fails to expand;
      otherwise every expanded id not claimed elsewhere and not already itemised is
      added with the value of the first range naming it, and joins the claimed set. */
  lemma {:induction false} InsertRangesEffect(st: Claims, ranges: seq<ObjectConfigRange>, inRange: RangeExpander)
    decreases |ranges|
    ensures InsertRanges(st, ranges, inRange).Ok? <==> Expands(ranges, inRange)
    ensures Expands(ranges, inRange) ==>
              InsertRanges(st, ranges, inRange).value.objects.Keys
                == st.objects.Keys + (RangeIds(ranges, inRange) - st.claimed)
    ensures Expands(ranges, inRange) ==>
              InsertRanges(st, ranges, inRange).value.claimed
                == st.claimed + (RangeIds(ranges, inRange) - st.objects.Keys)
    ensures Expands(ranges, inRange) ==>
              forall id | id in st.objects :: InsertRanges(st, ranges, inRange).value.objects[id] == st.objects[id]
    ensures Expands(ranges, inRange) ==>
              forall id | id in InsertRanges(st, ranges, inRange).value.objects && id !in st.objects ::
                InsertRanges(st, ranges, inRange).value.objects[id] == FirstRangeValue(ranges, inRange, id)
  {
    if ranges != [] {
      ExpandsCons(ranges, inRange);
      var first := inRange(ranges[0].offset, ranges[0].count);
      if first.Ok? {
        var st1 := InsertRangeIds(st, first.value, ranges[0].gasValue);
        InsertRangeIdsEffect(st, first.value, ranges[0].gasValue);
        InsertRangesEffect(st1, ranges[1..], inRange);
        if Expands(ranges, inRange) {
          var r := InsertRanges(st1, ranges[1..], inRange).value;
          assert InsertRanges(st, ranges, inRange).value == r;
          forall id | id in r.objects && id !in st.objects
            ensures r.objects[id] == FirstRangeValue(ranges, inRange, id)
          {
            if id !in st1.objects {
              assert id !in st.claimed;
            }
          }
        }
      }
    }
  }

  predicate IsLeast(k: ObjectId, ids: set<ObjectId>) {
    k in ids && forall y | y in ids :: k <= y
  }

  lemma {:induction false} LeastExists(ids: set<ObjectId>)
    requires ids != {}
    ensures exists k :: IsLeast(k, ids)
  {
    var x :| x in ids;
    var rest := ids - {x};
    if rest == {} {
      assert ids == {x};
      assert IsLeast(x, ids);
    } else {
      LeastExists(rest);
      var m :| IsLeast(m, rest);
      var k := if x <= m then x else m;
      forall y | y in ids ensures k <= y {
        if y != x {
          assert y in rest;
        }
      }
      assert IsLeast(k, ids);
    }
  }

  /** The least id of a non-empty set: where a `BTreeMap` iteration starts. */
  ghost function MinId(ids: set<ObjectId>): (k: ObjectId)
    requires ids != {}
    ensures k in ids && forall y | y in ids :: k <= y
  {
    LeastExists(ids);
    var k :| IsLeast(k, ids);
    k
  }

  predicate StrictlyAscending(objs: seq<GasObject>) {
    forall i, j | 0 <= i < j < |objs| :: objs[i].id < objs[j].id
  }

  predicate OwnedBy(objs: seq<GasObject>, owner: SuiAddress) {
    forall i | 0 <= i < |objs| :: objs[i].owner == owner
  }

  function Ids(objs: seq<GasObject>): set<ObjectId> {
    set o | o in objs :: o.id
  }

  /** Iterating a `BTreeMap` and creating one gas object per entry, least id first. */
  ghost function SortedObjects(m: map<ObjectId, U64>, owner: SuiAddress): seq<GasObject>
    decreases |m|
  {
    if |m| == 0 then []
    else
      var k := MinId(m.Keys);
      var rest := m - {k};
      assert |rest| < |m| by {
        assert rest.Keys == m.Keys - {k};
      }
      [GasObject(k, owner, m[k])] + SortedObjects(rest, owner)
  }

  /** The objects emitted from a map: every entry once with its value, all owned by
      `owner`, in strictly ascending id order. */
  lemma SortedObjectsFacts(m: map<ObjectId, U64>, owner: SuiAddress)
    ensures |SortedObjects(m, owner)| == |m|
    ensures Ids(SortedObjects(m, owner)) == m.Keys
    ensures forall o | o in SortedObjects(m, owner) :: o.id in m && o.gasValue == m[o.id]
    ensures OwnedBy(SortedObjects(m, owner), owner)
    ensures StrictlyAscending(SortedObjects(m, owner))
  {
    SortedObjectsContents(m, owner);
    SortedObjectsOrdered(m, owner);
    var objs := SortedObjects(m, owner);
    forall i | 0 <= i < |objs| ensures objs[i].owner == owner {
      assert objs[i] in objs;
    }
  }

  lemma {:induction false} SortedObjectsContents(m: map<ObjectId, U64>, owner: SuiAddress)
    ensures |SortedObjects(m, owner)| == |m|
    ensures Ids(SortedObjects(m, owner)) == m.Keys
    ensures forall o | o in SortedObjects(m, owner) :: o.id in m && o.gasValue == m[o.id] && o.owner == owner
    decreases |m|
  {
    if |m| != 0 {
      var k := MinId(m.Keys);
      var rest := m - {k};
      assert rest.Keys == m.Keys - {k};
      SortedObjectsContents(rest, owner);
      PrependIds(GasObject(k, owner, m[k]), SortedObjects(rest, owner));
    }
  }

  lemma {:induction false} SortedObjectsOrdered(m: map<ObjectId, U64>, owner: SuiAddress)
    ensures StrictlyAscending(SortedObjects(m, owner))
    decreases |m|
  {
    if |m| != 0 {
      var k := MinId(m.Keys);
      var rest := m - {k};
      assert rest.Keys == m.Keys - {k};
      assert forall y | y in rest.Keys :: k < y;
      SortedObjectsOrdered(rest, owner);
      SortedObjectsContents(rest, owner);
      PrependAscending(GasObject(k, owner, m[k]), SortedObjects(rest, owner), rest.Keys);
    }
  }

  lemma PrependIds(first: GasObject, tail: seq<GasObject>)
    ensures Ids([first] + tail) == {first.id} + Ids(tail)
  {
    var objs := [first] + tail;
    forall id ensures id in Ids(objs) <==> id in {first.id} + Ids(tail) {
      if id in Ids(objs) {
        var o :| o in objs && o.id == id;
        if o != first { assert o in tail; }
      }
      if id in Ids(tail) {
        var o :| o in tail && o.id == id;
        assert o in objs;
      }
    }
  }

  lemma PrependAscending(first: GasObject, tail: seq<GasObject>, later: set<ObjectId>)
    requires Ids(tail) == later && forall y | y in later :: first.id < y
    requires StrictlyAscending(tail)
    ensures StrictlyAscending([first] + tail)
  {
    var objs := [first] + tail;
    forall i, j | 0 <= i < j < |objs| ensures objs[i].id < objs[j].id {
      if i == 0 {
        assert objs[j] in tail;
        assert objs[j].id in Ids(tail);
      } else {
        assert objs[i] == tail[i - 1] && objs[j] == tail[j - 1];
      }
    }
  }

  /** The first object emitted is the least entry's, then the rest of the map. */
  lemma SortedObjectsUnfold(m: map<ObjectId, U64>, owner: SuiAddress, k: ObjectId)
    requires IsLeast(k, m.Keys)
    ensures SortedObjects(m, owner) == [GasObject(k, owner, m[k])] + SortedObjects(m - {k}, owner)
    ensures |m - {k}| < |m|
  {
    assert (m - {k}).Keys == m.Keys - {k};
    assert MinId(m.Keys) == k;
  }

  /** The generation so far: keys drawn, ids claimed by ranges, and one block of gas
      objects per account processed (their concatenation is `preload_objects`). */
  datatype Generation = Generation(keys: seq<AccountKeyPair>, claimed: set<ObjectId>, blocks: seq<seq<GasObject>>)

  const INITIAL_GENERATION: Generation := Generation([], {}, [])

  /** The owner of an account's objects: its address, or else the address of the next
      key drawn. */
  function OwnerOf(account: AccountConfig, drawn: nat, keyAt: KeySource): SuiAddress {
    if account.address.Some? then account.address.value else keyAt(drawn).0
  }

  /** The map one account builds: items first, then ranges. */
  ghost function AccountObjects(claimed: set<ObjectId>, account: AccountConfig, inRange: RangeExpander)
    : Result<Claims, RangeError>
  {
    InsertRanges(Claims(InsertItems(map[], account.gasObjects, claimed), claimed), RangesOf(account), inRange)
  }

  /** One account's objects: the account fails exactly when one of its ranges does;
      otherwise it holds exactly the ids it names (items and ranges) that no earlier range
      claimed, items win over ranges of the same account, and only range ids the account
      did not itemise join the claimed set. */
  lemma AccountObjectsEffect(claimed: set<ObjectId>, account: AccountConfig, inRange: RangeExpander)
    ensures AccountObjects(claimed, account, inRange).Ok? <==> Expands(RangesOf(account), inRange)
    ensures AccountObjects(claimed, account, inRange).Ok? ==>
              var st := AccountObjects(claimed, account, inRange).value;
              && st.objects.Keys == (ItemIds(account.gasObjects) + RangeIds(RangesOf(account), inRange)) - claimed
              && st.claimed == claimed + (RangeIds(RangesOf(account), inRange) - ItemIds(account.gasObjects))
              && (forall id | id in st.objects ::
                    st.objects[id] == if id in ItemIds(account.gasObjects)
                                      then LastItemValue(account.gasObjects, id)
                                      else FirstRangeValue(RangesOf(account), inRange, id))
  {
    var items := InsertItems(map[], account.gasObjects, claimed);
    InsertItemsEffect(map[], account.gasObjects, claimed);
    InsertRangesEffect(Claims(items, claimed), RangesOf(account), inRange);
  }

  /** One iteration of the loop over accounts. */
  ghost function AccountStep(g: Generation, account: AccountConfig, keyAt: KeySource, inRange: RangeExpander)
    : Result<Generation, RangeError>
  {
    var owner := OwnerOf(account, |g.keys|, keyAt);
    var keys := if account.address.Some? then g.keys else g.keys + [keyAt(|g.keys|).1];
    var st :- AccountObjects(g.claimed, account, inRange);
    Ok(Generation(keys, st.claimed, g.blocks + [SortedObjects(st.objects, owner)]))
  }

  /** Each object's gas value is its last item's when the account itemises it, and
      otherwise the first range's that names it. */
  ghost predicate ValuedAsConfigured(block: seq<GasObject>, account: AccountConfig, inRange: RangeExpander)
    requires Expands(RangesOf(account), inRange)
  {
    forall o | o in block ::
      if o.id in ItemIds(account.gasObjects)
      then o.gasValue == LastItemValue(account.gasObjects, o.id)
      else o.id in RangeIds(RangesOf(account), inRange)
           && o.gasValue == FirstRangeValue(RangesOf(account), inRange, o.id)
  }

  /** What one account contributes: it fails exactly when one of its ranges does;
      otherwise a key is drawn when it has no address, and one block of gas objects is
      appended. */
  lemma AccountStepShape(g: Generation, account: AccountConfig, keyAt: KeySource, inRange: RangeExpander)
    ensures AccountStep(g, account, keyAt, inRange).Ok? <==> Expands(RangesOf(account), inRange)
    ensures AccountStep(g, account, keyAt, inRange).Ok? ==>
              var h := AccountStep(g, account, keyAt, inRange).value;
              && h.keys == (if account.address.Some? then g.keys else g.keys + [keyAt(|g.keys|).1])
              && |h.blocks| == |g.blocks| + 1
              && h.blocks[..|g.blocks|] == g.blocks
  {
    AccountObjectsEffect(g.claimed, account, inRange);
  }

  /** The block one account appends is strictly ascending, owned by the account, and
      valued as configured. */
  lemma AccountStepBlock(g: Generation, account: AccountConfig, keyAt: KeySource, inRange: RangeExpander)
    requires AccountStep(g, account, keyAt, inRange).Ok?
    ensures Expands(RangesOf(account), inRange)
    ensures var h := AccountStep(g, account, keyAt, inRange).value;
            && |h.blocks| == |g.blocks| + 1
            && StrictlyAscending(h.blocks[|g.blocks|])
            && OwnedBy(h.blocks[|g.blocks|], OwnerOf(account, |g.keys|, keyAt))
            && ValuedAsConfigured(h.blocks[|g.blocks|], account, inRange)
  {
    AccountObjectsEffect(g.claimed, account, inRange);
    var st := AccountObjects(g.claimed, account, inRange).value;
    var h := AccountStep(g, account, keyAt, inRange).value;
    assert h.blocks == g.blocks + [SortedObjects(st.objects, OwnerOf(account, |g.keys|, keyAt))];
    SortedObjectsFacts(st.objects, OwnerOf(account, |g.keys|, keyAt));
  }

  /** The block one account appends holds exactly the ids it names that no earlier range
      claimed; only its range ids that it does not itemise join the claimed set. */
  lemma AccountStepIds(g: Generation, account: AccountConfig, keyAt: KeySource, inRange: RangeExpander)
    requires AccountStep(g, account, keyAt, inRange).Ok?
    ensures Expands(RangesOf(account), inRange)
    ensures var h := AccountStep(g, account, keyAt, inRange).value;
            && |h.blocks| == |g.blocks| + 1
            && Ids(h.blocks[|g.blocks|])
               == (ItemIds(account.gasObjects) + RangeIds(RangesOf(account), inRange)) - g.claimed
            && h.claimed == g.claimed + (RangeIds(RangesOf(account), inRange) - ItemIds(account.gasObjects))
  {
    AccountObjectsEffect(g.claimed, account, inRange);
    var st := AccountObjects(g.claimed, account, inRange).value;
    var h := AccountStep(g, account, keyAt, inRange).value;
    assert h.blocks == g.blocks + [SortedObjects(st.objects, OwnerOf(account, |g.keys|, keyAt))];
    SortedObjectsFacts(st.objects, OwnerOf(account, |g.keys|, keyAt));
  }

  // ---------------------------------------------------------------------------
  // generate_accounts: the whole run

  /** The accounts without an address, each of which draws a key. */
  function AddresslessCount(accounts: seq<AccountConfig>): nat {
    if accounts == [] then 0
    else AddresslessCount(accounts[..|accounts| - 1]) + (if accounts[|accounts| - 1].address.None? then 1 else 0)
  }

  /** The loop over accounts, as a left fold that stops at the first error. */
  ghost function Run(accounts: seq<AccountConfig>, keyAt: KeySource, inRange: RangeExpander)
    : Result<Generation, RangeError>
  {
    if accounts == [] then Ok(INITIAL_GENERATION)
    else
      var g :- Run(accounts[..|accounts| - 1], keyAt, inRange);
      AccountStep(g, accounts[|accounts| - 1], keyAt, inRange)
  }

  function Flatten(blocks: seq<seq<GasObject>>): seq<GasObject> {
    if blocks == [] then [] else Flatten(blocks[..|blocks| - 1]) + blocks[|blocks| - 1]
  }

  /** What `generate_accounts` returns: the key pairs drawn and the gas objects. */
  ghost function GenerateAccountsSpec(accounts: seq<AccountConfig>, keyAt: KeySource, inRange: RangeExpander)
    : Result<(seq<AccountKeyPair>, seq<GasObject>), RangeError>
  {
    var g :- Run(accounts, keyAt, inRange);
    Ok((g.keys, Flatten(g.blocks)))
  }

  /** Every range of every account expands. */
  predicate AllRangesExpand(accounts: seq<AccountConfig>, inRange: RangeExpander) {
    forall a | 0 <= a < |accounts| :: Expands(RangesOf(accounts[a]), inRange)
  }

  lemma PrefixExpands(accounts: seq<AccountConfig>, inRange: RangeExpander, k: nat)
    requires k <= |accounts|
    ensures AllRangesExpand(accounts, inRange) ==> AllRangesExpand(accounts[..k], inRange)
    ensures k == |accounts| - 1 ==>
              (AllRangesExpand(accounts, inRange)
               <==> AllRangesExpand(accounts[..k], inRange) && Expands(RangesOf(accounts[k]), inRange))
  {
    forall c | 0 <= c < k ensures accounts[..k][c] == accounts[c] {
    }
  }

  /** The ids the accounts' ranges claim: the range ids each account does not itemise. */
  ghost function ClaimedBy(accounts: seq<AccountConfig>, inRange: RangeExpander): set<ObjectId>
    requires AllRangesExpand(accounts, inRange)
  {
    if accounts == [] then {}
    else
      var n := |accounts| - 1;
      PrefixExpands(accounts, inRange, n);
      ClaimedBy(accounts[..n], inRange) + (RangeIds(RangesOf(accounts[n]), inRange) - ItemIds(accounts[n].gasObjects))
  }

  /** An error, once it has happened, is the result of the whole run. */
  lemma {:induction false} RunErrorIsFinal(accounts: seq<AccountConfig>, keyAt: KeySource, inRange: RangeExpander, k: nat)
    requires k <= |accounts| && Run(accounts[..k], keyAt, inRange).Err?
    ensures Run(accounts, keyAt, inRange) == Run(accounts[..k], keyAt, inRange)
  {
    if k < |accounts| {
      var n := |accounts| - 1;
      assert accounts[..n][..k] == accounts[..k];
      RunErrorIsFinal(accounts[..n], keyAt, inRange, k);
    } else {
      assert accounts[..k] == accounts;
    }
  }

  lemma {:induction false} RunFailsIff(accounts: seq<AccountConfig>, keyAt: KeySource, inRange: RangeExpander)
    ensures Run(accounts, keyAt, inRange).Ok? <==> AllRangesExpand(accounts, inRange)
  {
    if accounts != [] {
      var n := |accounts| - 1;
      RunFailsIff(accounts[..n], keyAt, inRange);
      PrefixExpands(accounts, inRange, n);
      var g := Run(accounts[..n], keyAt, inRange);
      if g.Ok? {
        AccountStepShape(g.value, accounts[n], keyAt, inRange);
      }
    }
  }

  /** The shape of a successful run: one block per account, and one key per account
      without an address, the `k`-th draw being the `k`-th key. */
  lemma {:induction false} RunShape(accounts: seq<AccountConfig>, keyAt: KeySource, inRange: RangeExpander)
    requires Run(accounts, keyAt, inRange).Ok?
    ensures |Run(accounts, keyAt, inRange).value.blocks| == |accounts|
    ensures |Run(accounts, keyAt, inRange).value.keys| == AddresslessCount(accounts)
    ensures forall k | 0 <= k < AddresslessCount(accounts) :: Run(accounts, keyAt, inRange).value.keys[k] == keyAt(k).1
  {
    if accounts != [] {
      var n := |accounts| - 1;
      var r := Run(accounts[..n], keyAt, inRange);
      assert r.Ok?;
      RunShape(accounts[..n], keyAt, inRange);
      AccountStepShape(r.value, accounts[n], keyAt, inRange);
    }
  }

  /** After a successful run the claimed set is what the accounts' ranges claim. */
  lemma {:induction false} RunClaimed(accounts: seq<AccountConfig>, keyAt: KeySource, inRange: RangeExpander)
    requires Run(accounts, keyAt, inRange).Ok?
    ensures AllRangesExpand(accounts, inRange)
    ensures Run(accounts, keyAt, inRange).value.claimed == ClaimedBy(accounts, inRange)
  {
    RunFailsIff(accounts, keyAt, inRange);
    if accounts != [] {
      var n := |accounts| - 1;
      var r := Run(accounts[..n], keyAt, inRange);
      assert r.Ok?;
      PrefixExpands(accounts, inRange, n);
      RunClaimed(accounts[..n], keyAt, inRange);
      AccountStepIds(r.value, accounts[n], keyAt, inRange);
    }
  }

  /** A run's first `k` blocks are those of the run over the first `k` accounts. */
  lemma {:induction false} RunPrefix(accounts: seq<AccountConfig>, keyAt: KeySource, inRange: RangeExpander, k: nat)
    requires Run(accounts, keyAt, inRange).Ok? && k <= |accounts|
    ensures Run(accounts[..k], keyAt, inRange).Ok?
    ensures |Run(accounts, keyAt, inRange).value.blocks| == |accounts|
    ensures Run(accounts, keyAt, inRange).value.blocks[..k] == Run(accounts[..k], keyAt, inRange).value.blocks
  {
    RunShape(accounts, keyAt, inRange);
    if k < |accounts| {
      var n := |accounts| - 1;
      var g := Run(accounts[..n], keyAt, inRange);
      assert g.Ok?;
      AccountStepShape(g.value, accounts[n], keyAt, inRange);
      RunPrefix(accounts[..n], keyAt, inRange, k);
      assert accounts[..n][..k] == accounts[..k];
      var h := Run(accounts, keyAt, inRange).value;
      assert h.blocks[..k] == h.blocks[..n][..k];
    } else {
      assert accounts[..k] == accounts;
    }
  }

  /** The `a`-th block is appended by the `a`-th account's step, taken from the
      generation the first `a` accounts leave. */
  lemma RunBlockAt(accounts: seq<AccountConfig>, keyAt: KeySource, inRange: RangeExpander, a: nat)
    requires Run(accounts, keyAt, inRange).Ok? && a < |accounts|
    ensures Run(accounts[..a], keyAt, inRange).Ok?
    ensures AccountStep(Run(accounts[..a], keyAt, inRange).value, accounts[a], keyAt, inRange).Ok?
    ensures |Run(accounts, keyAt, inRange).value.blocks| == |accounts|
    ensures |AccountStep(Run(accounts[..a], keyAt, inRange).value, accounts[a], keyAt, inRange).value.blocks| == a + 1
    ensures Run(accounts, keyAt, inRange).value.blocks[a]
            == AccountStep(Run(accounts[..a], keyAt, inRange).value, accounts[a], keyAt, inRange).value.blocks[a]
  {
    RunPrefix(accounts, keyAt, inRange, a + 1);
    var q := accounts[..a + 1];
    assert q[..a] == accounts[..a] && q[a] == accounts[a];
    RunShape(q, keyAt, inRange);
    assert Run(q, keyAt, inRange) == AccountStep(Run(accounts[..a], keyAt, inRange).value, accounts[a], keyAt, inRange);
    assert Run(accounts, keyAt, inRange).value.blocks[a] == Run(accounts, keyAt, inRange).value.blocks[..a + 1][a];
  }

  lemma {:induction false} ClaimedByContains(accounts: seq<AccountConfig>, inRange: RangeExpander, a: nat)
    requires AllRangesExpand(accounts, inRange) && a < |accounts|
    ensures RangeIds(RangesOf(accounts[a]), inRange) - ItemIds(accounts[a].gasObjects) <= ClaimedBy(accounts, inRange)
  {
    var n := |accounts| - 1;
    PrefixExpands(accounts, inRange, n);
    if a < n {
      assert accounts[..n][a] == accounts[a];
      ClaimedByContains(accounts[..n], inRange, a);
    }
  }

  /** The gas objects of every account, in account order, when generation succeeds. */
  ghost function AccountBlocks(accounts: seq<AccountConfig>, keyAt: KeySource, inRange: RangeExpander)
    : (blocks: seq<seq<GasObject>>)
    requires AllRangesExpand(accounts, inRange)
    ensures |blocks| == |accounts|
  {
    RunFailsIff(accounts, keyAt, inRange);
    RunShape(accounts, keyAt, inRange);
    Run(accounts, keyAt, inRange).value.blocks
  }

  /** `generate_accounts` fails exactly when some range of some account fails to
      expand. */
  lemma GenerateAccountsFailsIff(accounts: seq<AccountConfig>, keyAt: KeySource, inRange: RangeExpander)
    ensures GenerateAccountsSpec(accounts, keyAt, inRange).Ok? <==> AllRangesExpand(accounts, inRange)
  {
    RunFailsIff(accounts, keyAt, inRange);
  }

  /** One key pair is drawn per account without an address, in account order, and
      nothing else draws from the RNG. */
  lemma GeneratedKeysAreDrawnForAddresslessAccounts(accounts: seq<AccountConfig>, keyAt: KeySource, inRange: RangeExpander)
    requires GenerateAccountsSpec(accounts, keyAt, inRange).Ok?
    ensures |GenerateAccountsSpec(accounts, keyAt, inRange).value.0| == AddresslessCount(accounts)
    ensures forall k | 0 <= k < AddresslessCount(accounts) ::
              GenerateAccountsSpec(accounts, keyAt, inRange).value.0[k] == keyAt(k).1
  {
    RunShape(accounts, keyAt, inRange);
  }

  /** The facts about one account's block, read off the step that appended it. */
  lemma BlockFacts(accounts: seq<AccountConfig>, keyAt: KeySource, inRange: RangeExpander, a: nat)
    requires AllRangesExpand(accounts, inRange) && a < |accounts|
    ensures AllRangesExpand(accounts[..a], inRange)
    ensures var block := AccountBlocks(accounts, keyAt, inRange)[a];
            && StrictlyAscending(block)
            && OwnedBy(block, OwnerOf(accounts[a], AddresslessCount(accounts[..a]), keyAt))
            && ValuedAsConfigured(block, accounts[a], inRange)
            && Ids(block)
               == (ItemIds(accounts[a].gasObjects) + RangeIds(RangesOf(accounts[a]), inRange))
                  - ClaimedBy(accounts[..a], inRange)
  {
    RunFailsIff(accounts, keyAt, inRange);
    RunBlockAt(accounts, keyAt, inRange, a);
    var g := Run(accounts[..a], keyAt, inRange).value;
    RunShape(accounts[..a], keyAt, inRange);
    RunClaimed(accounts[..a], keyAt, inRange);
    AccountStepBlock(g, accounts[a], keyAt, inRange);
    AccountStepIds(g, accounts[a], keyAt, inRange);
  }

  /** The gas objects are one block per account, concatenated in account order. Each
      block is strictly ascending by id, owned by the account (its address, or the
      address of the key drawn for it), holds exactly the ids the account names that no
      earlier account's range claimed, and values each object as configured. */
  lemma GeneratedObjectsByAccount(accounts: seq<AccountConfig>, keyAt: KeySource, inRange: RangeExpander)
    requires AllRangesExpand(accounts, inRange)
    ensures GenerateAccountsSpec(accounts, keyAt, inRange).Ok?
    ensures GenerateAccountsSpec(accounts, keyAt, inRange).value.1 == Flatten(AccountBlocks(accounts, keyAt, inRange))
    ensures forall a | 0 <= a < |accounts| ::
              AllRangesExpand(accounts[..a], inRange)
              && StrictlyAscending(AccountBlocks(accounts, keyAt, inRange)[a])
              && OwnedBy(AccountBlocks(accounts, keyAt, inRange)[a],
                         OwnerOf(accounts[a], AddresslessCount(accounts[..a]), keyAt))
              && ValuedAsConfigured(AccountBlocks(accounts, keyAt, inRange)[a], accounts[a], inRange)
              && Ids(AccountBlocks(accounts, keyAt, inRange)[a])
                 == (ItemIds(accounts[a].gasObjects) + RangeIds(RangesOf(accounts[a]), inRange))
                    - ClaimedBy(accounts[..a], inRange)
  {
    RunFailsIff(accounts, keyAt, inRange);
    forall a | 0 <= a < |accounts|
      ensures AllRangesExpand(accounts[..a], inRange)
              && StrictlyAscending(AccountBlocks(accounts, keyAt, inRange)[a])
              && OwnedBy(AccountBlocks(accounts, keyAt, inRange)[a],
                         OwnerOf(accounts[a], AddresslessCount(accounts[..a]), keyAt))
              && ValuedAsConfigured(AccountBlocks(accounts, keyAt, inRange)[a], accounts[a], inRange)
              && Ids(AccountBlocks(accounts, keyAt, inRange)[a])
                 == (ItemIds(accounts[a].gasObjects) + RangeIds(RangesOf(accounts[a]), inRange))
                    - ClaimedBy(accounts[..a], inRange)
    {
      BlockFacts(accounts, keyAt, inRange, a);
    }
  }

  /** Ranged ids are handed out once: when two accounts receive the same id, the earlier
      one received it as an itemised object (items do not claim their ids). */
  lemma SharedIdsAreItemisedByTheEarlierAccount(accounts: seq<AccountConfig>, keyAt: KeySource, inRange: RangeExpander,
                                                a: nat, b: nat, id: ObjectId)
    requires AllRangesExpand(accounts, inRange)
    requires a < b < |accounts|
    requires id in Ids(AccountBlocks(accounts, keyAt, inRange)[a])
    requires id in Ids(AccountBlocks(accounts, keyAt, inRange)[b])
    ensures id in ItemIds(accounts[a].gasObjects)
  {
    BlockFacts(accounts, keyAt, inRange, a);
    BlockFacts(accounts, keyAt, inRange, b);
    ClaimedByContains(accounts[..b], inRange, a);
    assert accounts[..b][a] == accounts[a];
  }

  /** The itemised loop of `generate_accounts` (lines 72-76). */
  method PopulateItemised(items: seq<ObjectConfig>, allPreloadObjectsSet: set<ObjectId>)
    returns (preloadObjectsMap: map<ObjectId, U64>)
    ensures preloadObjectsMap == InsertItems(map[], items, allPreloadObjectsSet)
  {
    preloadObjectsMap := map[];
    for i := 0 to |items|
      invariant preloadObjectsMap == InsertItems(map[], items[..i], allPreloadObjectsSet)
    {
      assert items[..i + 1][..i] == items[..i];
      var q := items[i];
      if q.objectId !in allPreloadObjectsSet {
        preloadObjectsMap := preloadObjectsMap[q.objectId := q.gasValue];
      }
    }
    assert items[..|items|] == items;
  }

  /** The loop over one range's ids (lines 83-90). */
  method PopulateRangeIds(st: Claims, ids: seq<ObjectId>, gasValue: U64) returns (r: Claims)
    ensures r == InsertRangeIds(st, ids, gasValue)
  {
    var preloadObjectsMap: map<ObjectId, U64> := st.objects;
    var allPreloadObjectsSet: set<ObjectId> := st.claimed;
    for k := 0 to |ids|
      invariant Claims(preloadObjectsMap, allPreloadObjectsSet) == InsertRangeIds(st, ids[..k], gasValue)
    {
      assert ids[..k + 1][..k] == ids[..k];
      var objectId := ids[k];
      if objectId !in preloadObjectsMap && objectId !in allPreloadObjectsSet {
        preloadObjectsMap := preloadObjectsMap[objectId := gasValue];
        allPreloadObjectsSet := allPreloadObjectsSet + {objectId};
      }
    }
    assert ids[..|ids|] == ids;
    r := Claims(preloadObjectsMap, allPreloadObjectsSet);
  }

  /** The loop over an account's ranges (lines 79-92); the first range that fails to
      expand ends `generate_accounts` with its error. */
  method PopulateRanged(st: Claims, ranges: seq<ObjectConfigRange>, inRange: RangeExpander)
    returns (r: Result<Claims, RangeError>)
    ensures r == InsertRanges(st, ranges, inRange)
  {
    var current := st;
    for j := 0 to |ranges|
      invariant InsertRanges(current, ranges[j..], inRange) == InsertRanges(st, ranges, inRange)
    {
      assert ranges[j..][0] == ranges[j] && ranges[j..][1..] == ranges[j + 1..];
      var expanded := inRange(ranges[j].offset, ranges[j].count);
      if expanded.Err? {
        return Err(expanded.error);
      }
      current := PopulateRangeIds(current, expanded.value, ranges[j].gasValue);
    }
    assert ranges[|ranges|..] == [];
    return Ok(current);
  }

  /** Draining the `BTreeMap` in key order into gas objects (lines 94-97). */
  method EmitObjects(preloadObjectsMap: map<ObjectId, U64>, address: SuiAddress)
    returns (objects: seq<GasObject>)
    ensures objects == SortedObjects(preloadObjectsMap, address)
  {
    objects := [];
    var remaining := preloadObjectsMap;
    while |remaining| > 0
      invariant objects + SortedObjects(remaining, address) == SortedObjects(preloadObjectsMap, address)
      decreases |remaining|
    {
      assert |remaining.Keys| == |remaining|;
      LeastExists(remaining.Keys);
      var objectId :| IsLeast(objectId, remaining.Keys);
      SortedObjectsUnfold(remaining, address, objectId);
      var gasObject := GasObject(objectId, address, remaining[objectId]);
      ghost var tail := SortedObjects(remaining - {objectId}, address);
      assert (objects + [gasObject]) + tail == objects + ([gasObject] + tail);
      objects := objects + [gasObject];
      remaining := remaining - {objectId};
    }
  }

  /** `GenesisConfig::generate_accounts`: for each account, its address (or a freshly
      drawn key pair's), its itemised objects, then its ranges' objects, then the map
      emitted in ascending id order. The result is exactly `GenerateAccountsSpec`, so the
      lemmas about it describe what this method returns. */
  method GenerateAccounts(accounts: seq<AccountConfig>, keyAt: KeySource, inRange: RangeExpander)
    returns (r: Result<(seq<AccountKeyPair>, seq<GasObject>), RangeError>)
    ensures r == GenerateAccountsSpec(accounts, keyAt, inRange)
  {
    var preloadObjects: seq<GasObject> := [];
    var allPreloadObjectsSet: set<ObjectId> := {};
    var keys: seq<AccountKeyPair> := [];
    ghost var blocks: seq<seq<GasObject>> := [];
    for n := 0 to |accounts|
      invariant preloadObjects == Flatten(blocks)
      invariant Run(accounts[..n], keyAt, inRange) == Ok(Generation(keys, allPreloadObjectsSet, blocks))
    {
      var account := accounts[n];
      ghost var before := Generation(keys, allPreloadObjectsSet, blocks);
      assert accounts[..n + 1][..n] == accounts[..n] && accounts[..n + 1][n] == account;
      var address: SuiAddress;
      if account.address.Some? {
        address := account.address.value;
      } else {
        var (drawn, keyPair) := keyAt(|keys|);
        keys := keys + [keyPair];
        address := drawn;
      }
      assert address == OwnerOf(account, |before.keys|, keyAt);

      var preloadObjectsMap := PopulateItemised(account.gasObjects, allPreloadObjectsSet);
      var st := Claims(preloadObjectsMap, allPreloadObjectsSet);
      if account.gasObjectRanges.Some? {
        var ranged := PopulateRanged(st, account.gasObjectRanges.value, inRange);
        if ranged.Err? {
          RunErrorIsFinal(accounts, keyAt, inRange, n + 1);
          return Err(ranged.error);
        }
        st := ranged.value;
      }
      allPreloadObjectsSet := st.claimed;
      var block := EmitObjects(st.objects, address);
      preloadObjects := preloadObjects + block;
      assert (blocks + [block])[..|blocks|] == blocks;
      blocks := blocks + [block];
    }
    assert accounts[..|accounts|] == accounts;
    return Ok((keys, preloadObjects));
  }

  // ---------------------------------------------------------------------------
  // Local-testing genesis (custom_genesis, custom_genesis_with_addresses)

  /** What the k-th `ObjectID::random()` call yields. */
  type IdSource = nat -> ObjectId

  /** `count` itemised objects worth `DEFAULT_GAS_AMOUNT`, with the ids of draws `first`,
      `first + 1`, and so on. */
  function DrawnObjects(randomId: IdSource, first: nat, count: nat): seq<ObjectConfig> {
    seq(count, j requires 0 <= j < count => ObjectConfig(randomId(first + j), DEFAULT_GAS_AMOUNT))
  }

  /** The `a`-th account a local-testing constructor builds when each account takes
      `count` draws: no ranges, and an empty range list rather than none. */
  function DrawnAccount(address: Option<SuiAddress>, a: nat, count: nat, randomId: IdSource): AccountConfig {
    AccountConfig(address, DrawnObjects(randomId, a * count, count), Some([]))
  }

  /** The ids of draws `first` up to, not including, `first + count`. */
  function DrawnIds(randomId: IdSource, first: nat, count: nat): set<ObjectId> {
    set j | first <= j < first + count :: randomId(j)
  }

  /** The objects of one account, drawn one `ObjectID::random()` at a time from draw
      `drawn` on (the inner loop of both constructors). */
  method DrawAccountObjects(numObjectsPerAccount: nat, randomId: IdSource, drawn: nat)
    returns (objects: seq<ObjectConfig>, next: nat)
    ensures objects == DrawnObjects(randomId, drawn, numObjectsPerAccount)
    ensures next == drawn + numObjectsPerAccount
  {
    objects := [];
    next := drawn;
    for j := 0 to numObjectsPerAccount
      invariant next == drawn + j
      invariant objects == DrawnObjects(randomId, drawn, j)
    {
      objects := objects + [ObjectConfig(randomId(next), DEFAULT_GAS_AMOUNT)];
      next := next + 1;
    }
  }

  /** `GenesisConfig::custom_genesis`. The source asserts `num_authorities > 0` and uses
      it for nothing else: the committee size stays the default's. One account per
      requested account, in order, none with an address, each with
      `numObjectsPerAccount` fresh objects of `DEFAULT_GAS_AMOUNT`; every other field is
      the default's. */
  method CustomGenesis(numAuthorities: nat, numAccounts: nat, numObjectsPerAccount: nat,
                       randomId: IdSource, defaults: NodeDefaults)
    returns (config: GenesisConfig)
    requires numAuthorities > 0
    ensures config == Default(defaults).(accounts := config.accounts)
    ensures config.committeeSize == DEFAULT_NUMBER_OF_AUTHORITIES && config.validatorConfigInfo.None?
    ensures |config.accounts| == numAccounts
    ensures forall a | 0 <= a < numAccounts ::
              config.accounts[a] == DrawnAccount(None, a, numObjectsPerAccount, randomId)
  {
    var accounts: seq<AccountConfig> := [];
    var drawn := 0;
    for a := 0 to numAccounts
      invariant drawn == a * numObjectsPerAccount
      invariant |accounts| == a
      invariant forall b | 0 <= b < a :: accounts[b] == DrawnAccount(None, b, numObjectsPerAccount, randomId)
    {
      var objects;
      objects, drawn := DrawAccountObjects(numObjectsPerAccount, randomId, drawn);
      accounts := accounts + [AccountConfig(None, objects, Some([]))];
      assert (a + 1) * numObjectsPerAccount == a * numObjectsPerAccount + numObjectsPerAccount;
    }
    config := Default(defaults).(accounts := accounts);
  }

  /** `GenesisConfig::custom_genesis_with_addresses`: as `CustomGenesis`, with one account
      per address, in order, owning its address. */
  method CustomGenesisWithAddresses(numAuthorities: nat, addresses: seq<SuiAddress>, numObjectsPerAccount: nat,
                                    randomId: IdSource, defaults: NodeDefaults)
    returns (config: GenesisConfig)
    requires numAuthorities > 0
    ensures config == Default(defaults).(accounts := config.accounts)
    ensures config.committeeSize == DEFAULT_NUMBER_OF_AUTHORITIES && config.validatorConfigInfo.None?
    ensures |config.accounts| == |addresses|
    ensures forall a | 0 <= a < |addresses| ::
              config.accounts[a] == DrawnAccount(Some(addresses[a]), a, numObjectsPerAccount, randomId)
  {
    var accounts: seq<AccountConfig> := [];
    var drawn := 0;
    for a := 0 to |addresses|
      invariant drawn == a * numObjectsPerAccount
      invariant |accounts| == a
      invariant forall b | 0 <= b < a ::
                  accounts[b] == DrawnAccount(Some(addresses[b]), b, numObjectsPerAccount, randomId)
    {
      var objects;
      objects, drawn := DrawAccountObjects(numObjectsPerAccount, randomId, drawn);
      accounts := accounts + [AccountConfig(Some(addresses[a]), objects, Some([]))];
      assert (a + 1) * numObjectsPerAccount == a * numObjectsPerAccount + numObjectsPerAccount;
    }
    config := Default(defaults).(accounts := accounts);
  }

  /** `GenesisConfig::for_local_testing`: five address-less accounts of five objects. */
  method ForLocalTesting(randomId: IdSource, defaults: NodeDefaults) returns (config: GenesisConfig)
    ensures config == Default(defaults).(accounts := config.accounts)
    ensures |config.accounts| == DEFAULT_NUMBER_OF_ACCOUNT
    ensures forall a | 0 <= a < DEFAULT_NUMBER_OF_ACCOUNT ::
              config.accounts[a] == DrawnAccount(None, a, DEFAULT_NUMBER_OF_OBJECT_PER_ACCOUNT, randomId)
  {
    config := CustomGenesis(DEFAULT_NUMBER_OF_AUTHORITIES, DEFAULT_NUMBER_OF_ACCOUNT,
                            DEFAULT_NUMBER_OF_OBJECT_PER_ACCOUNT, randomId, defaults);
  }

  /** `GenesisConfig::for_local_testing_with_addresses`: one account of five objects per
      address. */
  method ForLocalTestingWithAddresses(addresses: seq<SuiAddress>, randomId: IdSource, defaults: NodeDefaults)
    returns (config: GenesisConfig)
    ensures config == Default(defaults).(accounts := config.accounts)
    ensures |config.accounts| == |addresses|
    ensures forall a | 0 <= a < |addresses| ::
              config.accounts[a] == DrawnAccount(Some(addresses[a]), a, DEFAULT_NUMBER_OF_OBJECT_PER_ACCOUNT, randomId)
  {
    config := CustomGenesisWithAddresses(DEFAULT_NUMBER_OF_AUTHORITIES, addresses,
                                         DEFAULT_NUMBER_OF_OBJECT_PER_ACCOUNT, randomId, defaults);
  }

  /** Accounts that name no ranges, as the local-testing constructors build. */
  predicate ItemisedOnly(accounts: seq<AccountConfig>) {
    forall a | 0 <= a < |accounts| :: RangesOf(accounts[a]) == []
  }

  lemma {:induction false} ItemisedOnlyClaimsNothing(accounts: seq<AccountConfig>, inRange: RangeExpander)
    requires ItemisedOnly(accounts)
    ensures AllRangesExpand(accounts, inRange) && ClaimedBy(accounts, inRange) == {}
  {
    if accounts != [] {
      var n := |accounts| - 1;
      forall a | 0 <= a < n ensures RangesOf(accounts[..n][a]) == [] {
        assert accounts[..n][a] == accounts[a];
      }
      ItemisedOnlyClaimsNothing(accounts[..n], inRange);
      PrefixExpands(accounts, inRange, n);
    }
  }

  /** How many of the first accounts have no address, when either all or none have one. */
  lemma {:induction false} UniformAddresslessCount(accounts: seq<AccountConfig>)
    ensures (forall a | 0 <= a < |accounts| :: accounts[a].address.None?) ==> AddresslessCount(accounts) == |accounts|
    ensures (forall a | 0 <= a < |accounts| :: accounts[a].address.Some?) ==> AddresslessCount(accounts) == 0
  {
    if accounts != [] {
      var n := |accounts| - 1;
      forall a | 0 <= a < n ensures accounts[..n][a] == accounts[a] {
      }
      UniformAddresslessCount(accounts[..n]);
    }
  }

  lemma AddresslessPrefix(accounts: seq<AccountConfig>, a: nat)
    requires a <= |accounts| && forall b | 0 <= b < |accounts| :: accounts[b].address.None?
    ensures AddresslessCount(accounts[..a]) == a
  {
    forall b | 0 <= b < a ensures accounts[..a][b].address.None? {
      assert accounts[..a][b] == accounts[b];
    }
    UniformAddresslessCount(accounts[..a]);
  }

  /** Generating from accounts without ranges cannot fail, and each account receives
      exactly its itemised ids: nothing is claimed, so no earlier account takes any. */
  lemma ItemisedOnlyBlock(accounts: seq<AccountConfig>, keyAt: KeySource, inRange: RangeExpander, a: nat)
    requires ItemisedOnly(accounts) && a < |accounts|
    ensures AllRangesExpand(accounts, inRange)
    ensures var block := AccountBlocks(accounts, keyAt, inRange)[a];
            && StrictlyAscending(block)
            && OwnedBy(block, OwnerOf(accounts[a], AddresslessCount(accounts[..a]), keyAt))
            && Ids(block) == ItemIds(accounts[a].gasObjects)
            && forall o | o in block && o.id in ItemIds(accounts[a].gasObjects) ::
                 o.gasValue == LastItemValue(accounts[a].gasObjects, o.id)
  {
    ItemisedOnlyClaimsNothing(accounts, inRange);
    BlockFacts(accounts, keyAt, inRange, a);
    assert ItemisedOnly(accounts[..a]) by {
      forall b | 0 <= b < a ensures RangesOf(accounts[..a][b]) == [] {
        assert accounts[..a][b] == accounts[b];
      }
    }
    ItemisedOnlyClaimsNothing(accounts[..a], inRange);
  }

  /** The ids of a drawn account are its draws, all worth `DEFAULT_GAS_AMOUNT`. */
  lemma DrawnAccountItems(address: Option<SuiAddress>, a: nat, count: nat, randomId: IdSource)
    ensures ItemIds(DrawnAccount(address, a, count, randomId).gasObjects) == DrawnIds(randomId, a * count, count)
    ensures forall id | id in DrawnIds(randomId, a * count, count) ::
              LastItemValue(DrawnAccount(address, a, count, randomId).gasObjects, id) == DEFAULT_GAS_AMOUNT
  {
    var items := DrawnAccount(address, a, count, randomId).gasObjects;
    var first := a * count;
    forall id ensures id in ItemIds(items) <==> id in DrawnIds(randomId, first, count) {
      if id in ItemIds(items) {
        var q :| q in items && q.objectId == id;
        var j :| 0 <= j < count && items[j] == q;
        assert first <= first + j < first + count;
      }
      if id in DrawnIds(randomId, first, count) {
        var k :| first <= k < first + count && randomId(k) == id;
        assert items[k - first] in items;
      }
    }
  }

  /** A block of local-testing gas objects: exactly `ids`, in ascending order, all owned
      by `owner` and worth `DEFAULT_GAS_AMOUNT`. */
  predicate HoldsDrawnObjects(block: seq<GasObject>, owner: SuiAddress, ids: set<ObjectId>) {
    && StrictlyAscending(block)
    && OwnedBy(block, owner)
    && Ids(block) == ids
    && forall o | o in block :: o.gasValue == DEFAULT_GAS_AMOUNT
  }

  /** One drawn account's block: its draws' ids, ascending, each worth
      `DEFAULT_GAS_AMOUNT`. */
  lemma DrawnAccountBlock(accounts: seq<AccountConfig>, keyAt: KeySource, inRange: RangeExpander, a: nat,
                          address: Option<SuiAddress>, count: nat, randomId: IdSource)
    requires ItemisedOnly(accounts) && a < |accounts|
    requires accounts[a] == DrawnAccount(address, a, count, randomId)
    ensures AllRangesExpand(accounts, inRange)
    ensures var block := AccountBlocks(accounts, keyAt, inRange)[a];
            HoldsDrawnObjects(block, OwnerOf(accounts[a], AddresslessCount(accounts[..a]), keyAt),
                              DrawnIds(randomId, a * count, count))
  {
    ItemisedOnlyBlock(accounts, keyAt, inRange, a);
    DrawnAccountItems(address, a, count, randomId);
    var block := AccountBlocks(accounts, keyAt, inRange)[a];
    forall o | o in block ensures o.gasValue == DEFAULT_GAS_AMOUNT {
      assert o.id in Ids(block);
    }
  }

  /** The accounts `custom_genesis` builds generate without error, drawing one key per
      account: key `a` for account `a`. */
  lemma CustomGenesisKeys(accounts: seq<AccountConfig>, count: nat, randomId: IdSource,
                          keyAt: KeySource, inRange: RangeExpander)
    requires forall a | 0 <= a < |accounts| :: accounts[a] == DrawnAccount(None, a, count, randomId)
    ensures GenerateAccountsSpec(accounts, keyAt, inRange).Ok?
    ensures |GenerateAccountsSpec(accounts, keyAt, inRange).value.0| == |accounts|
    ensures forall k | 0 <= k < |accounts| :: GenerateAccountsSpec(accounts, keyAt, inRange).value.0[k] == keyAt(k).1
  {
    assert ItemisedOnly(accounts);
    ItemisedOnlyClaimsNothing(accounts, inRange);
    GenerateAccountsFailsIff(accounts, keyAt, inRange);
    GeneratedKeysAreDrawnForAddresslessAccounts(accounts, keyAt, inRange);
    UniformAddresslessCount(accounts);
  }

  /** Account `a` of `custom_genesis` owns, at the address of key `a`, exactly the ids of
      its own draws, in ascending order, each worth `DEFAULT_GAS_AMOUNT`. */
  lemma CustomGenesisBlocks(accounts: seq<AccountConfig>, count: nat, randomId: IdSource,
                            keyAt: KeySource, inRange: RangeExpander)
    requires forall a | 0 <= a < |accounts| :: accounts[a] == DrawnAccount(None, a, count, randomId)
    ensures AllRangesExpand(accounts, inRange)
    ensures forall a | 0 <= a < |accounts| ::
              HoldsDrawnObjects(AccountBlocks(accounts, keyAt, inRange)[a], keyAt(a).0,
                                DrawnIds(randomId, a * count, count))
  {
    assert ItemisedOnly(accounts);
    ItemisedOnlyClaimsNothing(accounts, inRange);
    assert forall b | 0 <= b < |accounts| :: accounts[b].address.None?;
    forall a | 0 <= a < |accounts|
      ensures HoldsDrawnObjects(AccountBlocks(accounts, keyAt, inRange)[a], keyAt(a).0,
                                DrawnIds(randomId, a * count, count))
    {
      DrawnAccountBlock(accounts, keyAt, inRange, a, None, count, randomId);
      AddresslessPrefix(accounts, a);
    }
  }

  /** The accounts `custom_genesis_with_addresses` builds generate without error and
      draw no key. */
  lemma CustomGenesisWithAddressesKeys(accounts: seq<AccountConfig>, addresses: seq<SuiAddress>, count: nat,
                                       randomId: IdSource, keyAt: KeySource, inRange: RangeExpander)
    requires |accounts| == |addresses|
    requires forall a | 0 <= a < |accounts| :: accounts[a] == DrawnAccount(Some(addresses[a]), a, count, randomId)
    ensures GenerateAccountsSpec(accounts, keyAt, inRange).Ok?
    ensures GenerateAccountsSpec(accounts, keyAt, inRange).value.0 == []
  {
    assert ItemisedOnly(accounts);
    ItemisedOnlyClaimsNothing(accounts, inRange);
    GenerateAccountsFailsIff(accounts, keyAt, inRange);
    GeneratedKeysAreDrawnForAddresslessAccounts(accounts, keyAt, inRange);
    UniformAddresslessCount(accounts);
  }

  /** Account `a` of `custom_genesis_with_addresses` owns, at address `a`, exactly the
      ids of its own draws, in ascending order, each worth `DEFAULT_GAS_AMOUNT`. */
  lemma CustomGenesisWithAddressesBlocks(accounts: seq<AccountConfig>, addresses: seq<SuiAddress>, count: nat,
                                         randomId: IdSource, keyAt: KeySource, inRange: RangeExpander)
    requires |accounts| == |addresses|
    requires forall a | 0 <= a < |accounts| :: accounts[a] == DrawnAccount(Some(addresses[a]), a, count, randomId)
    ensures AllRangesExpand(accounts, inRange)
    ensures forall a | 0 <= a < |accounts| ::
              HoldsDrawnObjects(AccountBlocks(accounts, keyAt, inRange)[a], addresses[a],
                                DrawnIds(randomId, a * count, count))
  {
    assert ItemisedOnly(accounts);
    ItemisedOnlyClaimsNothing(accounts, inRange);
    forall a | 0 <= a < |accounts|
      ensures HoldsDrawnObjects(AccountBlocks(accounts, keyAt, inRange)[a], addresses[a],
                                DrawnIds(randomId, a * count, count))
    {
      DrawnAccountBlock(accounts, keyAt, inRange, a, Some(addresses[a]), count, randomId);
    }
  }

  // ---------------------------------------------------------------------------
  // Benchmark genesis (new_for_benchmarks)

  /** A `StdRng` freshly seeded with `BENCHMARKS_RNG_SEED`: what its k-th key-pair
      generation or object-id draw yields. Each benchmark helper seeds its own, so every
      one of them reads the same stream from its start. */
  datatype BenchmarkRng = BenchmarkRng(
    authorityKey: nat -> AuthorityKeyPair,
    networkKey: nat -> NetworkKeyPair,
    objectId: nat -> ObjectId)

  /** `consensus_address` of every benchmark validator: `/ip4/127.0.0.1/tcp/8083/http`. */
  const BENCHMARK_CONSENSUS_ADDRESS: Endpoint := Endpoint("127.0.0.1", TcpHttp, 8083)

  /** `Ipv4Addr::new(0, 0, 0, 0)` */
  const UNSPECIFIED_IP: string := "0.0.0.0"

  /** `GenesisConfig::benchmark_gas_key`: the first generation of a fresh RNG, as an
      Ed25519 key. */
  function BenchmarkGasKey(rng: BenchmarkRng): SuiKeyPair {
    Ed25519(rng.networkKey(0))
  }

  /** `GenesisConfig::benchmark_gas_object_id_offsets`: the first `quantity` id draws of
      a fresh RNG. */
  function BenchmarkGasObjectIdOffsets(quantity: nat, rng: BenchmarkRng): seq<ObjectId> {
    var ids := seq(quantity, i requires 0 <= i < quantity => rng.objectId(i));
    assert forall i | 0 <= i < quantity :: ids[i] == rng.objectId(i);
    ids
  }

  /** Asking for fewer offsets yields a prefix of asking for more, so a load generator
      that knows fewer validators than there are still finds ids genesis created. */
  lemma BenchmarkOffsetsArePrefixes(q1: nat, q2: nat, rng: BenchmarkRng)
    requires q1 <= q2
    ensures |BenchmarkGasObjectIdOffsets(q2, rng)| == q2
    ensures BenchmarkGasObjectIdOffsets(q1, rng) == BenchmarkGasObjectIdOffsets(q2, rng)[..q1]
  {
  }

  /** The `i`-th validator of a benchmark network: the four key generations `4i` to
      `4i + 3` of the shared RNG, in the order the arguments are written. */
  function BenchmarkValidator(ip: string, i: nat, rng: BenchmarkRng, defaults: NodeDefaults): ValidatorConfigInfo {
    ValidatorConfigInfo(
      FromBaseIp(rng.authorityKey(4 * i), rng.networkKey(4 * i + 1), Ed25519(rng.networkKey(4 * i + 2)),
                 rng.networkKey(4 * i + 3), Some(UNSPECIFIED_IP), ip, BENCHMARKS_PORT_OFFSET, defaults),
      BENCHMARK_CONSENSUS_ADDRESS,
      None)
  }

  /** The gas ranges of a benchmark genesis: one per validator, from that validator's
      offset, `BENCHMARK_RANGE_COUNT` ids worth `u64::MAX` each. */
  function BenchmarkRanges(quantity: nat, rng: BenchmarkRng): seq<ObjectConfigRange> {
    var offsets := BenchmarkGasObjectIdOffsets(quantity, rng);
    seq(quantity, i requires 0 <= i < quantity => ObjectConfigRange(offsets[i], BENCHMARK_RANGE_COUNT, U64_MAX))
  }

  /** `GenesisConfig::new_for_benchmarks`. `addressOf` is `SuiAddress::from` on a key's
      public half. One validator per ip, at port offset 500, with its own four key
      generations; a committee of that size; one account, at the gas key's address, with
      no itemised objects and one range per validator; the chain starts at time 0 and
      gRPC limits are unset. */
  function NewForBenchmarks(ips: seq<string>, rng: BenchmarkRng, addressOf: SuiKeyPair -> SuiAddress,
                            defaults: NodeDefaults): (c: GenesisConfig)
    ensures c.validatorConfigInfo.Some? && |c.validatorConfigInfo.value| == |ips|
    ensures c.committeeSize == |ips|
    ensures forall i | 0 <= i < |ips| ::
              var info := c.validatorConfigInfo.value[i];
              && info.genesisInfo
                 == FromBaseIp(rng.authorityKey(4 * i), rng.networkKey(4 * i + 1), Ed25519(rng.networkKey(4 * i + 2)),
                               rng.networkKey(4 * i + 3), Some(UNSPECIFIED_IP), ips[i], BENCHMARKS_PORT_OFFSET, defaults)
              && info.genesisInfo.networkAddress.host == ips[i]
              && info.genesisInfo.p2pListenAddress.Some?
              && info.genesisInfo.p2pListenAddress.value.host == UNSPECIFIED_IP
              && Distinct(Ports(info.genesisInfo))
              && (forall p | p in Ports(info.genesisInfo) :: p % 1000 == BENCHMARKS_PORT_OFFSET)
              && info.genesisInfo.keyPair == rng.authorityKey(4 * i)
              && info.genesisInfo.workerKeyPair == rng.networkKey(4 * i + 1)
              && info.genesisInfo.accountKeyPair == Ed25519(rng.networkKey(4 * i + 2))
              && info.genesisInfo.networkKeyPair == rng.networkKey(4 * i + 3)
              && info.consensusAddress == BENCHMARK_CONSENSUS_ADDRESS
              && info.consensusInternalWorkerAddress.None?
    ensures |c.accounts| == 1
    ensures c.accounts[0].address == Some(addressOf(BenchmarkGasKey(rng)))
    ensures c.accounts[0].gasObjects == []
    ensures c.accounts[0].gasObjectRanges.Some?
    ensures |RangesOf(c.accounts[0])| == |ips|
    ensures forall i | 0 <= i < |ips| ::
              RangesOf(c.accounts[0])[i] == ObjectConfigRange(rng.objectId(i), BENCHMARK_RANGE_COUNT, U64_MAX)
    ensures c.parameters == ChainStartAtZero && c.grpcLoadShed.None? && c.grpcConcurrencyLimit.None?
  {
    var validators := seq(|ips|, i requires 0 <= i < |ips| => BenchmarkValidator(ips[i], i, rng, defaults));
    var account := AccountConfig(Some(addressOf(BenchmarkGasKey(rng))), [], Some(BenchmarkRanges(|ips|, rng)));
    GenesisConfig(Some(validators), ChainStartAtZero, |ips|, None, None, [account])
  }

  /** Generation from a single account: its one block is all the output. */
  lemma SingleAccountGeneration(account: AccountConfig, keyAt: KeySource, inRange: RangeExpander)
    requires Expands(RangesOf(account), inRange)
    ensures AllRangesExpand([account], inRange)
    ensures GenerateAccountsSpec([account], keyAt, inRange).Ok?
    ensures GenerateAccountsSpec([account], keyAt, inRange).value.0
            == if account.address.None? then [keyAt(0).1] else []
    ensures var objs := GenerateAccountsSpec([account], keyAt, inRange).value.1;
            && StrictlyAscending(objs)
            && OwnedBy(objs, OwnerOf(account, 0, keyAt))
            && ValuedAsConfigured(objs, account, inRange)
            && Ids(objs) == ItemIds(account.gasObjects) + RangeIds(RangesOf(account), inRange)
  {
    var accounts := [account];
    assert AllRangesExpand(accounts, inRange);
    GeneratedObjectsByAccount(accounts, keyAt, inRange);
    GeneratedKeysAreDrawnForAddresslessAccounts(accounts, keyAt, inRange);
    assert accounts[..0] == [];
    var blocks := AccountBlocks(accounts, keyAt, inRange);
    assert Flatten(blocks) == blocks[0] by {
      assert blocks[..0] == [];
    }
  }

  /** Generating the benchmark genesis's accounts fails exactly when one validator's
      range fails to expand, and draws no key. */
  lemma BenchmarkGenesisFailsIff(ips: seq<string>, rng: BenchmarkRng, addressOf: SuiKeyPair -> SuiAddress,
                                 defaults: NodeDefaults, keyAt: KeySource, inRange: RangeExpander)
    ensures var r := GenerateAccountsSpec(NewForBenchmarks(ips, rng, addressOf, defaults).accounts, keyAt, inRange);
            && (r.Ok? <==> forall i | 0 <= i < |ips| :: inRange(rng.objectId(i), BENCHMARK_RANGE_COUNT).Ok?)
            && (r.Ok? ==> r.value.0 == [])
  {
    var c := NewForBenchmarks(ips, rng, addressOf, defaults);
    var ranges := RangesOf(c.accounts[0]);
    assert c.accounts == [c.accounts[0]];
    GenerateAccountsFailsIff(c.accounts, keyAt, inRange);
    assert AllRangesExpand(c.accounts, inRange) <==> Expands(ranges, inRange);
    if Expands(ranges, inRange) {
      SingleAccountGeneration(c.accounts[0], keyAt, inRange);
    }
  }

  /** When it succeeds, the benchmark genesis's gas objects are exactly the ids of the
      validators' ranges, in ascending order, all owned by the benchmark gas key's
      address and worth `u64::MAX`. */
  lemma BenchmarkGenesisObjects(ips: seq<string>, rng: BenchmarkRng, addressOf: SuiKeyPair -> SuiAddress,
                                defaults: NodeDefaults, keyAt: KeySource, inRange: RangeExpander)
    requires forall i | 0 <= i < |ips| :: inRange(rng.objectId(i), BENCHMARK_RANGE_COUNT).Ok?
    ensures var c := NewForBenchmarks(ips, rng, addressOf, defaults);
            && Expands(RangesOf(c.accounts[0]), inRange)
            && GenerateAccountsSpec(c.accounts, keyAt, inRange).Ok?
            && var objs := GenerateAccountsSpec(c.accounts, keyAt, inRange).value.1;
            && StrictlyAscending(objs)
            && OwnedBy(objs, addressOf(BenchmarkGasKey(rng)))
            && (forall o | o in objs :: o.gasValue == U64_MAX)
            && Ids(objs) == RangeIds(RangesOf(c.accounts[0]), inRange)
  {
    var c := NewForBenchmarks(ips, rng, addressOf, defaults);
    var account := c.accounts[0];
    assert c.accounts == [account];
    SingleAccountGeneration(account, keyAt, inRange);
    var objs := GenerateAccountsSpec(c.accounts, keyAt, inRange).value.1;
    forall o | o in objs ensures o.gasValue == U64_MAX {
      var ranges := RangesOf(account);
      var i :| 0 <= i < |ranges| && ranges[i].gasValue == FirstRangeValue(ranges, inRange, o.id);
    }
  }
}
