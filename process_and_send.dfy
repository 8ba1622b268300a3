/** Stage A, cmd/process_and_send/main.go: read the asset list, ask for
    each asset's genres, and store the aggregated records under
    aggregated_data.json. */
module ProcessAndSend {
  import opened Wrappers
  import opened DsClient
  import opened Artifacts
  import opened Aggregation

  /** The asset list stored at the configured key, when it parses. */
  function StoredAssets(objects: map<Location, Blob>, cfg: Config): Option<seq<AssetInfo>>
  {
    var loc := AssetListLocation(cfg);
    if loc in objects && DecodeAssets(objects[loc]).Ok? then Some(DecodeAssets(objects[loc]).value) else None
  }

  /** The object Stage A uploads for a given asset list. */
  function StageOutput(assets: seq<AssetInfo>, service: nat -> HttpExchange): Blob
  {
    EncodeAggregated(Aggregate(assets, Replies(service, |assets|)))
  }

  /** `Handler`.  `service(i)` is the round trip of the i-th prediction
      request, `faults` says which calls to the store, the body reader and
      the encoder fail, and `requested` lists the assets sent for
      prediction. */
  method Handler(cfg: Config, store: ObjectStore, service: nat -> HttpExchange, faults: Faults)
    returns (err: Option<Error>, ghost requested: seq<AssetInfo>)
    modifies store
    // predictions are requested exactly when the asset list was fetched, read and
    // parsed, and then for every stored asset, once each and in order
    ensures requested ==
              if !faults.get && !faults.read && StoredAssets(old(store.objects), cfg).Some?
              then StoredAssets(old(store.objects), cfg).value else []
    // one upload, to aggregated_data.json and holding the aggregation, exactly
    // when additionally the encoding succeeded; otherwise none
    ensures store.uploads ==
              if !faults.get && !faults.read && StoredAssets(old(store.objects), cfg).Some? && !faults.encode
              then old(store.uploads)
                     + [(AggregatedLocation(cfg), StageOutput(StoredAssets(old(store.objects), cfg).value, service))]
              else old(store.uploads)
    // nil exactly when every step succeeded; the store changes at that key only
    ensures err.None? <==>
              !faults.get && !faults.read && StoredAssets(old(store.objects), cfg).Some?
              && !faults.encode && !faults.put
    ensures err.None? ==>
              store.objects == old(store.objects)[AggregatedLocation(cfg) :=
                                 StageOutput(StoredAssets(old(store.objects), cfg).value, service)]
    ensures err.Some? ==> store.objects == old(store.objects)
  {
    requested := [];
    var fetched := store.GetObject(AssetListLocation(cfg), faults.get);
    if fetched.Err? {
      err := Some(fetched.error);
      return;
    }
    var data := ReadAll(fetched.value, faults.read);
    if data.Err? {
      err := Some(data.error);
      return;
    }
    var parsed := DecodeAssets(data.value);
    if parsed.Err? {
      err := Some(parsed.error);
      return;
    }
    var aggregated;
    aggregated, requested := AggregateAssets(parsed.value, service);
    var encoded := Marshal(aggregated, faults.encode);
    if encoded.Err? {
      err := Some(encoded.error);
      return;
    }
    err := store.PutObject(AggregatedLocation(cfg), encoded.value, faults.put);
  }
}
