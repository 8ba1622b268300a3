/** The object store both stages talk to, the objects kept in it, and the
    configuration that names them.  Stored objects are abstract values: the
    JSON and CSV byte formats are not modelled, so an object is the value
    that was encoded into it. */
module Artifacts {
  import opened Wrappers
  import opened DsClient

  /** AggregatedData: an asset joined with its predicted genres.  The same
      record is declared in both stages and in the CSV package. */
  datatype AggregatedData = AggregatedData(id: string, title: string, genres: seq<string>)

  /** The part of the configuration the stages read: the bucket, the key of
      the asset list and the prefix of the report key. */
  datatype Config = Config(bucket: string, assetInfoKey: string, recommendationsKey: string)

  datatype Location = Location(bucket: string, key: string)

  /** The contents of a stored object. */
  datatype Blob =
    | AssetListJson(assets: seq<AssetInfo>)           // a JSON array of AssetInfo
    | AggregatedJson(records: seq<AggregatedData>)     // a JSON array of AggregatedData
    | CsvText(rows: seq<seq<string>>)                  // a CSV file, row by row
    | OtherBytes(bytes: seq<bv8>)                      // anything else

  /** Which of a stage's calls to its environment fail: fetching the input
      object, reading its body, encoding the output, storing the output.
      Each failure is an input to the model, as the prediction service is. */
  datatype Faults = Faults(get: bool, read: bool, encode: bool, put: bool)

  const AggregatedKey: string := "aggregated_data.json"
  const ReportName: string := "recommendations.csv"

  /** Where Stage A reads the asset list. */
  function AssetListLocation(cfg: Config): Location
  {
    Location(cfg.bucket, cfg.assetInfoKey)
  }

  /** The hand-off object between the stages: a fixed key in the bucket. */
  function AggregatedLocation(cfg: Config): Location
  {
    Location(cfg.bucket, AggregatedKey)
  }

  /** The report object: the configured prefix followed by the file name. */
  function ReportLocation(cfg: Config): Location
  {
    Location(cfg.bucket, cfg.recommendationsKey + ReportName)
  }

  /** `json.Unmarshal` into `[]ds.AssetInfo`. */
  function DecodeAssets(b: Blob): Result<seq<AssetInfo>, Error>
  {
    if b.AssetListJson? then Ok(b.assets) else Err(Failure("json: cannot unmarshal into []ds.AssetInfo"))
  }

  /** `json.Marshal` of `[]AggregatedData`. */
  function EncodeAggregated(records: seq<AggregatedData>): (b: Blob)
    ensures DecodeAggregated(b) == Ok(records)
  {
    AggregatedJson(records)
  }

  /** Decoding the hand-off object into `[]AggregatedData`. */
  function DecodeAggregated(b: Blob): Result<seq<AggregatedData>, Error>
  {
    if b.AggregatedJson? then Ok(b.records) else Err(Failure("json: cannot unmarshal into []AggregatedData"))
  }

  /** Reading a fetched object's body to the end (`ioutil.ReadAll`); the
      read fails exactly when `fails` says the stream breaks. */
  method ReadAll(body: Blob, fails: bool) returns (r: Result<Blob, Error>)
    ensures r.Err? <==> fails
    ensures r.Ok? ==> r.value == body
  {
    if fails {
      var detail: string :| true;
      r := Err(Failure(detail));
    } else {
      r := Ok(body);
    }
  }

  /** `json.Marshal` of the aggregated records; the model lets the encoder
      report an error, as the caller's check allows for. */
  method Marshal(records: seq<AggregatedData>, fails: bool) returns (r: Result<Blob, Error>)
    ensures r.Err? <==> fails
    ensures r.Ok? ==> r.value == EncodeAggregated(records)
  {
    if fails {
      var detail: string :| true;
      r := Err(Failure(detail));
    } else {
      r := Ok(EncodeAggregated(records));
    }
  }

  /** The object store.  `objects` is what is stored; `uploads` records
      every PutObject request in order, whether or not it succeeded. */
  class ObjectStore {
    var objects: map<Location, Blob>
    var uploads: seq<(Location, Blob)>

    constructor (initial: map<Location, Blob>)
      ensures objects == initial && uploads == []
    {
      objects := initial;
      uploads := [];
    }

    /** GetObject: a missing key is an error, and so is a request that
        `fails` (network, permissions) on a present key. */
    method GetObject(loc: Location, fails: bool) returns (r: Result<Blob, Error>)
      ensures r.Ok? <==> loc in objects && !fails
      ensures r.Ok? ==> r.value == objects[loc]
    {
      if fails || loc !in objects {
        r := Err(Failure("NoSuchKey"));
      } else {
        r := Ok(objects[loc]);
      }
    }

    /** PutObject: the request is recorded; unless it `fails`, the object
        at `loc` is replaced, and on failure nothing is stored. */
    method PutObject(loc: Location, body: Blob, fails: bool) returns (err: Option<Error>)
      modifies this
      ensures uploads == old(uploads) + [(loc, body)]
      ensures err.Some? <==> fails
      ensures err.None? ==> objects == old(objects)[loc := body]
      ensures err.Some? ==> objects == old(objects)
    {
      uploads := uploads + [(loc, body)];
      if fails {
        var detail: string :| true;
        err := Some(Failure(detail));
      } else {
        objects := objects[loc := body];
        err := None;
      }
    }
  }
}
