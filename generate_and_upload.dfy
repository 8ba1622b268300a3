/** Stage B, cmd/generate_and_upload_csv/main.go: read aggregated_data.json,
    render it as CSV, and store the report under the recommendations
    prefix. */
module GenerateAndUpload {
  import opened Wrappers
  import opened Artifacts
  import opened Csv

  /** The records stored under aggregated_data.json, when they decode. */
  function StoredRecords(objects: map<Location, Blob>, cfg: Config): Option<seq<AggregatedData>>
  {
    var loc := AggregatedLocation(cfg);
    if loc in objects && DecodeAggregated(objects[loc]).Ok? then Some(DecodeAggregated(objects[loc]).value) else None
  }

  /** The object Stage B uploads for given records. */
  function StageOutput(records: seq<AggregatedData>): Blob
  {
    CsvText(ReportRows(records))
  }

  /** `Handler`.  `faults` says which calls to the store and to the body
      reader fail; `writer` is the csv.Writer the handler builds, or null
      when it returns before building one. */
  method Handler(cfg: Config, store: ObjectStore, faults: Faults)
    returns (err: Option<Error>, ghost writer: CsvWriter?)
    modifies store
    ensures writer != null ==> fresh(writer)
    // the report is rendered exactly when the hand-off object was fetched, read and decoded
    ensures writer != null <==>
              !faults.get && !faults.read && StoredRecords(old(store.objects), cfg).Some?
    ensures writer == null ==> err.Some? && store.uploads == old(store.uploads)
    // the rows written are the report, or a prefix of it ending with the one failed write
    ensures writer != null ==>
              var k := |writer.writes|;
              1 <= k <= |StoredRecords(old(store.objects), cfg).value| + 1
              && writer.writes == ReportRows(StoredRecords(old(store.objects), cfg).value)[..k]
              && writer.failedWrites <= 1
              && (writer.failedWrites == 0 ==> writer.writes == ReportRows(StoredRecords(old(store.objects), cfg).value))
    // a failed Write or Flush is returned, and nothing is uploaded
    ensures writer != null && writer.err.Some? ==>
              err == writer.err && store.uploads == old(store.uploads)
    // otherwise the complete report is uploaded, once, to prefix + recommendations.csv
    ensures writer != null && writer.err.None? ==>
              writer.out == ReportRows(StoredRecords(old(store.objects), cfg).value)
              && store.uploads == old(store.uploads)
                   + [(ReportLocation(cfg), StageOutput(StoredRecords(old(store.objects), cfg).value))]
    // nil exactly when every step succeeded; the store changes at that key only
    ensures err.None? <==> writer != null && writer.err.None? && !faults.put
    ensures err.None? ==>
              store.objects == old(store.objects)[ReportLocation(cfg) :=
                                 StageOutput(StoredRecords(old(store.objects), cfg).value)]
    ensures err.Some? ==> store.objects == old(store.objects)
  {
    writer := null;
    var fetched := store.GetObject(AggregatedLocation(cfg), faults.get);
    if fetched.Err? {
      err := Some(fetched.error);
      return;
    }
    // json.NewDecoder reads the body as it decodes: a read failure is the
    // Decode error
    var body := ReadAll(fetched.value, faults.read);
    if body.Err? {
      err := Some(body.error);
      return;
    }
    var decoded := DecodeAggregated(body.value);
    if decoded.Err? {
      err := Some(decoded.error);
      return;
    }
    var w := new CsvWriter();
    writer := w;
    err := WriteReport(decoded.value, w);
    if err.Some? {
      return;
    }
    assert w.Accepted() == ReportRows(decoded.value);
    w.Flush();
    err := w.LastError();
    if err.Some? {
      return;
    }
    assert w.out == ReportRows(decoded.value);
    err := store.PutObject(ReportLocation(cfg), CsvText(w.out), faults.put);
  }
}
