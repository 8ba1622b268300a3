# Genre recommendation pipeline — a Dafny model

This project models the decision logic of a two-stage batch pipeline. The
pipeline adds predicted genre labels to a catalog of media assets and
publishes the result as a CSV report.

* **Stage A (process and send)** reads the asset list from object storage.
  It asks the prediction service for each asset's genres and keeps every
  asset whose prediction returned no error. It then stores the aggregated
  records under `aggregated_data.json`.
* **Stage B (generate and upload)** reads `aggregated_data.json` and renders
  it as CSV. The header row comes first, then one row per record with the
  genres joined by `|`. It uploads the report under the configured
  recommendations prefix as `recommendations.csv`.

Collaborators are abstract:
* The object store is a class holding a map from (bucket, key) to an
  abstract object value. It also keeps a log of every upload request.
* The prediction service is an oracle `service: nat -> HttpExchange`: the
  outcome of the i-th request's marshalling and HTTP round trip.
* Failures of the store, of reading a body and of the JSON encoder are
  inputs: a `Faults` value says which of a stage's calls fail, and each
  handler's contract says, for every combination, whether it returns an
  error, what it requests and what it uploads. The interface those faults
  drive is three stubs, `ObjectStore.GetObject` (a missing key or a failed
  request is an error), `ReadAll` and `Marshal` (each fails exactly when
  told to, and otherwise yields the body or the records' encoding), plus
  `ObjectStore.PutObject`, which is what changes the store.
* Failures of the CSV writer's underlying io.Writer are nondeterministic
  choices inside the writer's methods. The writer keeps ghost counts of
  what was written and which writes failed, and the contracts state the
  outcome in terms of them.

Modules:
* `Wrappers`: Option, Result and the error values.
* `DsClient`: the prediction client.
* `Artifacts`: the records, the configuration, the stored objects and the
  store.
* `Aggregation`: the Stage A loop and its specification.
* `Csv`: join, report rows, the csv writer and GenerateCSV.
* `ProcessAndSend`, `GenerateAndUpload`: the two handlers.
* `Pipeline`: the stages composed, and a two-asset run.

## Model

| member | source | states |
|---|---|---|
| `DsClient.PredictGenres` | internal/ds/ds_client.go:39-64 | The code as written. There is no error exactly when the service answered 200 with a decodable body, or answered a status other than 200. An error never comes with genres. Marshal, transport and decode errors are returned as they are, and a transport error is returned before any status is looked at. A non-200 reply yields no genres and no error. On success the decoded list is returned unchanged. |
| `DsClient.PredictGenresChecked` | internal/ds/ds_client.go:51-55 | The intended client. There is no error exactly when the reply was 200 with a decodable body. A non-200 reply is an error that carries its status. |
| `DsClient.ClientsAgreeExceptOnStatus` | internal/ds/ds_client.go:51-55 | The two clients give the same result exactly when the reply is not a non-200 status. |
| `DsClient.ServiceUnavailableIsSilentSuccess` | internal/ds/ds_client.go:51-55 | A 503 reply comes back from PredictGenres as ([], nil). The intended client reports BadStatus(503). |
| `Artifacts.EncodeAggregated` | cmd/process_and_send/main.go:74 | Decoding the encoded records gives back the same records. |
| `Artifacts.ObjectStore.constructor` | internal/aws/s3.go:20-44 | A store starts with the given objects and no uploads. |
| `Artifacts.ObjectStore.PutObject` | internal/aws/s3.go:62-71 | Every request is logged. It returns an error exactly when the request fails. On success only that key changes. On failure nothing is stored. |
| `Aggregation.Aggregate` | cmd/process_and_send/main.go:58-71 | The specification of the loop. It never yields more records than there are assets. |
| `Aggregation.SuccessIndices` | cmd/process_and_send/main.go:61-65 | The positions whose prediction returned a nil error, in strictly increasing order. It contains every such position and no other. |
| `Aggregation.AggregateIsProjection` | cmd/process_and_send/main.go:60-71 | The output is the input projected onto the successful positions, in original order. Each record has that asset's ID and Title and the returned genres. |
| `Aggregation.AggregateAppend` | cmd/process_and_send/main.go:60-71 | Aggregating a concatenated batch gives the concatenation of the two parts' aggregations. |
| `Aggregation.AggregateAround` | cmd/process_and_send/main.go:60-71 | The output is what precedes asset i, then asset i's contribution, then what follows it. |
| `Aggregation.FailedAssetSkipped` | cmd/process_and_send/main.go:62-65 | An asset whose prediction errored adds no record. The assets after it are aggregated as if it were absent, so the loop does not abort. |
| `Aggregation.SucceededAssetKept` | cmd/process_and_send/main.go:66-70 | An asset with a nil error contributes exactly one record, {ID, Title, genres}, in its place. |
| `Aggregation.NothingDroppedIffAllSucceed` | cmd/process_and_send/main.go:60-71 | The output has as many records as there are assets exactly when every prediction returned a nil error. |
| `Aggregation.NonOkAssetKeptWithNoGenres` | cmd/process_and_send/main.go:61-70 | With the client as written, an asset whose request got a non-200 status contributes the record {ID, Title, []} in its own place: after the records of the assets before it and before those of the assets after it. |
| `Aggregation.NonOkAssetSkippedWhenChecked` | cmd/process_and_send/main.go:61-65 | With the status-checking client, that asset is skipped. |
| `Aggregation.AggregateAssets` | cmd/process_and_send/main.go:58-71 | The loop computes exactly `Aggregate` of the assets and their replies. It requests a prediction for every asset, once each and in order. |
| `Csv.JoinLength` | internal/csv/generator.go:30 | For a non-empty list, the length of the joined field is the sum of the genre lengths plus one separator length per gap between consecutive genres. |
| `Csv.JoinEnds` | cmd/generate_and_upload_csv/main.go:64 | A joined list begins with its first genre and ends with its last. Separators go only between genres, never before the first or after the last. |
| `Csv.JoinExamples` | cmd/generate_and_upload_csv/main.go:64 | `[]` gives `""`, `["Sci-Fi"]` gives `Sci-Fi`, and `["Action","Drama"]` gives `Action|Drama`. |
| `Csv.EmptyListAndEmptyGenreCollide` | internal/csv/generator.go:30 | No genres and a single empty genre render the same field. |
| `Csv.SplitJoinRoundTrip` | internal/csv/generator.go:30 | A non-empty list of genres free of `|` is recovered by splitting its joined field at `|`. |
| `Csv.RecordRows` | internal/csv/generator.go:29-31 | One row per record, in input order, with no filtering. Row i is record i's row. |
| `Csv.ReportRows` | internal/csv/generator.go:23-31 | The header `["ID","Title","Genres"]` comes first whatever the record count. Then row i+1 is `[ID, Title, Join(Genres, "\|")]` of record i. Every row has three fields. |
| `Csv.EmptyReportIsHeaderOnly` | internal/csv/generator.go:23-37 | With no records, the only row is the header. |
| `Csv.GenresColumnRoundTrip` | internal/csv/generator.go:29-31 | The Genres field of each data row splits back into that record's genres, when they are non-empty and free of `|`. |
| `Csv.CsvWriter.constructor` | cmd/generate_and_upload_csv/main.go:52-53 | A new writer over an empty buffer has nothing written, no failed write and no error. |
| `Csv.CsvWriter.Write` | cmd/generate_and_upload_csv/main.go:56-60 | Every call is logged, and a call that returns an error is counted as a failed write. After an earlier error the call fails again and delivers nothing. A successful write adds exactly the row to the rows accepted. In every case the delivered rows grow by a prefix of the rows accepted, this row included, since the buffer may deliver on its own when it fills. |
| `Csv.CsvWriter.Flush` | cmd/generate_and_upload_csv/main.go:72-76 | A successful flush delivers every accepted row. A failed flush delivers a prefix of them and records the error. An earlier error stays and nothing is delivered. |
| `Csv.WriteReport` | cmd/generate_and_upload_csv/main.go:55-70 | If every write succeeds, the rows written and accepted are exactly the report and no write failed. On an error, exactly one write failed and the rows written are a non-empty prefix of the report. Because the error is sticky, that one failed write is the last row written: no later row is written, and a header failure writes no data row. The rows delivered are at most that prefix. |
| `Csv.GenerateCSV` | internal/csv/generator.go:18-38 | The result is nil exactly when no write failed. A write error is returned after exactly one failed write, the last one, with the rows written a prefix of the report and the rows delivered at most that prefix. A nil result means every report row was written. After a clean flush exactly the report has been delivered. After a failed flush only a prefix may have been delivered, and nil is still returned because the deferred Flush's error is not looked at. |
| `ProcessAndSend.Handler` | cmd/process_and_send/main.go:32-90 | Predictions are requested exactly when the asset list was fetched, read and parsed, and then for every stored asset, once each and in order. A failed get, a failed read or an unparsable list means no request. One upload happens, to `aggregated_data.json` and holding the aggregation of those assets, exactly when in addition the encoding succeeded; otherwise nothing is uploaded. The result is nil exactly when every step, the upload included, succeeded, and then only that key changed. On error the stored objects are unchanged. |
| `GenerateAndUpload.Handler` | cmd/generate_and_upload_csv/main.go:31-87 | The report is rendered exactly when the hand-off object was fetched, read and decoded; otherwise the result is an error and nothing is uploaded. The rows written are a prefix of the report, with at most one failed write, and the whole report when none failed. A failed write or flush is returned and nothing is uploaded. Otherwise the complete report, never a partial one, is uploaded once to prefix + `recommendations.csv`. The result is nil exactly when that upload succeeded as well, and then only that key changed. On error the stored objects are unchanged. |
| `Pipeline.HandOff` | cmd/generate_and_upload_csv/main.go:36-49 | Stage B decodes exactly the records that Stage A stored. |
| `Pipeline.ReportOfStageOutput` | cmd/generate_and_upload_csv/main.go:55-70 | The report built from Stage A's output is the header, then one row per asset whose prediction returned no error, in asset order, each with that asset's ID, Title and joined genres. |
| `Pipeline.ScenarioAsWritten` | internal/ds/ds_client.go:51-55 | Two assets: the first gets 200 with `[Comedy, Action]` and the second gets a 500. As written, both are kept and the report has the row `2, Movie B, ""`. |
| `Pipeline.ScenarioChecked` | internal/ds/ds_client.go:51-55 | The same run with the intended client keeps only asset 1. The report is the header and `1, Movie A, Comedy\|Action`. |

## Findings

| source | as written | input that shows it | evidently intended | confidence | as-written member | corrected member |
|---|---|---|---|---|---|---|
| internal/ds/ds_client.go:51-55 | On a non-200 status the client returns `nil, err`. Here `err` is still the nil result of the POST, so the caller sees success with no genres. | Two assets where the second request gets status 500: Stage A stores `{2, Movie B, []}` and the report gains the row `2,Movie B,` | A non-200 status is an error carrying the status, so the asset is skipped like any other failed prediction. | high; not executed | `DsClient.PredictGenres`, `Pipeline.ScenarioAsWritten` | `DsClient.PredictGenresChecked`, `Pipeline.ScenarioChecked` |

The aggregation specification (`Aggregate` and its lemmas) is stated for any sequence of replies, so it holds for both clients. `ProcessAndSend.Handler` calls the client as written because it models the code. `Aggregation.NonOkAssetSkippedWhenChecked` and `Pipeline.ScenarioChecked` state what the corrected client changes.

## Left out

- Configuration loading (internal/config/config.go) is not modelled. The environment, `.env` and defaults are replaced by a `Config` value passed to each handler. The region and the service URL are not part of it.
- The S3 client construction, the Localstack endpoint and path-style addressing (internal/aws/s3.go:20-44) are not modelled. The store is an abstract map, and whether a request fails is an input.
- The HTTP client, request headers and reading the error body for the log are not modelled. Each prediction request is an abstract `HttpExchange` supplied by the `service` oracle.
- mocks/ds_mock.go is not part of this model. It is a test server with randomised output.
- JSON byte formats are not modelled. A stored object is the value encoded into it, and decoding succeeds only on an object of the expected kind. Go's lenient decoding is not reproduced: unknown fields, missing fields, and `null` for a nil slice all decode differently in Go.
- A nil Go slice and an empty slice are both the empty sequence. In the JSON format they differ (`null` versus `[]`), and that format is abstract here.
- `json.Marshal` of these record types cannot fail in Go. The model still lets it fail, to keep the error branches the handlers have.
- In Stage B the csv writer sits over a `bytes.Buffer`, whose writes cannot fail in Go. The model lets them fail, to keep the handler's error branches for Write and Flush.
- CSV quoting, escaping and line endings of `encoding/csv` are not modelled. Output is rows of field strings.
- Csv.GenerateCSV: the writer is a parameter. It stands for the csv.Writer the function builds over the caller's io.Writer.
- Csv.CsvWriter.Write: delivery is modelled at row granularity. Bytes of a partially delivered row are not modelled, and neither is which prefix the 4096-byte buffer delivers; the contract only says it is a prefix.
- Csv.CsvWriter.Flush: a failed flush delivers a prefix of whole rows; a partially delivered row is not modelled.
- Stage B streams its decode through `json.NewDecoder`, so a read error there surfaces as the decode error. The model reads the body first and then decodes it, which gives the same outcomes.
- Logging, `log.Fatalf` process exit, `context` arguments, `defer body.Close()` and the no-op `readSeekCloser` wrapper are not modelled.
