/** The prediction client of internal/ds/ds_client.go.  The HTTP round trip
    is an abstract value: what `json.Marshal` did with the asset, whether the
    POST reached the service, the status code, and what decoding the body
    gave.  `PredictGenres` is then a total function from that value to Go's
    `([]string, error)` pair. */
module DsClient {
  import opened Wrappers

  /** AssetInfo: the identifying fields of one catalog item. */
  datatype AssetInfo = AssetInfo(id: string, title: string)

  /** GenrePrediction: the body of a successful reply. A nil `genres`
      slice is the empty sequence here. */
  datatype GenrePrediction = GenrePrediction(genres: seq<string>)

  /** What decoding the response body into a GenrePrediction gave. */
  datatype BodyDecode = Decoded(prediction: GenrePrediction) | Undecodable(decodeErr: Error)

  /** What the POST to the service gave. */
  datatype PostOutcome =
    | TransportFailed(transportErr: Error)
    | Responded(status: int, body: BodyDecode)

  /** One prediction request: marshalling the asset, then the POST. */
  datatype HttpExchange = HttpExchange(marshalErr: Option<Error>, post: PostOutcome)

  /** Go's `([]string, error)` result pair. */
  datatype PredictReply = PredictReply(genres: seq<string>, err: Option<Error>)

  const StatusOK: int := 200

  /** The exchange reached the service, got 200 and a decodable body. */
  predicate Succeeded(ex: HttpExchange)
  {
    ex.marshalErr.None? && ex.post.Responded? && ex.post.status == StatusOK && ex.post.body.Decoded?
  }

  /** The exchange reached the service and got a status other than 200. */
  predicate NonOkStatus(ex: HttpExchange)
  {
    ex.marshalErr.None? && ex.post.Responded? && ex.post.status != StatusOK
  }

  /** PredictGenres exactly as written: the non-200 branch returns the local
      `err`, which is nil there, so the caller sees no error. */
  function PredictGenres(ex: HttpExchange): (r: PredictReply)
    // no error exactly when the service answered 200 with a decodable body, or answered non-200
    ensures r.err.None? <==> Succeeded(ex) || NonOkStatus(ex)
    // never a genre list together with an error
    ensures r.err.Some? ==> r.genres == []
    // a marshalling error is returned as is, and nothing else is looked at
    ensures ex.marshalErr.Some? ==> r == PredictReply([], ex.marshalErr)
    // a transport error is returned as is; no status or body is examined
    ensures ex.marshalErr.None? && ex.post.TransportFailed? ==> r == PredictReply([], Some(ex.post.transportErr))
    // a non-200 status is a "success" with an empty genre list
    ensures NonOkStatus(ex) ==> r == PredictReply([], None)
    // a body that does not decode after a 200 gives the decode error
    ensures (ex.marshalErr.None? && ex.post.Responded? && ex.post.status == StatusOK && ex.post.body.Undecodable?)
            ==> r == PredictReply([], Some(ex.post.body.decodeErr))
    // on success the decoded list is returned unchanged: same order, duplicates kept
    ensures Succeeded(ex) ==> r.genres == ex.post.body.prediction.genres
  {
    if ex.marshalErr.Some? then PredictReply([], ex.marshalErr)
    else match ex.post
      case TransportFailed(e) => PredictReply([], Some(e))
      case Responded(status, body) =>
        if status != StatusOK then
          // the response body is read and logged, then the still-nil err is returned
          PredictReply([], None)
        else match body
          case Undecodable(e) => PredictReply([], Some(e))
          case Decoded(prediction) => PredictReply(prediction.genres, None)
  }

  /** The client as its callers need it: a non-200 status is an error that
      carries the status code. */
  function PredictGenresChecked(ex: HttpExchange): (r: PredictReply)
    // no error exactly when the service answered 200 with a decodable body
    ensures r.err.None? <==> Succeeded(ex)
    ensures r.err.Some? ==> r.genres == []
    ensures NonOkStatus(ex) ==> r.err == Some(BadStatus(ex.post.status))
    ensures Succeeded(ex) ==> r.genres == ex.post.body.prediction.genres
  {
    if NonOkStatus(ex) then PredictReply([], Some(BadStatus(ex.post.status)))
    else PredictGenres(ex)
  }

  /** The two clients differ exactly on non-200 replies. */
  lemma ClientsAgreeExceptOnStatus(ex: HttpExchange)
    ensures PredictGenres(ex) == PredictGenresChecked(ex) <==> !NonOkStatus(ex)
  {
  }

  /** The defect, on a concrete reply: a 503 from the service comes back
      from PredictGenres as success with no genres. */
  lemma ServiceUnavailableIsSilentSuccess()
    ensures PredictGenres(HttpExchange(None, Responded(503, Undecodable(Failure("EOF")))))
            == PredictReply([], None)
    ensures PredictGenresChecked(HttpExchange(None, Responded(503, Undecodable(Failure("EOF")))))
            == PredictReply([], Some(BadStatus(503)))
  {
  }
}
