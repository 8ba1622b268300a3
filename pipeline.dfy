/** The two stages composed through the hand-off object, and the
    two-asset run in which one prediction fails. */
module Pipeline {
  import opened Wrappers
  import opened DsClient
  import opened Artifacts
  import opened Aggregation
  import opened Csv
  import ProcessAndSend
  import GenerateAndUpload

  /** What Stage A stores is exactly what Stage B reads back. */
  lemma HandOff(objects: map<Location, Blob>, cfg: Config, assets: seq<AssetInfo>, service: nat -> HttpExchange)
    ensures GenerateAndUpload.StoredRecords(objects[AggregatedLocation(cfg) := ProcessAndSend.StageOutput(assets, service)], cfg)
            == Some(Aggregate(assets, Replies(service, |assets|)))
  {
  }

  /** End to end: after Stage A, Stage B's report has the header and then,
      for the j-th asset whose prediction returned no error, that asset's
      ID, Title and joined genres; nothing else. */
  lemma {:induction false} ReportOfStageOutput(assets: seq<AssetInfo>, service: nat -> HttpExchange)
    ensures var replies := Replies(service, |assets|);
            var idx := SuccessIndices(replies);
            var rows := ReportRows(Aggregate(assets, replies));
            |rows| == |idx| + 1 && rows[0] == Header &&
            forall j :: 0 <= j < |idx| ==>
              rows[j + 1] == [assets[idx[j]].id, assets[idx[j]].title, Join(replies[idx[j]].genres, "|")]
  {
    AggregateIsProjection(assets, Replies(service, |assets|));
  }

  function ScenarioAssets(): seq<AssetInfo>
  {
    [AssetInfo("1", "Movie A"), AssetInfo("2", "Movie B")]
  }

  /** The first request is answered 200 with two genres; the second gets a
      500 status. */
  function ScenarioService(k: nat): HttpExchange
  {
    if k == 0 then HttpExchange(None, Responded(200, Decoded(GenrePrediction(["Comedy", "Action"]))))
    else HttpExchange(None, Responded(500, Undecodable(Failure("invalid character 'I'"))))
  }

  /** As written, the asset whose request got a 500 is kept with an empty
      genre list and shows up in the report. */
  lemma ScenarioAsWritten()
    ensures Aggregate(ScenarioAssets(), Replies(ScenarioService, 2))
            == [AggregatedData("1", "Movie A", ["Comedy", "Action"]), AggregatedData("2", "Movie B", [])]
    ensures ReportRows(Aggregate(ScenarioAssets(), Replies(ScenarioService, 2)))
            == [["ID", "Title", "Genres"], ["1", "Movie A", "Comedy|Action"], ["2", "Movie B", ""]]
  {
    var assets, replies := ScenarioAssets(), Replies(ScenarioService, 2);
    assert replies[0] == PredictGenres(ScenarioService(0)) && replies[1] == PredictGenres(ScenarioService(1));
    assert replies[0] == PredictReply(["Comedy", "Action"], None);
    assert replies[1] == PredictReply([], None);
    assert assets[..1] == [assets[0]] && replies[..1] == [replies[0]];
    assert Aggregate(assets[..1], replies[..1]) == [AggregatedData("1", "Movie A", ["Comedy", "Action"])] by {
      assert assets[..1][..0] == [];
    }
    var out := Aggregate(assets, replies);
    var rows := ReportRows(out);
    assert Join(["Comedy", "Action"], "|") == "Comedy|Action";
    assert Join([], "|") == "";
    assert rows[1] == ["1", "Movie A", "Comedy|Action"];
    assert rows[2] == ["2", "Movie B", ""];
  }

  /** With the status-checking client the same run keeps only the first
      asset, and the report is the header and one row. */
  lemma ScenarioChecked()
    ensures Aggregate(ScenarioAssets(), CheckedReplies(ScenarioService, 2))
            == [AggregatedData("1", "Movie A", ["Comedy", "Action"])]
    ensures ReportRows(Aggregate(ScenarioAssets(), CheckedReplies(ScenarioService, 2)))
            == [["ID", "Title", "Genres"], ["1", "Movie A", "Comedy|Action"]]
  {
    var assets, replies := ScenarioAssets(), CheckedReplies(ScenarioService, 2);
    assert replies[0] == PredictGenresChecked(ScenarioService(0)) && replies[1] == PredictGenresChecked(ScenarioService(1));
    assert replies[0] == PredictReply(["Comedy", "Action"], None);
    assert replies[1] == PredictReply([], Some(BadStatus(500)));
    assert assets[..1] == [assets[0]] && replies[..1] == [replies[0]];
    assert Aggregate(assets[..1], replies[..1]) == [AggregatedData("1", "Movie A", ["Comedy", "Action"])] by {
      assert assets[..1][..0] == [];
    }
    var out := Aggregate(assets, replies);
    var rows := ReportRows(out);
    assert Join(["Comedy", "Action"], "|") == "Comedy|Action";
    assert rows[1] == ["1", "Movie A", "Comedy|Action"];
  }
}
