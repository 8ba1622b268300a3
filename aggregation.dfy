/** The aggregation loop of Stage A (cmd/process_and_send/main.go): every
    asset is sent for prediction, in order; an asset whose prediction
    returned an error is skipped and the loop goes on with the next one. */
module Aggregation {
  import opened Wrappers
  import opened DsClient
  import opened Artifacts

  /** What one asset contributes: its record when the prediction returned
      no error, nothing otherwise. */
  function Emit(asset: AssetInfo, reply: PredictReply): seq<AggregatedData>
  {
    if reply.err.Some? then [] else [AggregatedData(asset.id, asset.title, reply.genres)]
  }

  /** The aggregated sequence for the assets and the replies to their
      prediction requests (`replies[i]` answers `assets[i]`). */
  function Aggregate(assets: seq<AssetInfo>, replies: seq<PredictReply>): (out: seq<AggregatedData>)
    requires |replies| == |assets|
    ensures |out| <= |assets|
    decreases |assets|
  {
    if assets == [] then []
    else
      var n := |assets| - 1;
      Aggregate(assets[..n], replies[..n]) + Emit(assets[n], replies[n])
  }

  /** The replies PredictGenres gives when the i-th request's round trip is
      `service(i)`. */
  function Replies(service: nat -> HttpExchange, n: nat): seq<PredictReply>
  {
    seq(n, i requires 0 <= i < n => PredictGenres(service(i)))
  }

  /** The same with the status-checking client. */
  function CheckedReplies(service: nat -> HttpExchange, n: nat): seq<PredictReply>
  {
    seq(n, i requires 0 <= i < n => PredictGenresChecked(service(i)))
  }

  /** The positions whose prediction returned no error, in increasing order. */
  function SuccessIndices(replies: seq<PredictReply>): (idx: seq<nat>)
    ensures forall j :: 0 <= j < |idx| ==> idx[j] < |replies| && replies[idx[j]].err.None?
    ensures forall j, k :: 0 <= j < k < |idx| ==> idx[j] < idx[k]
    ensures forall i :: 0 <= i < |replies| && replies[i].err.None? ==> i in idx
    decreases |replies|
  {
    if replies == [] then []
    else
      var n := |replies| - 1;
      SuccessIndices(replies[..n]) + (if replies[n].err.None? then [n] else [])
  }

  /** Order preservation: the output is the input projected onto the
      positions whose prediction succeeded, in their original order, each
      record carrying that asset's ID and Title and the returned genres. */
  lemma {:induction false} AggregateIsProjection(assets: seq<AssetInfo>, replies: seq<PredictReply>)
    requires |replies| == |assets|
    ensures var idx := SuccessIndices(replies);
            var out := Aggregate(assets, replies);
            |out| == |idx| &&
            forall j :: 0 <= j < |idx| ==>
              out[j] == AggregatedData(assets[idx[j]].id, assets[idx[j]].title, replies[idx[j]].genres)
    decreases |assets|
  {
    if assets != [] {
      var n := |assets| - 1;
      var prefix, rest := assets[..n], replies[..n];
      AggregateIsProjection(prefix, rest);
      var idx0, out0 := SuccessIndices(rest), Aggregate(prefix, rest);
      var idx, out := SuccessIndices(replies), Aggregate(assets, replies);
      assert idx == idx0 + (if replies[n].err.None? then [n] else []);
      assert out == out0 + Emit(assets[n], replies[n]);
      forall j | 0 <= j < |idx|
        ensures out[j] == AggregatedData(assets[idx[j]].id, assets[idx[j]].title, replies[idx[j]].genres)
      {
        if j < |idx0| {
          assert idx[j] == idx0[j] < n;
          assert prefix[idx0[j]] == assets[idx[j]] && rest[idx0[j]] == replies[idx[j]];
        }
      }
    }
  }

  /** Dropping the last element of a concatenation with a non-empty
      right part drops it from that part. */
  lemma DropLastOfAppend<T>(x: seq<T>, y: seq<T>)
    requires |y| > 0
    ensures (x + y)[..|x + y| - 1] == x + y[..|y| - 1]
    ensures (x + y)[|x + y| - 1] == y[|y| - 1]
  {
  }

  /** Aggregation distributes over splitting the batch: each part is
      aggregated independently of the other. */
  lemma {:induction false} AggregateAppend(a1: seq<AssetInfo>, r1: seq<PredictReply>,
                                           a2: seq<AssetInfo>, r2: seq<PredictReply>)
    requires |r1| == |a1| && |r2| == |a2|
    ensures Aggregate(a1 + a2, r1 + r2) == Aggregate(a1, r1) + Aggregate(a2, r2)
    decreases |a2|
  {
    if a2 == [] {
      assert a1 + a2 == a1 && r1 + r2 == r1;
    } else {
      var n := |a2| - 1;
      var a, r := a1 + a2, r1 + r2;
      var m := |a| - 1;
      AggregateAppend(a1, r1, a2[..n], r2[..n]);
      DropLastOfAppend(a1, a2);
      DropLastOfAppend(r1, r2);
      var head, tail, last := Aggregate(a1, r1), Aggregate(a2[..n], r2[..n]), Emit(a2[n], r2[n]);
      assert Aggregate(a, r) == head + tail + last;
      assert head + tail + last == head + (tail + last);
    }
  }

  /** Splitting the batch at position i. */
  lemma {:induction false} AggregateAround(assets: seq<AssetInfo>, replies: seq<PredictReply>, i: nat)
    requires |replies| == |assets| && i < |assets|
    ensures Aggregate(assets, replies)
            == Aggregate(assets[..i], replies[..i]) + Emit(assets[i], replies[i])
               + Aggregate(assets[i + 1..], replies[i + 1..])
  {
    assert assets == assets[..i] + [assets[i]] + assets[i + 1..];
    assert replies == replies[..i] + [replies[i]] + replies[i + 1..];
    AggregateAppend(assets[..i] + [assets[i]], replies[..i] + [replies[i]], assets[i + 1..], replies[i + 1..]);
    AggregateAppend(assets[..i], replies[..i], [assets[i]], [replies[i]]);
    assert Aggregate([assets[i]], [replies[i]]) == Emit(assets[i], replies[i]) by {
      assert [assets[i]][..0] == [];
    }
  }

  /** Skip-on-failure: an asset whose prediction errored adds no record,
      and the assets after it are aggregated exactly as if it were absent. */
  lemma {:induction false} FailedAssetSkipped(assets: seq<AssetInfo>, replies: seq<PredictReply>, i: nat)
    requires |replies| == |assets| && i < |assets|
    requires replies[i].err.Some?
    ensures Aggregate(assets, replies)
            == Aggregate(assets[..i], replies[..i]) + Aggregate(assets[i + 1..], replies[i + 1..])
    ensures i !in SuccessIndices(replies)
  {
    AggregateAround(assets, replies, i);
  }

  /** An asset whose prediction returned no error contributes exactly one
      record, between those of the assets before it and after it. */
  lemma {:induction false} SucceededAssetKept(assets: seq<AssetInfo>, replies: seq<PredictReply>, i: nat)
    requires |replies| == |assets| && i < |assets|
    requires replies[i].err.None?
    ensures Aggregate(assets, replies)
            == Aggregate(assets[..i], replies[..i])
               + [AggregatedData(assets[i].id, assets[i].title, replies[i].genres)]
               + Aggregate(assets[i + 1..], replies[i + 1..])
  {
    AggregateAround(assets, replies, i);
  }

  /** Every prediction succeeded exactly when nothing is dropped. */
  lemma {:induction false} NothingDroppedIffAllSucceed(assets: seq<AssetInfo>, replies: seq<PredictReply>)
    requires |replies| == |assets|
    ensures |Aggregate(assets, replies)| == |assets|
            <==> forall i :: 0 <= i < |replies| ==> replies[i].err.None?
    decreases |assets|
  {
    if assets != [] {
      var n := |assets| - 1;
      NothingDroppedIffAllSucceed(assets[..n], replies[..n]);
      if forall i :: 0 <= i < |replies| ==> replies[i].err.None? {
        assert forall i :: 0 <= i < n ==> replies[..n][i].err.None?;
      } else {
        var i :| 0 <= i < |replies| && replies[i].err.Some?;
        if i < n {
          assert replies[..n][i].err.Some?;
        }
      }
    }
  }

  /** With PredictGenres as written, an asset whose request got a non-200
      status is not skipped: it appears in the output with no genres. */
  lemma {:induction false} NonOkAssetKeptWithNoGenres(assets: seq<AssetInfo>, service: nat -> HttpExchange, i: nat)
    requires i < |assets| && NonOkStatus(service(i))
    ensures var replies := Replies(service, |assets|);
            Aggregate(assets, replies)
            == Aggregate(assets[..i], replies[..i])
               + [AggregatedData(assets[i].id, assets[i].title, [])]
               + Aggregate(assets[i + 1..], replies[i + 1..])
  {
    SucceededAssetKept(assets, Replies(service, |assets|), i);
  }

  /** With the status-checking client the same asset is skipped. */
  lemma {:induction false} NonOkAssetSkippedWhenChecked(assets: seq<AssetInfo>, service: nat -> HttpExchange, i: nat)
    requires i < |assets| && NonOkStatus(service(i))
    ensures var replies := CheckedReplies(service, |assets|);
            Aggregate(assets, replies)
            == Aggregate(assets[..i], replies[..i]) + Aggregate(assets[i + 1..], replies[i + 1..])
  {
    FailedAssetSkipped(assets, CheckedReplies(service, |assets|), i);
  }

  /** The loop at cmd/process_and_send/main.go:58-71.  `requested` lists the
      assets a prediction was requested for, in request order. */
  method AggregateAssets(assets: seq<AssetInfo>, service: nat -> HttpExchange)
    returns (aggregated: seq<AggregatedData>, ghost requested: seq<AssetInfo>)
    ensures aggregated == Aggregate(assets, Replies(service, |assets|))
    ensures requested == assets
  {
    aggregated, requested := [], [];
    ghost var replies: seq<PredictReply> := [];
    for i := 0 to |assets|
      invariant requested == assets[..i]
      invariant replies == Replies(service, i)
      invariant aggregated == Aggregate(assets[..i], replies)
    {
      var asset := assets[i];
      var reply := PredictGenres(service(i));
      requested := requested + [asset];
      assert assets[..i + 1][..i] == assets[..i];
      replies := replies + [reply];
      assert replies[..i] == Replies(service, i);
      if reply.err.Some? {
        continue;
      }
      aggregated := aggregated + [AggregatedData(asset.id, asset.title, reply.genres)];
    }
    assert assets[..|assets|] == assets;
  }
}
