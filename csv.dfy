/** Rendering aggregated records as CSV rows (internal/csv/generator.go and
    the copy inside cmd/generate_and_upload_csv/main.go).  Output is kept
    as rows of fields; the byte-level quoting of encoding/csv is not
    modelled. */
module Csv {
  import opened Wrappers
  import opened Artifacts

  type Row = seq<string>

  const Header: Row := ["ID", "Title", "Genres"]
  const GenreSeparator: string := "|"

  /** `strings.Join`: the parts with `sep` between consecutive ones. */
  function Join(parts: seq<string>, sep: string): string
    decreases |parts|
  {
    if |parts| == 0 then ""
    else if |parts| == 1 then parts[0]
    else parts[0] + sep + Join(parts[1..], sep)
  }

  /** Splitting a field at every occurrence of `c`; the reading a consumer
      of the report would apply to the Genres column. */
  function Split(s: string, c: char): (fields: seq<string>)
    ensures |fields| >= 1
    decreases |s|
  {
    if s == [] then [""]
    else
      var rest := Split(s[1..], c);
      if s[0] == c then [""] + rest
      else [[s[0]] + rest[0]] + rest[1..]
  }

  /** The sum of the lengths of the parts. */
  function TotalLength(parts: seq<string>): nat
    decreases |parts|
  {
    if parts == [] then 0 else |parts[0]| + TotalLength(parts[1..])
  }

  /** The joined length is the parts' total length plus one separator for
      each gap between consecutive parts. */
  lemma {:induction false} JoinLength(parts: seq<string>, sep: string)
    requires |parts| >= 1
    ensures |Join(parts, sep)| == TotalLength(parts) + (|parts| - 1) * |sep|
    decreases |parts|
  {
    if |parts| > 1 {
      JoinLength(parts[1..], sep);
      assert TotalLength(parts) == |parts[0]| + TotalLength(parts[1..]);
    } else {
      assert parts[1..] == [];
    }
  }

  /** A joined list starts with its first part and ends with its last. */
  lemma {:induction false} JoinEnds(parts: seq<string>, sep: string)
    requires |parts| >= 1
    ensures parts[0] <= Join(parts, sep)
    ensures var s, last := Join(parts, sep), parts[|parts| - 1];
            |last| <= |s| && s[|s| - |last|..] == last
    decreases |parts|
  {
    if |parts| > 1 {
      JoinEnds(parts[1..], sep);
      var s, t := Join(parts, sep), Join(parts[1..], sep);
      assert s == parts[0] + sep + t;
      assert s[..|parts[0]|] == parts[0];
      var last := parts[|parts| - 1];
      assert last == parts[1..][|parts[1..]| - 1];
      assert s[|s| - |last|..] == t[|t| - |last|..];
    }
  }

  /** The cases named by the report format: no genres give an empty field,
      one genre gives itself, two are separated by a single bar. */
  lemma JoinExamples()
    ensures Join([], GenreSeparator) == ""
    ensures Join(["Sci-Fi"], GenreSeparator) == "Sci-Fi"
    ensures Join(["Action", "Drama"], GenreSeparator) == "Action|Drama"
  {
  }

  /** The encoding is not injective: no genres and one empty genre render
      the same field. */
  lemma EmptyListAndEmptyGenreCollide()
    ensures Join([], GenreSeparator) == Join([""], GenreSeparator)
  {
  }

  /** A field without the separator is not split. */
  lemma {:induction false} SplitWithoutSeparator(s: string, c: char)
    requires c !in s
    ensures Split(s, c) == [s]
    decreases |s|
  {
    if s != [] {
      SplitWithoutSeparator(s[1..], c);
      assert [s[0]] + s[1..] == s;
    }
  }

  /** Splitting at the first separator peels off the field before it. */
  lemma {:induction false} SplitAtFirstSeparator(g: string, c: char, t: string)
    requires c !in g
    ensures Split(g + [c] + t, c) == [g] + Split(t, c)
    decreases |g|
  {
    var s := g + [c] + t;
    if g == [] {
      assert s[0] == c && s[1..] == t;
    } else {
      SplitAtFirstSeparator(g[1..], c, t);
      assert s[0] == g[0] && s[1..] == g[1..] + [c] + t;
      assert [g[0]] + g[1..] == g;
    }
  }

  /** Round trip of the Genres column: a non-empty genre list none of whose
      genres contains a bar is recovered by splitting the rendered field. */
  lemma {:induction false} SplitJoinRoundTrip(genres: seq<string>)
    requires |genres| >= 1
    requires forall g :: g in genres ==> '|' !in g
    ensures Split(Join(genres, GenreSeparator), '|') == genres
    decreases |genres|
  {
    if |genres| == 1 {
      SplitWithoutSeparator(genres[0], '|');
    } else {
      SplitJoinRoundTrip(genres[1..]);
      assert Join(genres, GenreSeparator) == genres[0] + ['|'] + Join(genres[1..], GenreSeparator);
      SplitAtFirstSeparator(genres[0], '|', Join(genres[1..], GenreSeparator));
      assert [genres[0]] + genres[1..] == genres;
    }
  }

  /** The row written for one record: ID, Title and the joined genres. */
  function RecordRow(r: AggregatedData): Row
  {
    [r.id, r.title, Join(r.genres, GenreSeparator)]
  }

  /** One row per record, in input order, none filtered out. */
  function RecordRows(records: seq<AggregatedData>): (rows: seq<Row>)
    ensures |rows| == |records|
    ensures forall i :: 0 <= i < |records| ==> rows[i] == RecordRow(records[i])
    decreases |records|
  {
    if records == [] then []
    else
      var n := |records| - 1;
      RecordRows(records[..n]) + [RecordRow(records[n])]
  }

  /** The whole report: the header first, whatever the number of records,
      then each record's row in order; every row has three fields. */
  function ReportRows(records: seq<AggregatedData>): (rows: seq<Row>)
    ensures |rows| == |records| + 1
    ensures rows[0] == ["ID", "Title", "Genres"]
    ensures forall i :: 0 <= i < |records| ==>
              rows[i + 1] == [records[i].id, records[i].title, Join(records[i].genres, "|")]
    ensures forall k :: 0 <= k < |rows| ==> |rows[k]| == 3
  {
    [Header] + RecordRows(records)
  }

  /** An empty record list renders as the header alone. */
  lemma EmptyReportIsHeaderOnly()
    ensures ReportRows([]) == [["ID", "Title", "Genres"]]
  {
  }

  /** The Genres column of every data row splits back into the record's
      genres when they are bar-free and there is at least one. */
  lemma GenresColumnRoundTrip(records: seq<AggregatedData>, i: nat)
    requires i < |records|
    requires |records[i].genres| >= 1 && forall g :: g in records[i].genres ==> '|' !in g
    ensures Split(ReportRows(records)[i + 1][2], '|') == records[i].genres
  {
    SplitJoinRoundTrip(records[i].genres);
  }

  /** A `csv.Writer` over a buffered writer.  `out` holds the rows
      delivered to the underlying io.Writer and `buffered` the rows accepted
      but not yet delivered; the buffer may deliver a prefix of its rows on
      its own whenever it fills up.  `err` is the sticky error: once set,
      every later Write and Flush fails with it and delivers nothing.
      `writes` logs every row passed to Write, in call order, and
      `failedWrites` counts the Write calls that returned an error. */
  class CsvWriter {
    var buffered: seq<Row>
    var out: seq<Row>
    var err: Option<Error>
    ghost var writes: seq<Row>
    ghost var failedWrites: nat

    /** The rows accepted so far, delivered or not, in order. */
    function Accepted(): seq<Row>
      reads this
    {
      out + buffered
    }

    /** `csv.NewWriter` over an empty buffer. */
    constructor ()
      ensures buffered == [] && out == [] && err.None? && writes == [] && failedWrites == 0
    {
      buffered, out, err, writes, failedWrites := [], [], None, [], 0;
    }

    /** Delivers a prefix of `rows` and keeps the rest buffered. */
    method DeliverSome(rows: seq<Row>)
      modifies this
      ensures err == old(err) && writes == old(writes) && failedWrites == old(failedWrites)
      ensures old(out) <= out && out + buffered == old(out) + rows
    {
      var k: nat :| k <= |rows|;
      out := out + rows[..k];
      buffered := rows[k..];
      assert rows[..k] + rows[k..] == rows;
    }

    /** `Write`: the row is accepted, unless the writer has already failed
        or a delivery the buffer attempts fails now.  Either way the rows
        delivered grow by a prefix of what was accepted, this row included. */
    method Write(row: Row) returns (e: Option<Error>)
      modifies this
      ensures writes == old(writes) + [row]
      ensures failedWrites == old(failedWrites) + (if e.Some? then 1 else 0)
      ensures old(err).Some? ==> e == old(err) && out == old(out)
      ensures e.None? ==> err.None? && Accepted() == old(Accepted()) + [row]
      ensures e.Some? ==> err == e
      ensures old(out) <= out <= old(Accepted()) + [row]
    {
      writes := writes + [row];
      if err.Some? {
        assert (out + buffered + [row])[..|out|] == out;
        failedWrites := failedWrites + 1;
        return err;
      }
      var fails: bool :| true;
      DeliverSome(buffered + [row]);
      assert (out + buffered)[..|out|] == out;
      if fails {
        var detail: string :| true;
        err := Some(Failure(detail));
        failedWrites := failedWrites + 1;
      }
      e := err;
    }

    /** `Flush`: on success every accepted row is delivered; a failure
        delivers a prefix of them and is only recorded in `err`. */
    method Flush()
      modifies this
      ensures writes == old(writes) && failedWrites == old(failedWrites)
      ensures old(err).Some? ==> err == old(err) && out == old(out)
      ensures err.None? ==> out == old(Accepted()) && buffered == []
      ensures err.Some? ==> old(out) <= out <= old(Accepted())
    {
      if err.Some? {
        return;
      }
      var fails: bool :| true;
      if fails {
        DeliverSome(buffered);
        var detail: string :| true;
        err := Some(Failure(detail));
      } else {
        out := out + buffered;
        buffered := [];
      }
    }

    /** Go's `writer.Error()`: the error of an earlier Write or Flush, if
        any. */
    function LastError(): Option<Error>
      reads this
    {
      err
    }
  }

  /** The header write and the per-record loop shared by GenerateCSV and
      the Stage B handler.  The rows passed to Write are the report, or, on
      an error, a non-empty prefix of it whose last row is the write that
      failed: exactly one Write fails, so nothing after it is written. */
  method WriteReport(records: seq<AggregatedData>, w: CsvWriter) returns (e: Option<Error>)
    modifies w
    ensures old(w.out) <= w.out
    ensures w.failedWrites == old(w.failedWrites) + (if e.Some? then 1 else 0)
    ensures old(w.err).Some? ==> e == old(w.err) && w.out == old(w.out) && w.writes == old(w.writes) + [Header]
    ensures e.None? ==> w.err.None? && w.writes == old(w.writes) + ReportRows(records)
                        && w.Accepted() == old(w.Accepted()) + ReportRows(records)
    ensures e.Some? ==> w.err == e
    ensures e.Some? ==> var k := |w.writes| - |old(w.writes)|;
                        1 <= k <= |records| + 1 && w.writes == old(w.writes) + ReportRows(records)[..k]
                        && w.out <= old(w.Accepted()) + ReportRows(records)[..k]
  {
    ghost var report := ReportRows(records);
    ghost var before := w.Accepted();
    e := w.Write(Header);
    if e.Some? {
      assert report[..1] == [Header];
      return;
    }
    for i := 0 to |records|
      invariant e.None? && w.err.None? && old(w.out) <= w.out
      invariant w.failedWrites == old(w.failedWrites)
      invariant w.writes == old(w.writes) + report[..i + 1]
      invariant w.Accepted() == before + report[..i + 1]
    {
      e := w.Write(RecordRow(records[i]));
      assert report[..i + 2] == report[..i + 1] + [RecordRow(records[i])];
      if e.Some? {
        return;
      }
    }
    assert report[..|records| + 1] == report;
  }

  /** `GenerateCSV`: the report written through `w`, which stands for the
      csv.Writer built over the caller's io.Writer; the deferred Flush runs
      on every return and its error is not looked at, so nil is returned
      exactly when no Write failed, whatever the Flush did. */
  method GenerateCSV(data: seq<AggregatedData>, w: CsvWriter) returns (e: Option<Error>)
    modifies w
    ensures old(w.out) <= w.out
    ensures w.failedWrites == old(w.failedWrites) + (if e.Some? then 1 else 0)
    ensures e.None? <==> w.failedWrites == old(w.failedWrites)
    ensures old(w.err).Some? ==> e == old(w.err) && w.out == old(w.out)
    ensures e.Some? ==> w.err == e
    ensures e.Some? ==> var k := |w.writes| - |old(w.writes)|;
                        1 <= k <= |data| + 1 && w.writes == old(w.writes) + ReportRows(data)[..k]
                        && w.out <= old(w.Accepted()) + ReportRows(data)[..k]
    ensures e.None? ==> w.writes == old(w.writes) + ReportRows(data)
    ensures e.None? && w.err.None? ==> w.out == old(w.Accepted()) + ReportRows(data) && w.buffered == []
    ensures e.None? && w.err.Some? ==> w.out <= old(w.Accepted()) + ReportRows(data)
  {
    e := WriteReport(data, w);
    w.Flush();
  }
}
