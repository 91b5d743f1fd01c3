/** Incremental ingestion: a watermark per host and insert-if-absent agree with one full pass. */
module Stats {
  import opened Options
  import opened StatsRows

  datatype Tables = Tables(rows: set<Row>, marks: map<string, int>)

  function MarkOf(marks: map<string, int>, host: string): Option<int> {
    if host in marks then Some(marks[host]) else None
  }

  predicate Older(line: Line, mark: Option<int>) {
    line.Entry? && mark.Some? && line.timestamp < mark.value
  }

  /** The lines of a file that are looked at, last first: up to the first one older than the mark. */
  function Scanned(cfg: Config, file: seq<Line>, mark: Option<int>): seq<Line> {
    if file == [] then []
    else
      var n := |file| - 1;
      if !Parseable(cfg, file[n]) then Scanned(cfg, file[..n], mark)
      else if Older(file[n], mark) then []
      else [file[n]] + Scanned(cfg, file[..n], mark)
  }

  function ScannedAll(cfg: Config, files: seq<seq<Line>>, mark: Option<int>): seq<Line> {
    if files == [] then []
    else ScannedAll(cfg, files[..|files| - 1], mark) + Scanned(cfg, files[|files| - 1], mark)
  }

  /** Inserting the rows of the lines one after the other; None when one of them raises. */
  function Ingest(cfg: Config, host: string, rows: set<Row>, lines: seq<Line>): Option<set<Row>> {
    if lines == [] then Some(rows)
    else
      var n := |lines| - 1;
      var before := Ingest(cfg, host, rows, lines[..n]);
      match (before, RowOf(cfg, host, lines[n]))
      case (None, _) => None
      case (Some(_), Crashed) => None
      case (Some(rs), Skipped) => Some(rs)
      case (Some(rs), Stored(r)) => Some(Insert(rs, r))
  }

  /** The latest timestamp of the processed lines. */
  function LatestMark(cfg: Config, lines: seq<Line>): Option<int> {
    if lines == [] then None
    else
      var n := |lines| - 1;
      var before := LatestMark(cfg, lines[..n]);
      if Processed(cfg, lines[n]) && (before.None? || lines[n].timestamp > before.value)
      then Some(lines[n].timestamp) else before
  }

  /** One run over a host's files; None when it raises and the transaction is lost. */
  function Step(cfg: Config, t: Tables, host: string, files: seq<seq<Line>>): Option<Tables> {
    var lines := ScannedAll(cfg, files, MarkOf(t.marks, host));
    var latest := LatestMark(cfg, lines);
    match Ingest(cfg, host, t.rows, lines)
    case None => None
    case Some(rows) => Some(Tables(rows, if latest.Some? then t.marks[host := latest.value] else t.marks))
  }

  lemma IngestAppend(cfg: Config, host: string, rows: set<Row>, lines: seq<Line>, line: Line)
    ensures Ingest(cfg, host, rows, lines + [line]) ==
            match (Ingest(cfg, host, rows, lines), RowOf(cfg, host, line))
            case (None, _) => None
            case (Some(_), Crashed) => None
            case (Some(rs), Skipped) => Some(rs)
            case (Some(rs), Stored(r)) => Some(Insert(rs, r))
  {
    assert (lines + [line])[..|lines|] == lines;
  }

  lemma LatestAppend(cfg: Config, lines: seq<Line>, line: Line)
    ensures LatestMark(cfg, lines + [line]) ==
            var before := LatestMark(cfg, lines);
            if Processed(cfg, line) && (before.None? || line.timestamp > before.value)
            then Some(line.timestamp) else before
  {
    assert (lines + [line])[..|lines|] == lines;
  }

  /** The statistics database as a host's run sees it. */
  class StatsDatabase {
    var tables: Tables

    constructor ()
      ensures tables == Tables({}, map[])
    {
      tables := Tables({}, map[]);
    }

    /** Scans one file backwards, inserting rows and tracking the latest timestamp. */
    method ProcessFile(cfg: Config, host: string, file: seq<Line>, mark: Option<int>, latest0: Option<int>,
                       rows0: set<Row>, ghost rows: set<Row>, ghost done: seq<Line>)
      returns (ok: bool, latest: Option<int>, rows': set<Row>)
      requires Ingest(cfg, host, rows, done) == Some(rows0) && LatestMark(cfg, done) == latest0
      ensures ok == Ingest(cfg, host, rows, done + Scanned(cfg, file, mark)).Some?
      ensures ok ==> Some(rows') == Ingest(cfg, host, rows, done + Scanned(cfg, file, mark))
      ensures ok ==> latest == LatestMark(cfg, done + Scanned(cfg, file, mark))
    {
      latest, rows' := latest0, rows0;
      ghost var all := Scanned(cfg, file, mark);
      ghost var seen: seq<Line> := [];
      var n := |file|;
      assert file[..n] == file && done + seen == done;
      while n > 0
        invariant 0 <= n <= |file|
        invariant all == seen + Scanned(cfg, file[..n], mark)
        invariant Ingest(cfg, host, rows, done + seen) == Some(rows')
        invariant LatestMark(cfg, done + seen) == latest
      {
        n := n - 1;
        var line := file[n];
        assert file[..n + 1][..n] == file[..n];
        if !Parseable(cfg, line) {
          continue;
        }
        if Older(line, mark) {
          assert all == seen;
          return true, latest, rows';
        }
        IngestAppend(cfg, host, rows, done + seen, line);
        LatestAppend(cfg, done + seen, line);
        NextLine(done, seen, line, all, Scanned(cfg, file[..n], mark));
        seen := seen + [line];
        var outcome := RowOf(cfg, host, line);
        if outcome.Crashed? {
          IngestStaysNone(cfg, host, rows, done + seen, Scanned(cfg, file[..n], mark));
          return false, latest, rows';
        }
        if Processed(cfg, line) && (latest.None? || line.timestamp > latest.value) {
          latest := Some(line.timestamp);
        }
        if outcome.Stored? {
          rows' := Insert(rows', outcome.row);
        }
      }
      assert all == seen;
      ok := true;
    }

    /** One run: all files, then the new watermark; an exception undoes everything. */
    method ProcessStats(cfg: Config, host: string, files: seq<seq<Line>>) returns (committed: bool)
      modifies this
      ensures committed == Step(cfg, old(tables), host, files).Some?
      ensures committed ==> Some(tables) == Step(cfg, old(tables), host, files)
      ensures !committed ==> tables == old(tables)
    {
      var mark := MarkOf(tables.marks, host);
      var rows := tables.rows;
      var latest: Option<int> := None;
      assert files[..0] == [];
      for i := 0 to |files|
        invariant tables == old(tables)
        invariant Ingest(cfg, host, tables.rows, ScannedAll(cfg, files[..i], mark)) == Some(rows)
        invariant LatestMark(cfg, ScannedAll(cfg, files[..i], mark)) == latest
      {
        ghost var done := ScannedAll(cfg, files[..i], mark);
        assert files[..i + 1][..i] == files[..i];
        assert ScannedAll(cfg, files[..i + 1], mark) == done + Scanned(cfg, files[i], mark);
        committed, latest, rows := ProcessFile(cfg, host, files[i], mark, latest, rows, tables.rows, done);
        if !committed {
          MoreFilesStayNone(cfg, host, tables.rows, files, i + 1, mark);
          return;
        }
      }
      assert files[..|files|] == files;
      tables := Tables(rows, if latest.Some? then tables.marks[host := latest.value] else tables.marks);
      committed := true;
    }
  }

  lemma NextLine(done: seq<Line>, seen: seq<Line>, line: Line, all: seq<Line>, rest: seq<Line>)
    requires all == seen + ([line] + rest)
    ensures all == (seen + [line]) + rest
    ensures done + (seen + [line]) == (done + seen) + [line]
    ensures done + all == (done + (seen + [line])) + rest
  {
  }

  lemma {:induction false} IngestStaysNone(cfg: Config, host: string, rows: set<Row>, lines: seq<Line>, more: seq<Line>)
    requires Ingest(cfg, host, rows, lines).None?
    ensures Ingest(cfg, host, rows, lines + more).None?
  {
    if more == [] {
      assert lines + more == lines;
    } else {
      var n := |more| - 1;
      IngestStaysNone(cfg, host, rows, lines, more[..n]);
      assert lines + more == (lines + more[..n]) + [more[n]];
      IngestAppend(cfg, host, rows, lines + more[..n], more[n]);
    }
  }

  lemma {:induction false} MoreFilesStayNone(cfg: Config, host: string, rows: set<Row>, files: seq<seq<Line>>, i: nat,
                                             mark: Option<int>)
    requires i <= |files| && Ingest(cfg, host, rows, ScannedAll(cfg, files[..i], mark)).None?
    ensures Ingest(cfg, host, rows, ScannedAll(cfg, files, mark)).None?
    decreases |files|
  {
    if i == |files| {
      assert files[..i] == files;
    } else {
      var n := |files| - 1;
      assert files[..n][..i] == files[..i];
      MoreFilesStayNone(cfg, host, rows, files[..n], i, mark);
      IngestStaysNone(cfg, host, rows, ScannedAll(cfg, files[..n], mark), Scanned(cfg, files[n], mark));
    }
  }
}
