/** Whole histories of ingestion runs against one pass over everything ever presented. */
module StatsRuns {
  import opened Options
  import opened StatsRows
  import opened Stats

  // ---- What a run looks at ----

  /** The parseable lines of a file are in timestamp order. */
  ghost predicate Chronological(cfg: Config, file: seq<Line>) {
    forall i, j :: 0 <= i < j < |file| && Parseable(cfg, file[i]) && Parseable(cfg, file[j]) ==>
      file[i].timestamp <= file[j].timestamp
  }

  /** In a chronological file, stopping at the first old line misses nothing that is not old. */
  lemma {:induction false} ScanFindsNew(cfg: Config, file: seq<Line>, mark: Option<int>, line: Line)
    requires Chronological(cfg, file)
    ensures line in Scanned(cfg, file, mark) <==>
            && line in file && line.Entry? && line.event in cfg.schema
            && (mark.None? || mark.value <= line.timestamp)
  {
    if file != [] {
      var n := |file| - 1;
      ScanFindsNew(cfg, file[..n], mark, line);
      assert file == file[..n] + [file[n]];
    }
  }

  predicate Among(files: seq<seq<Line>>, line: Line) {
    exists f <- files :: line in f
  }

  lemma {:induction false} RunFindsNew(cfg: Config, files: seq<seq<Line>>, mark: Option<int>, line: Line)
    requires forall f <- files :: Chronological(cfg, f)
    ensures line in ScannedAll(cfg, files, mark) <==> Among(files, line) && Parseable(cfg, line) && !Older(line, mark)
  {
    if files != [] {
      var n := |files| - 1;
      RunFindsNew(cfg, files[..n], mark, line);
      ScanFindsNew(cfg, files[n], mark, line);
      assert files == files[..n] + [files[n]];
    }
  }

  // ---- What inserting gives ----

  predicate Clean(cfg: Config, host: string, lines: seq<Line>) {
    forall l <- lines :: !RowOf(cfg, host, l).Crashed?
  }

  lemma {:induction false} CleanIngests(cfg: Config, host: string, rows: set<Row>, lines: seq<Line>)
    ensures Ingest(cfg, host, rows, lines).Some? <==> Clean(cfg, host, lines)
  {
    if lines != [] {
      var n := |lines| - 1;
      CleanIngests(cfg, host, rows, lines[..n]);
      assert lines == lines[..n] + [lines[n]];
    }
  }

  /** The rows the lines ask for. */
  function RowsOf(cfg: Config, host: string, lines: seq<Line>): set<Row> {
    set l <- lines | RowOf(cfg, host, l).Stored? :: RowOf(cfg, host, l).row
  }

  /** When no row of the whole is a duplicate of another, inserting is set union. */
  lemma {:induction false} IngestIsUnion(cfg: Config, host: string, rows: set<Row>, lines: seq<Line>)
    requires Clean(cfg, host, lines) && Antichain(rows + RowsOf(cfg, host, lines))
    ensures Ingest(cfg, host, rows, lines) == Some(rows + RowsOf(cfg, host, lines))
  {
    if lines == [] {
      assert rows + RowsOf(cfg, host, lines) == rows;
    } else {
      var n := |lines| - 1;
      var fewer := RowsOf(cfg, host, lines[..n]);
      assert lines == lines[..n] + [lines[n]];
      var o := RowOf(cfg, host, lines[n]);
      var all := RowsOf(cfg, host, lines);
      assert all == fewer + if o.Stored? then {o.row} else {};
      IngestIsUnion(cfg, host, rows, lines[..n]);
      if o.Stored? {
        assert Subsumes(o.row, o.row);
        assert Insert(rows + fewer, o.row) == rows + fewer + {o.row};
        assert rows + fewer + {o.row} == rows + all;
      } else {
        assert fewer == all;
      }
    }
  }

  // ---- Histories ----

  datatype Run = Run(host: string, files: seq<seq<Line>>)

  /** The tables after a history of runs; a run that raises leaves them as they were. */
  function After(cfg: Config, runs: seq<Run>): Tables {
    if runs == [] then Tables({}, map[])
    else
      var n := |runs| - 1;
      var before := After(cfg, runs[..n]);
      match Step(cfg, before, runs[n].host, runs[n].files)
      case None => before
      case Some(t) => t
  }

  predicate Commits(cfg: Config, runs: seq<Run>)
    requires runs != []
  {
    var n := |runs| - 1;
    Step(cfg, After(cfg, runs[..n]), runs[n].host, runs[n].files).Some?
  }

  /** The line was in a file of a committed run of the host. */
  ghost predicate Presented(cfg: Config, runs: seq<Run>, host: string, line: Line) {
    runs != [] &&
    (var n := |runs| - 1;
     Presented(cfg, runs[..n], host, line)
     || (Commits(cfg, runs) && runs[n].host == host && Among(runs[n].files, line)))
  }

  /** The logs behave: files are chronological, and a line not presented before is no older than the mark. */
  ghost predicate WellBehaved(cfg: Config, runs: seq<Run>) {
    runs == [] ||
    (var n := |runs| - 1;
     && WellBehaved(cfg, runs[..n])
     && (forall f <- runs[n].files :: Chronological(cfg, f))
     && forall line :: Among(runs[n].files, line) && Parseable(cfg, line)
                       && !Presented(cfg, runs[..n], runs[n].host, line) ==>
          !Older(line, MarkOf(After(cfg, runs[..n]).marks, runs[n].host)))
  }

  /** Rows ever asked for by presented lines. */
  ghost predicate Asked(cfg: Config, runs: seq<Run>, r: Row) {
    exists host, line :: Presented(cfg, runs, host, line) && RowOf(cfg, host, line) == Stored(r)
  }

  ghost predicate NoOverlap(cfg: Config, runs: seq<Run>) {
    forall x, y :: Asked(cfg, runs, x) && Asked(cfg, runs, y) && Subsumes(x, y) ==> x == y
  }

  /** The tables hold exactly the rows presented lines ask for. */
  ghost predicate HoldsAsked(cfg: Config, runs: seq<Run>) {
    forall r :: r in After(cfg, runs).rows <==> Asked(cfg, runs, r)
  }

  lemma PresentedGrows(cfg: Config, runs: seq<Run>, host: string, line: Line)
    requires runs != [] && Presented(cfg, runs[..|runs| - 1], host, line)
    ensures Presented(cfg, runs, host, line)
  {
  }

  lemma AskedGrows(cfg: Config, runs: seq<Run>, r: Row)
    requires runs != [] && Asked(cfg, runs[..|runs| - 1], r)
    ensures Asked(cfg, runs, r)
  {
    var host, line :| Presented(cfg, runs[..|runs| - 1], host, line) && RowOf(cfg, host, line) == Stored(r);
    PresentedGrows(cfg, runs, host, line);
  }

  /** After a run that commits, the tables hold exactly the old rows and the rows of the run's lines. */
  lemma CommittedRun(cfg: Config, runs: seq<Run>)
    requires runs != [] && WellBehaved(cfg, runs) && NoOverlap(cfg, runs) && Commits(cfg, runs)
    requires HoldsAsked(cfg, runs[..|runs| - 1])
    requires forall host, line :: Presented(cfg, runs[..|runs| - 1], host, line) ==> !RowOf(cfg, host, line).Crashed?
    ensures HoldsAsked(cfg, runs)
    ensures forall host, line :: Presented(cfg, runs, host, line) ==> !RowOf(cfg, host, line).Crashed?
  {
    var n := |runs| - 1;
    var run, before := runs[n], After(cfg, runs[..n]);
    var lines := ScannedAll(cfg, run.files, MarkOf(before.marks, run.host));
    CleanIngests(cfg, run.host, before.rows, lines);
    forall line
      ensures line in lines ==> Presented(cfg, runs, run.host, line)
      ensures Among(run.files, line) && line !in lines ==>
                !Parseable(cfg, line) || Presented(cfg, runs[..n], run.host, line)
    {
      RunFindsNew(cfg, run.files, MarkOf(before.marks, run.host), line);
    }
    var rows := RowsOf(cfg, run.host, lines);
    forall r <- before.rows + rows
      ensures Asked(cfg, runs, r)
    {
      if r in before.rows {
        AskedGrows(cfg, runs, r);
      }
    }
    IngestIsUnion(cfg, run.host, before.rows, lines);
    forall r | Asked(cfg, runs, r)
      ensures r in before.rows + rows
    {
      var host, line :| Presented(cfg, runs, host, line) && RowOf(cfg, host, line) == Stored(r);
      if !Presented(cfg, runs[..n], host, line) {
        assert line in lines;
      } else {
        assert Asked(cfg, runs[..n], r);
      }
    }
  }

  lemma AbandonedRun(cfg: Config, runs: seq<Run>)
    requires runs != [] && !Commits(cfg, runs)
    ensures After(cfg, runs) == After(cfg, runs[..|runs| - 1])
    ensures forall host, line :: Presented(cfg, runs, host, line) <==> Presented(cfg, runs[..|runs| - 1], host, line)
    ensures forall r :: Asked(cfg, runs, r) <==> Asked(cfg, runs[..|runs| - 1], r)
  {
    var n := |runs| - 1;
    forall r
      ensures Asked(cfg, runs, r) <==> Asked(cfg, runs[..n], r)
    {
      if Asked(cfg, runs, r) {
        var host, line :| Presented(cfg, runs, host, line) && RowOf(cfg, host, line) == Stored(r);
        assert Presented(cfg, runs[..n], host, line);
      }
      if Asked(cfg, runs[..n], r) {
        AskedGrows(cfg, runs, r);
      }
    }
  }

  /** After any history of runs over growing, rotating logs, the tables hold exactly the rows of every
      line ever presented. */
  lemma {:induction false} IncrementalIsComplete(cfg: Config, runs: seq<Run>)
    requires WellBehaved(cfg, runs) && NoOverlap(cfg, runs)
    ensures HoldsAsked(cfg, runs)
    ensures forall host, line :: Presented(cfg, runs, host, line) ==> !RowOf(cfg, host, line).Crashed?
  {
    if runs != [] {
      var n := |runs| - 1;
      forall x, y | Asked(cfg, runs[..n], x) && Asked(cfg, runs[..n], y) && Subsumes(x, y)
        ensures x == y
      {
        AskedGrows(cfg, runs, x);
        AskedGrows(cfg, runs, y);
      }
      IncrementalIsComplete(cfg, runs[..n]);
      if Commits(cfg, runs) {
        CommittedRun(cfg, runs);
      } else {
        AbandonedRun(cfg, runs);
      }
    }
  }

  /** A line with the host whose log it is from. */
  datatype Logged = Logged(host: string, line: Line)

  /** One pass over the lines of all hosts into empty tables, in the given order; None when a line raises. */
  function FullPass(cfg: Config, all: seq<Logged>): Option<set<Row>> {
    if all == [] then Some({})
    else
      var n := |all| - 1;
      match (FullPass(cfg, all[..n]), RowOf(cfg, all[n].host, all[n].line))
      case (None, _) => None
      case (Some(_), Crashed) => None
      case (Some(rs), Skipped) => Some(rs)
      case (Some(rs), Stored(r)) => Some(Insert(rs, r))
  }

  function LoggedRows(cfg: Config, all: seq<Logged>): set<Row> {
    set x <- all | RowOf(cfg, x.host, x.line).Stored? :: RowOf(cfg, x.host, x.line).row
  }

  lemma {:induction false} FullPassIsUnion(cfg: Config, all: seq<Logged>)
    requires forall x <- all :: !RowOf(cfg, x.host, x.line).Crashed?
    requires Antichain(LoggedRows(cfg, all))
    ensures FullPass(cfg, all) == Some(LoggedRows(cfg, all))
  {
    hide RowOf, Subsumes;
    if all == [] {
      assert LoggedRows(cfg, all) == {};
    } else {
      var n := |all| - 1;
      var fewer, o := LoggedRows(cfg, all[..n]), RowOf(cfg, all[n].host, all[n].line);
      assert all == all[..n] + [all[n]];
      assert LoggedRows(cfg, all) == fewer + if o.Stored? then {o.row} else {};
      FullPassIsUnion(cfg, all[..n]);
      if o.Stored? {
        SubsumesSelf(o.row);
        assert forall x <- fewer :: Subsumes(x, o.row) ==> x == o.row;
        assert Insert(fewer, o.row) == fewer + {o.row};
      } else {
        assert fewer == LoggedRows(cfg, all);
      }
    }
  }

  lemma SubsumesSelf(r: Row)
    ensures Subsumes(r, r)
  {
  }

  /** That is what a single full pass inserts over the logs of all hosts, in whatever order it reads them. */
  lemma SameAsFullPass(cfg: Config, runs: seq<Run>, all: seq<Logged>)
    requires WellBehaved(cfg, runs) && NoOverlap(cfg, runs)
    requires forall host, line :: Logged(host, line) in all <==> Presented(cfg, runs, host, line)
    ensures FullPass(cfg, all) == Some(After(cfg, runs).rows)
  {
    hide RowOf, Subsumes, After, Presented, FullPass;
    IncrementalIsComplete(cfg, runs);
    var rows := LoggedRows(cfg, all);
    forall x <- all
      ensures Presented(cfg, runs, x.host, x.line)
    {
      assert Logged(x.host, x.line) == x;
    }
    forall r
      ensures r in rows <==> Asked(cfg, runs, r)
    {
      if Asked(cfg, runs, r) {
        var host, line :| Presented(cfg, runs, host, line) && RowOf(cfg, host, line) == Stored(r);
        assert Logged(host, line) in all;
      }
    }
    FullPassIsUnion(cfg, all);
    assert rows == After(cfg, runs).rows;
  }

  /** Lines of one event type always carrying the same number of fields never overlap. */
  lemma OneArityPerEvent(cfg: Config, runs: seq<Run>, arity: string -> nat)
    requires forall host, line :: Presented(cfg, runs, host, line) && line.Entry? ==> |line.values| == arity(line.event)
    ensures NoOverlap(cfg, runs)
  {
    forall x, y | Asked(cfg, runs, x) && Asked(cfg, runs, y) && Subsumes(x, y)
      ensures x == y
    {
      var h, a :| Presented(cfg, runs, h, a) && RowOf(cfg, h, a) == Stored(x);
      var h', b :| Presented(cfg, runs, h', b) && RowOf(cfg, h', b) == Stored(y);
      OneArityNoOverlap(cfg, h, h', a, b);
    }
  }

  // ---- Watermarks and reruns ----

  lemma {:induction false} ScannedNotOlder(cfg: Config, file: seq<Line>, mark: Option<int>, line: Line)
    requires line in Scanned(cfg, file, mark)
    ensures Parseable(cfg, line) && !Older(line, mark)
  {
    var n := |file| - 1;
    if line != file[n] || !Parseable(cfg, file[n]) {
      ScannedNotOlder(cfg, file[..n], mark, line);
    }
  }

  lemma {:induction false} ScannedAllNotOlder(cfg: Config, files: seq<seq<Line>>, mark: Option<int>, line: Line)
    requires line in ScannedAll(cfg, files, mark)
    ensures Parseable(cfg, line) && !Older(line, mark)
  {
    var n := |files| - 1;
    if line in ScannedAll(cfg, files[..n], mark) {
      ScannedAllNotOlder(cfg, files[..n], mark, line);
    } else {
      ScannedNotOlder(cfg, files[n], mark, line);
    }
  }

  /** The latest mark is the timestamp of a processed line, and no processed line is later. */
  lemma {:induction false} LatestIsMaximum(cfg: Config, lines: seq<Line>)
    ensures var m := LatestMark(cfg, lines);
            && (m.Some? ==> exists l <- lines :: Processed(cfg, l) && l.timestamp == m.value)
            && (forall l <- lines :: Processed(cfg, l) ==> m.Some? && l.timestamp <= m.value)
  {
    if lines != [] {
      var n := |lines| - 1;
      LatestIsMaximum(cfg, lines[..n]);
      assert lines == lines[..n] + [lines[n]];
      assert lines[n] in lines;
    }
  }

  /** A host's watermark never decreases, and other hosts' marks are untouched. */
  lemma MarkNeverDecreases(cfg: Config, t: Tables, host: string, files: seq<seq<Line>>)
    requires Step(cfg, t, host, files).Some?
    ensures var t' := Step(cfg, t, host, files).value;
            && (host in t.marks ==> host in t'.marks && t.marks[host] <= t'.marks[host])
            && (forall h :: h != host ==> MarkOf(t'.marks, h) == MarkOf(t.marks, h))
  {
    var lines := ScannedAll(cfg, files, MarkOf(t.marks, host));
    LatestIsMaximum(cfg, lines);
    if LatestMark(cfg, lines).Some? && host in t.marks {
      var l :| l in lines && Processed(cfg, l) && l.timestamp == LatestMark(cfg, lines).value;
      ScannedAllNotOlder(cfg, files, MarkOf(t.marks, host), l);
    }
  }

  /** A run that commits moves the host's watermark to the latest timestamp it processed, and only then. */
  lemma MarkIsLatest(cfg: Config, t: Tables, host: string, files: seq<seq<Line>>)
    requires Step(cfg, t, host, files).Some?
    ensures var t', lines := Step(cfg, t, host, files).value, ScannedAll(cfg, files, MarkOf(t.marks, host));
            && (forall l <- lines :: OfInterest(cfg, l) ==> host in t'.marks && l.timestamp <= t'.marks[host])
            && (if exists l <- lines :: OfInterest(cfg, l)
                then host in t'.marks && exists l <- lines :: OfInterest(cfg, l) && l.timestamp == t'.marks[host]
                else t'.marks == t.marks)
  {
    LatestIsMaximum(cfg, ScannedAll(cfg, files, MarkOf(t.marks, host)));
    assert forall l :: OfInterest(cfg, l) <==> Processed(cfg, l);
  }

  /** The line is of a known event type, and of one of two in minimal runs. */
  predicate OfInterest(cfg: Config, line: Line) {
    && line.Entry? && line.event in cfg.schema
    && (cfg.minimal ==> line.event == "connected" || line.event == "page_views")
  }

  /** Every line's row has a duplicate in the tables already. */
  ghost predicate AllPresent(cfg: Config, host: string, rows: set<Row>, lines: seq<Line>) {
    forall l <- lines :: RowOf(cfg, host, l).Stored? ==> exists x <- rows :: Subsumes(x, RowOf(cfg, host, l).row)
  }

  lemma {:induction false} IngestLeavesPresent(cfg: Config, host: string, rows: set<Row>, lines: seq<Line>)
    requires Ingest(cfg, host, rows, lines).Some?
    ensures rows <= Ingest(cfg, host, rows, lines).value
    ensures AllPresent(cfg, host, Ingest(cfg, host, rows, lines).value, lines)
  {
    if lines != [] {
      var n := |lines| - 1;
      IngestLeavesPresent(cfg, host, rows, lines[..n]);
      var before, after := Ingest(cfg, host, rows, lines[..n]).value, Ingest(cfg, host, rows, lines).value;
      assert before <= after;
      forall l <- lines | RowOf(cfg, host, l).Stored?
        ensures exists x <- after :: Subsumes(x, RowOf(cfg, host, l).row)
      {
        if l == lines[n] {
          var r := RowOf(cfg, host, l).row;
          assert Subsumes(r, r);
        } else {
          assert l in lines[..n];
          var x :| x in before && Subsumes(x, RowOf(cfg, host, l).row);
          assert x in after;
        }
      }
    }
  }

  lemma {:induction false} IngestPresentChangesNothing(cfg: Config, host: string, rows: set<Row>, lines: seq<Line>)
    requires Clean(cfg, host, lines) && AllPresent(cfg, host, rows, lines)
    ensures Ingest(cfg, host, rows, lines) == Some(rows)
  {
    if lines != [] {
      var n := |lines| - 1;
      assert lines == lines[..n] + [lines[n]];
      IngestPresentChangesNothing(cfg, host, rows, lines[..n]);
      assert lines[n] in lines;
    }
  }

  /** A higher mark only makes a scan stop sooner. */
  lemma {:induction false} ScanShrinks(cfg: Config, file: seq<Line>, mark: Option<int>, mark': Option<int>, line: Line)
    requires mark.Some? ==> mark'.Some? && mark.value <= mark'.value
    requires line in Scanned(cfg, file, mark')
    ensures line in Scanned(cfg, file, mark)
  {
    var n := |file| - 1;
    if !Parseable(cfg, file[n]) || line != file[n] {
      ScanShrinks(cfg, file[..n], mark, mark', line);
    }
  }

  lemma {:induction false} ScanAllShrinks(cfg: Config, files: seq<seq<Line>>, mark: Option<int>, mark': Option<int>,
                                          line: Line)
    requires mark.Some? ==> mark'.Some? && mark.value <= mark'.value
    requires line in ScannedAll(cfg, files, mark')
    ensures line in ScannedAll(cfg, files, mark)
  {
    var n := |files| - 1;
    if line in ScannedAll(cfg, files[..n], mark') {
      ScanAllShrinks(cfg, files[..n], mark, mark', line);
    } else {
      ScanShrinks(cfg, files[n], mark, mark', line);
    }
  }

  /** Running again over unchanged files changes nothing at all, whatever the order of their lines. */
  lemma RerunChangesNothing(cfg: Config, t: Tables, host: string, files: seq<seq<Line>>)
    requires Step(cfg, t, host, files).Some?
    ensures var t' := Step(cfg, t, host, files).value; Step(cfg, t', host, files) == Some(t')
  {
    var t' := Step(cfg, t, host, files).value;
    var mark, mark' := MarkOf(t.marks, host), MarkOf(t'.marks, host);
    var lines, lines' := ScannedAll(cfg, files, mark), ScannedAll(cfg, files, mark');
    MarkNeverDecreases(cfg, t, host, files);
    CleanIngests(cfg, host, t.rows, lines);
    IngestLeavesPresent(cfg, host, t.rows, lines);
    LatestIsMaximum(cfg, lines);
    LatestIsMaximum(cfg, lines');
    forall l <- lines'
      ensures l in lines && !Older(l, mark')
    {
      ScanAllShrinks(cfg, files, mark, mark', l);
      ScannedAllNotOlder(cfg, files, mark', l);
    }
    IngestPresentChangesNothing(cfg, host, t'.rows, lines');
    if LatestMark(cfg, lines').Some? {
      var l :| l in lines' && Processed(cfg, l) && l.timestamp == LatestMark(cfg, lines').value;
      assert t'.marks == t'.marks[host := l.timestamp];
    }
  }

  // ---- When the order of lines matters ----

  lemma {:induction false} IngestAddsOnlyAsked(cfg: Config, host: string, rows: set<Row>, lines: seq<Line>)
    requires Ingest(cfg, host, rows, lines).Some?
    ensures rows <= Ingest(cfg, host, rows, lines).value <= rows + RowsOf(cfg, host, lines)
  {
    if lines != [] {
      var n := |lines| - 1;
      assert lines == lines[..n] + [lines[n]];
      IngestAddsOnlyAsked(cfg, host, rows, lines[..n]);
    }
  }

  lemma {:induction false} IngestSplit(cfg: Config, host: string, rows: set<Row>, a: seq<Line>, b: seq<Line>)
    requires Ingest(cfg, host, rows, a).Some?
    ensures Ingest(cfg, host, rows, a + b) == Ingest(cfg, host, Ingest(cfg, host, rows, a).value, b)
  {
    if b == [] {
      assert a + b == a;
    } else {
      var n := |b| - 1;
      IngestSplit(cfg, host, rows, a, b[..n]);
      assert (a + b)[..|a + b| - 1] == a + b[..n];
    }
  }

  lemma {:induction false} OnceDuplicateNeverAdded(cfg: Config, host: string, rows: set<Row>, lines: seq<Line>,
                                                   x: Row, r: Row)
    requires Ingest(cfg, host, rows, lines).Some?
    requires x in rows && Subsumes(x, r) && r !in rows
    ensures r !in Ingest(cfg, host, rows, lines).value
  {
    if lines != [] {
      IngestAddsOnlyAsked(cfg, host, rows, lines[..|lines| - 1]);
      OnceDuplicateNeverAdded(cfg, host, rows, lines[..|lines| - 1], x, r);
    }
  }

  /** Every reading order gives the same tables. */
  ghost predicate OrderIndependent(cfg: Config, host: string, lines: seq<Line>) {
    forall p: seq<Line> :: multiset(p) == multiset(lines) ==> Ingest(cfg, host, {}, p) == Ingest(cfg, host, {}, lines)
  }

  lemma NoOverlapNoOrder(cfg: Config, host: string, lines: seq<Line>, p: seq<Line>)
    requires Clean(cfg, host, lines) && Antichain(RowsOf(cfg, host, lines)) && multiset(p) == multiset(lines)
    ensures Ingest(cfg, host, {}, p) == Ingest(cfg, host, {}, lines)
  {
    SameMembers(p, lines);
    assert RowsOf(cfg, host, p) == RowsOf(cfg, host, lines);
    assert {} + RowsOf(cfg, host, lines) == RowsOf(cfg, host, lines);
    IngestIsUnion(cfg, host, {}, p);
    IngestIsUnion(cfg, host, {}, lines);
  }

  lemma OverlapMakesOrderMatter(cfg: Config, host: string, lines: seq<Line>) returns (p: seq<Line>, q: seq<Line>)
    requires Clean(cfg, host, lines) && !Antichain(RowsOf(cfg, host, lines))
    ensures multiset(p) == multiset(q) == multiset(lines)
    ensures Ingest(cfg, host, {}, p) != Ingest(cfg, host, {}, q)
  {
    var x, y :| x in RowsOf(cfg, host, lines) && y in RowsOf(cfg, host, lines) && Subsumes(x, y) && x != y;
    var a :| a in lines && RowOf(cfg, host, a) == Stored(x);
    var b :| b in lines && RowOf(cfg, host, b) == Stored(y);
    hide RowOf, Ingest, Subsumes;
    var rest := TwoFirst(lines, a, b);
    OrdersDiffer(cfg, host, a, b, rest, x, y);
    p, q := [a, b] + rest, [b, a] + rest;
  }

  /** Reading order is immaterial exactly when no line asks for a duplicate of another line's row. */
  lemma OrderMattersExactly(cfg: Config, host: string, lines: seq<Line>)
    requires Clean(cfg, host, lines)
    ensures OrderIndependent(cfg, host, lines) <==> Antichain(RowsOf(cfg, host, lines))
  {
    hide RowsOf, Antichain, Ingest;
    if Antichain(RowsOf(cfg, host, lines)) {
      forall p: seq<Line> | multiset(p) == multiset(lines)
        ensures Ingest(cfg, host, {}, p) == Ingest(cfg, host, {}, lines)
      {
        NoOverlapNoOrder(cfg, host, lines, p);
      }
    } else {
      var p, q := OverlapMakesOrderMatter(cfg, host, lines);
    }
  }

  lemma SameMembers(p: seq<Line>, lines: seq<Line>)
    requires multiset(p) == multiset(lines)
    ensures forall l :: l in p <==> l in lines
  {
    forall l
      ensures l in p <==> l in lines
    {
      assert l in p <==> l in multiset(p);
      assert l in lines <==> l in multiset(lines);
    }
  }

  lemma Pull(lines: seq<Line>, a: Line) returns (rest: seq<Line>)
    requires a in lines
    ensures multiset([a] + rest) == multiset(lines)
    ensures forall l :: l in lines && l != a ==> l in rest
    ensures forall l <- rest :: l in lines
  {
    var i :| 0 <= i < |lines| && lines[i] == a;
    rest := lines[..i] + lines[i + 1..];
    assert lines == lines[..i] + [a] + lines[i + 1..];
    forall l | l in lines && l != a
      ensures l in rest
    {
      assert l in lines[..i] || l in lines[i + 1..];
    }
  }

  lemma TwoFirst(lines: seq<Line>, a: Line, b: Line) returns (rest: seq<Line>)
    requires a in lines && b in lines && a != b
    ensures multiset([a, b] + rest) == multiset(lines)
    ensures multiset([b, a] + rest) == multiset(lines)
    ensures forall l <- rest :: l in lines
  {
    var most := Pull(lines, a);
    rest := Pull(most, b);
    assert [a, b] + rest == [a] + ([b] + rest);
    assert multiset([a] + ([b] + rest)) == multiset([a]) + multiset([b] + rest);
    assert multiset([a] + most) == multiset([a]) + multiset(most);
    assert multiset([a, b]) == multiset([b, a]);
  }

  lemma OrdersDiffer(cfg: Config, host: string, a: Line, b: Line, rest: seq<Line>, x: Row, y: Row)
    requires RowOf(cfg, host, a) == Stored(x) && RowOf(cfg, host, b) == Stored(y) && Subsumes(x, y) && x != y
    requires Clean(cfg, host, rest)
    ensures Ingest(cfg, host, {}, [a, b] + rest) != Ingest(cfg, host, {}, [b, a] + rest)
  {
    IngestAppend(cfg, host, {}, [], a);
    IngestAppend(cfg, host, {}, [a], b);
    IngestAppend(cfg, host, {}, [], b);
    IngestAppend(cfg, host, {}, [b], a);
    assert [] + [a] == [a] && [] + [b] == [b] && [a] + [b] == [a, b] && [b] + [a] == [b, a];
    var ab, ba := Ingest(cfg, host, {}, [a, b]).value, Ingest(cfg, host, {}, [b, a]).value;
    assert x in ab && y !in ab && y in ba;
    IngestSplit(cfg, host, {}, [a, b], rest);
    IngestSplit(cfg, host, {}, [b, a], rest);
    CleanIngests(cfg, host, ab, rest);
    CleanIngests(cfg, host, ba, rest);
    OnceDuplicateNeverAdded(cfg, host, ab, rest, x, y);
    IngestAddsOnlyAsked(cfg, host, ba, rest);
  }

  // ---- A real overlap ----

  lemma {:induction false} NoBytes(cfg: Config, names: seq<string>, values: seq<string>)
    requires |names| == |values| && "bytes" !in names
    ensures BytesCheck(cfg, names, values).Pass?
  {
    if names != [] {
      NoBytes(cfg, names[1..], values[1..]);
    }
  }

  /** The line is stored under the schema entry, none of whose columns is treated specially. */
  ghost predicate Plain(cfg: Config, line: Line, key: string, channel: nat) {
    && Processed(cfg, line) && SchemaKey(cfg, line) == Some(key) && key != "bytes_transferred.8"
    && key in cfg.schema
    && var names := cfg.schema[key];
       && |names| == |line.values|
       && Distinct(names) && "bytes" !in names && "timestamp" !in names && "host_id" !in names
       && channel < |names| && names[channel] == "propagation_channel_id"
       && line.values[channel] !in cfg.excludedChannels && !("connected" <= key)
  }

  function PlainCells(cfg: Config, names: seq<string>, values: seq<string>): (cells: seq<Option<Value>>)
    requires |names| == |values|
    ensures |cells| == |names|
  {
    seq(|names|, i requires 0 <= i < |names| => Cell(cfg, "", names[i], values[i]))
  }

  /** The row has the named columns and the two common ones, and this in them. */
  ghost predicate Holds(row: Row, names: seq<string>, cells: seq<Option<Value>>, t: int, host: string)
    requires |names| == |cells|
  {
    && row.fields.Keys == (set n | n in names) + {"timestamp", "host_id"}
    && row.fields["timestamp"] == Some(Time(t)) && row.fields["host_id"] == Some(Text(host))
    && forall i :: 0 <= i < |names| ==> row.fields[names[i]] == cells[i]
  }

  lemma PlainCellAt(cfg: Config, key: string, names: seq<string>, values: seq<string>, i: nat)
    requires |names| == |values| && i < |names| && Distinct(names) && !("connected" <= key)
    ensures names[i] in Cells(cfg, key, names, values)
    ensures Cells(cfg, key, names, values)[names[i]] == PlainCells(cfg, names, values)[i]
  {
    CellAt(cfg, key, names, values, i);
    assert |"connected"| > |""|;
  }

  lemma PlainHolds(cfg: Config, key: string, names: seq<string>, values: seq<string>, row: Row, t: int, host: string)
    requires |names| == |values| && Distinct(names) && !("connected" <= key)
    requires "timestamp" !in names && "host_id" !in names
    requires row.fields == Cells(cfg, key, names, values)["timestamp" := Some(Time(t))]["host_id" := Some(Text(host))]
    ensures Holds(row, names, PlainCells(cfg, names, values), t, host)
  {
    hide Distinct, Cell, PlainCells;
    forall i | 0 <= i < |names|
      ensures row.fields[names[i]] == PlainCells(cfg, names, values)[i]
    {
      assert names[i] in names;
      PlainCellAt(cfg, key, names, values, i);
    }
  }

  /** What the columns of such a line's row hold. */
  lemma PlainRow(cfg: Config, host: string, line: Line, key: string, channel: nat)
    requires Plain(cfg, line, key, channel)
    ensures RowOf(cfg, host, line).Stored?
    ensures var row, names := RowOf(cfg, host, line).row, cfg.schema[key];
            row.table == line.event && Holds(row, names, PlainCells(cfg, names, line.values), line.timestamp, host)
  {
    var names, values := cfg.schema[key], line.values;
    hide BytesCheck, Cells, IndexOf, Cell, Holds, PlainCells;
    NoBytes(cfg, names, values);
    ColumnAt(names, channel);
    PlainHolds(cfg, key, names, values, RowOf(cfg, host, line).row, line.timestamp, host);
  }

  /** A row that lists fewer columns, with the same in them, is a duplicate. */
  lemma FewerColumns(x: Row, y: Row, names: seq<string>, cells: seq<Option<Value>>, n: nat, t: int, host: string)
    requires x.table == y.table && Distinct(names) && "timestamp" !in names && "host_id" !in names
    requires n < |names| == |cells| && Holds(x, names, cells, t, host) && Holds(y, names[..n], cells[..n], t, host)
    ensures Subsumes(x, y) && x != y
  {
    forall c <- y.fields
      ensures Column(x, c) == y.fields[c]
    {
      if c in names[..n] {
        var i :| 0 <= i < n && names[..n][i] == c;
        assert names[i] in names && x.fields[names[i]] == cells[i] == cells[..n][i];
      }
    }
    assert names[n] in names && names[n] !in names[..n];
    assert names[n] in x.fields && names[n] !in y.fields;
  }

  /** A line stored under fewer columns of the same event, with the same values in them, asks for a duplicate. */
  lemma PrefixSubsumed(cfg: Config, host: string, full: Line, short: Line, key: string, key': string, channel: nat)
    requires Plain(cfg, full, key, channel) && Plain(cfg, short, key', channel)
    requires full.event == short.event && full.timestamp == short.timestamp
    requires cfg.schema[key'] < cfg.schema[key] && short.values < full.values
    ensures RowOf(cfg, host, full).Stored? && RowOf(cfg, host, short).Stored?
    ensures var x, y := RowOf(cfg, host, full).row, RowOf(cfg, host, short).row; Subsumes(x, y) && x != y
  {
    hide RowOf, SchemaKey, Subsumes, Cell, Distinct, Holds;
    PlainRow(cfg, host, full, key, channel);
    PlainRow(cfg, host, short, key', channel);
    var x, y := RowOf(cfg, host, full).row, RowOf(cfg, host, short).row;
    var names, n := cfg.schema[key], |cfg.schema[key']|;
    var cells := PlainCells(cfg, names, full.values);
    assert names[..n] == cfg.schema[key'];
    assert cells[..n] == PlainCells(cfg, cfg.schema[key'], short.values);
    FewerColumns(x, y, names, cells, n, full.timestamp, host);
  }

  /** Two lines of which one asks for a duplicate of the other's row depend on their order. */
  lemma PairOrderMatters(cfg: Config, host: string, a: Line, b: Line, x: Row, y: Row)
    requires RowOf(cfg, host, a) == Stored(x) && RowOf(cfg, host, b) == Stored(y) && Subsumes(x, y) && x != y
    ensures Clean(cfg, host, [a, b]) && !OrderIndependent(cfg, host, [a, b])
  {
    hide RowOf, Subsumes, OrderIndependent;
    assert x in RowsOf(cfg, host, [a, b]) && y in RowsOf(cfg, host, [a, b]);
    OrderMattersExactly(cfg, host, [a, b]);
  }

  /** The columns of a handshake before and since the last one was added. */
  const OLDER_HANDSHAKE := ["server_id", "client_region", "client_city", "client_isp", "propagation_channel_id",
                            "sponsor_id", "client_version", "client_platform", "relay_protocol"]
  const HANDSHAKE := OLDER_HANDSHAKE + ["tunnel_whole_device"]

  ghost predicate ListsHandshakes(cfg: Config) {
    && "handshake" in cfg.schema && cfg.schema["handshake"] == HANDSHAKE
    && "handshake.9" in cfg.schema && cfg.schema["handshake.9"] == OLDER_HANDSHAKE
  }

  lemma HandshakeColumns()
    ensures |OLDER_HANDSHAKE| == 9 && |HANDSHAKE| == 10 && OLDER_HANDSHAKE < HANDSHAKE
    ensures OLDER_HANDSHAKE[4] == HANDSHAKE[4] == "propagation_channel_id"
    ensures forall name <- ["bytes", "timestamp", "host_id"] :: name !in HANDSHAKE && name !in OLDER_HANDSHAKE
  {
    var lengths := [9, 13, 11, 10, 22, 10, 14, 15, 14];
    assert forall i :: 0 <= i < 9 ==> |OLDER_HANDSHAKE[i]| == lengths[i];
    assert |"tunnel_whole_device"| == 19;
    assert |"bytes"| == 5 && |"host_id"| == 7 && |"timestamp"| == 9 && "timestamp"[0] != OLDER_HANDSHAKE[0][0];
  }

  lemma HandshakeDistinct()
    ensures Distinct(OLDER_HANDSHAKE) && Distinct(HANDSHAKE)
  {
    assert |OLDER_HANDSHAKE[0]| == 9 && |OLDER_HANDSHAKE[1]| == 13 && |OLDER_HANDSHAKE[2]| == 11;
    assert |OLDER_HANDSHAKE[3]| == 10 && |OLDER_HANDSHAKE[4]| == 22 && |OLDER_HANDSHAKE[5]| == 10;
    assert |OLDER_HANDSHAKE[6]| == 14 && |OLDER_HANDSHAKE[7]| == 15 && |OLDER_HANDSHAKE[8]| == 14;
    assert |HANDSHAKE[9]| == 19;
    assert OLDER_HANDSHAKE[3][0] == 'c' && OLDER_HANDSHAKE[5][0] == 's';
    assert OLDER_HANDSHAKE[6][0] == 'c' && OLDER_HANDSHAKE[8][0] == 'r';
  }

  lemma HandshakePlain(cfg: Config, t: int, values: seq<string>)
    requires ListsHandshakes(cfg) && !cfg.minimal && 9 <= |values| <= 10 && values[4] !in cfg.excludedChannels
    ensures Plain(cfg, Entry(t, "handshake", values), if |values| == 10 then "handshake" else "handshake.9", 4)
  {
    HandshakeColumns();
    HandshakeDistinct();
    hide Distinct;
    assert Decimal(9) == "9";
    assert "handshake" + "." + "9" == "handshake.9";
    assert "connected"[0] != "handshake"[0] && "connected"[0] != "handshake.9"[0];
    assert |"bytes_transferred.8"| != |"handshake"| && |"bytes_transferred.8"| != |"handshake.9"|;
  }

  /** Whatever a handshake's fields are, the line without the newest one overlaps it, and then order matters. */
  lemma ShorterFormOverlaps(cfg: Config, host: string, t: int, values: seq<string>)
    requires ListsHandshakes(cfg) && !cfg.minimal && |values| == 10 && values[4] !in cfg.excludedChannels
    ensures var full, short := Entry(t, "handshake", values), Entry(t, "handshake", values[..9]);
            Clean(cfg, host, [full, short]) && !OrderIndependent(cfg, host, [full, short])
  {
    var full, short := Entry(t, "handshake", values), Entry(t, "handshake", values[..9]);
    HandshakeColumns();
    HandshakePlain(cfg, t, values);
    HandshakePlain(cfg, t, values[..9]);
    hide Plain, RowOf, Subsumes, Clean, OrderIndependent;
    PrefixSubsumed(cfg, host, full, short, "handshake", "handshake.9", 4);
    PairOrderMatters(cfg, host, full, short, RowOf(cfg, host, full).row, RowOf(cfg, host, short).row);
  }
}
