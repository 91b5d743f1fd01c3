/** The pass over the geolocation table that fills every country's route file. */
module RouteTable {
  import opened Options
  import opened Routes
  import opened RouteCover

  /** Row cells used: first address, last address, country code. */
  const FIRST := 0
  const LAST := 1
  const COUNTRY := 4

  /** A six-cell row whose addresses parse to non-zero numbers, for the given country. */
  predicate RowFor(row: seq<string>, aton: string -> Option<Address>, country: string) {
    |row| == 6 && row[COUNTRY] == country && Usable(aton(row[FIRST]), aton(row[LAST]), country)
  }

  /** The country's file after all rows: its usable rows' lines, in row order. */
  function CountryFile(rows: seq<seq<string>>, aton: string -> Option<Address>, country: string): seq<Route> {
    if rows == [] then []
    else
      var n := |rows| - 1;
      var row := rows[n];
      CountryFile(rows[..n], aton, country)
      + if RowFor(row, aton, country) then RowLines(aton(row[FIRST]).value, aton(row[LAST]).value) else []
  }

  /** An open file exists for a country exactly when some row is for it, and holds that country's lines. */
  ghost predicate FilesOf(files: map<string, seq<Route>>, rows: seq<seq<string>>, aton: string -> Option<Address>) {
    && (forall c :: c in files <==> exists row <- rows :: RowFor(row, aton, c))
    && (forall c <- files :: files[c] == CountryFile(rows, aton, c))
  }

  lemma {:induction false} NoRowsNoLines(rows: seq<seq<string>>, aton: string -> Option<Address>, country: string)
    requires forall row <- rows :: !RowFor(row, aton, country)
    ensures CountryFile(rows, aton, country) == []
  {
    if rows != [] {
      NoRowsNoLines(rows[..|rows| - 1], aton, country);
    }
  }

  lemma FilesGrow(files: map<string, seq<Route>>, rows: seq<seq<string>>, row: seq<string>,
                  aton: string -> Option<Address>, files': map<string, seq<Route>>)
    requires FilesOf(files, rows, aton)
    requires |row| == 6 && Usable(aton(row[FIRST]), aton(row[LAST]), row[COUNTRY]) ==>
               files' == files[row[COUNTRY] :=
                           (if row[COUNTRY] in files then files[row[COUNTRY]] else [])
                           + RowLines(aton(row[FIRST]).value, aton(row[LAST]).value)]
    requires !(|row| == 6 && Usable(aton(row[FIRST]), aton(row[LAST]), row[COUNTRY])) ==> files' == files
    ensures FilesOf(files', rows + [row], aton)
  {
    var all := rows + [row];
    assert all[..|rows|] == rows;
    forall c
      ensures c in files' <==> exists r <- all :: RowFor(r, aton, c)
    {
      assert row in all;
      assert forall r <- rows :: r in all;
    }
    forall c <- files'
      ensures files'[c] == CountryFile(all, aton, c)
    {
      if c !in files {
        NoRowsNoLines(rows, aton, c);
      }
    }
  }

  method MakeRoutes(rows: seq<seq<string>>, aton: string -> Option<Address>) returns (routes: RouteFiles)
    ensures FilesOf(routes.files, rows, aton)
    ensures forall c :: c in routes.files
              <==> |c| == 2 && exists row <- rows :: |row| == 6 && row[4] == c && BothParse(aton, row)
    ensures forall c <- routes.files, x: Address :: FileMatches(routes.files[c], x)
              <==> exists row <- rows :: |row| == 6 && row[4] == c && BothParse(aton, row)
                                         && aton(row[0]).value <= x <= aton(row[1]).value
  {
    hide FilesOf, FileMatches, CountryFile, RowLines, BothParse;
    routes := new RouteFiles();
    NoFiles(aton);
    assert rows[..0] == [];
    for i := 0 to |rows|
      invariant FilesOf(routes.files, rows[..i], aton)
    {
      var row := rows[i];
      ghost var before := routes.files;
      if |row| == 6 {
        routes.ConsumeLine(aton(row[FIRST]), aton(row[LAST]), row[COUNTRY]);
      }
      FilesGrow(before, rows[..i], row, aton, routes.files);
      assert rows[..i + 1] == rows[..i] + [row];
    }
    assert rows[..|rows|] == rows;
    FilesRoute(routes.files, rows, aton);
  }

  lemma FilesRoute(files: map<string, seq<Route>>, rows: seq<seq<string>>, aton: string -> Option<Address>)
    requires FilesOf(files, rows, aton)
    ensures forall c :: c in files
              <==> |c| == 2 && exists row <- rows :: |row| == 6 && row[4] == c && BothParse(aton, row)
    ensures forall c <- files, x: Address :: FileMatches(files[c], x)
              <==> exists row <- rows :: |row| == 6 && row[4] == c && BothParse(aton, row)
                                         && aton(row[0]).value <= x <= aton(row[1]).value
  {
    hide FileMatches, CountryFile;
    forall c
      ensures c in files
         <==> |c| == 2 && exists row <- rows :: |row| == 6 && row[4] == c && BothParse(aton, row)
    {
      assert forall row <- rows ::
          RowFor(row, aton, c) <==> |c| == 2 && |row| == 6 && row[4] == c && BothParse(aton, row);
    }
    forall c <- files, x: Address
      ensures FileMatches(files[c], x)
         <==> exists row <- rows :: |row| == 6 && row[4] == c && BothParse(aton, row)
                                    && aton(row[0]).value <= x <= aton(row[1]).value
    {
      FileRoutes(rows, aton, c, x);
    }
  }

  lemma NoFiles(aton: string -> Option<Address>)
    ensures FilesOf(map[], [], aton)
  {
  }

  /** The first two cells are addresses other than 0.0.0.0. */
  predicate BothParse(aton: string -> Option<Address>, row: seq<string>)
    requires |row| == 6
  {
    aton(row[0]).Some? && aton(row[0]).value > 0 && aton(row[1]).Some? && aton(row[1]).value > 0
  }

  /** A country's file routes an address exactly when one of the country's rows spans it. */
  lemma {:induction false} FileRoutes(rows: seq<seq<string>>, aton: string -> Option<Address>, country: string,
                                      x: Address)
    ensures FileMatches(CountryFile(rows, aton, country), x)
       <==> |country| == 2 && exists row <- rows ::
              && |row| == 6 && row[4] == country && BothParse(aton, row)
              && aton(row[0]).value <= x <= aton(row[1]).value
  {
    if rows != [] {
      var n := |rows| - 1;
      var row := rows[n];
      FileRoutes(rows[..n], aton, country, x);
      assert rows == rows[..n] + [row];
      var lines := if RowFor(row, aton, country) then RowLines(aton(row[FIRST]).value, aton(row[LAST]).value) else [];
      FileMatchesAppend(CountryFile(rows[..n], aton, country), lines, x);
      if RowFor(row, aton, country) {
        RowRoutesItsRange(aton(row[FIRST]).value, aton(row[LAST]).value, x);
      }
    }
  }
}
