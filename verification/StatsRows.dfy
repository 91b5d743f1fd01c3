/** How one log line of a host becomes a row of the statistics database, or nothing. */
module StatsRows {
  import opened Options

  /** A log line: no match of the line pattern, or its timestamp, event type and fields.
      Timestamps are kept as numbers in the order the program compares their text in. */
  datatype Line = Noise | Entry(timestamp: int, event: string, values: seq<string>)

  datatype Value = Time(at: int) | Text(text: string)

  /** The fields an insert lists; None is NULL, and every column not listed is NULL too. */
  datatype Row = Row(table: string, fields: map<string, Option<Value>>)

  /** What stays fixed between runs. `schema` maps an event type, or an event type and a
      field count joined by a dot, to its columns. */
  datatype Config = Config(
    schema: map<string, seq<string>>,
    minimal: bool,
    excludedChannels: set<string>,
    serverIds: map<string, string>,
    parseInt: string -> Option<int>,
    fixTimestamp: string -> string)

  /** The fate of a line: no row, an exception that abandons the whole run, or a row. */
  datatype Outcome = Skipped | Crashed | Stored(row: Row)

  predicate Parseable(cfg: Config, line: Line) {
    line.Entry? && line.event in cfg.schema
  }

  /** Minimal processing keeps two event types only. */
  predicate Processed(cfg: Config, line: Line) {
    Parseable(cfg, line) && (cfg.minimal ==> line.event == "connected" || line.event == "page_views")
  }

  function Decimal(n: nat): string {
    if n < 10 then ["0123456789"[n]] else Decimal(n / 10) + ["0123456789"[n % 10]]
  }

  /** The schema entry with as many columns as the line has fields. */
  function SchemaKey(cfg: Config, line: Line): Option<string>
    requires Parseable(cfg, line)
  {
    var n := |line.values|;
    var older := line.event + "." + Decimal(n);
    if n == |cfg.schema[line.event]| then Some(line.event)
    else if older in cfg.schema && n == |cfg.schema[older]| then Some(older)
    else None
  }

  /** Whether a line's fields let it through, drop it silently, or raise. */
  datatype Check = Pass | Drop | Raise

  const MAX_BYTES := 2147483647

  /** Every byte count parses and is in range; the first bad one decides. */
  function BytesCheck(cfg: Config, names: seq<string>, values: seq<string>): Check
    requires |names| == |values|
  {
    if names == [] then Pass
    else if names[0] == "bytes" && cfg.parseInt(values[0]).None? then Raise
    else if names[0] == "bytes" && !(0 <= cfg.parseInt(values[0]).value < MAX_BYTES) then Drop
    else BytesCheck(cfg, names[1..], values[1..])
  }

  /** Client version 24 logged corrupt byte counts. */
  function VersionCheck(cfg: Config, key: string, names: seq<string>, values: seq<string>): Check
    requires |names| == |values|
  {
    if key != "bytes_transferred.8" then Pass
    else if !(|names| > 7 && names[7] == "bytes" && names[4] == "client_version") then Raise
    else if cfg.parseInt(values[4]).None? then Raise
    else if cfg.parseInt(values[4]).value == 24 then Drop
    else Pass
  }

  function IndexOf(names: seq<string>, name: string): (i: nat)
    ensures i <= |names| && (i < |names| ==> names[i] == name)
  {
    if names == [] || names[0] == name then 0 else 1 + IndexOf(names[1..], name)
  }

  predicate IsExcluded(cfg: Config, names: seq<string>, values: seq<string>)
    requires |names| == |values|
  {
    var i := IndexOf(names, "propagation_channel_id");
    i < |names| && values[i] in cfg.excludedChannels
  }

  /** Server addresses become ids; a last_connected value becomes NULL, a fixed date or a timestamp. */
  function Cell(cfg: Config, key: string, name: string, value: string): Option<Value> {
    if name == "server_id" || name == "discovery_server_id" then
      Some(Text(if value in cfg.serverIds then cfg.serverIds[value] else "Unknown"))
    else if "connected" <= key && name == "last_connected" then
      if value == "Unknown" then None
      else if value == "None" then Some(Text("1900-01-01T00:00:00Z"))
      else Some(Text(cfg.fixTimestamp(value)))
    else Some(Text(value))
  }

  function Cells(cfg: Config, key: string, names: seq<string>, values: seq<string>): (m: map<string, Option<Value>>)
    requires |names| == |values|
    ensures m.Keys == set n | n in names
  {
    if names == [] then map[]
    else Cells(cfg, key, names[1..], values[1..])[names[0] := Cell(cfg, key, names[0], values[0])]
  }

  function RowOf(cfg: Config, host: string, line: Line): Outcome {
    if !Processed(cfg, line) then Skipped
    else
      var key := SchemaKey(cfg, line);
      if key.None? then Skipped
      else
        var names, values := cfg.schema[key.value], line.values;
        var version := VersionCheck(cfg, key.value, names, values);
        var check := if version.Pass? then BytesCheck(cfg, names, values) else version;
        if check.Raise? then Crashed
        else if check.Drop? || IsExcluded(cfg, names, values) then Skipped
        else Stored(Row(line.event, Cells(cfg, key.value, names, values)
                                    ["timestamp" := Some(Time(line.timestamp))]["host_id" := Some(Text(host))]))
  }

  // ---- Insert if absent ----

  /** The value of a column in a stored row. */
  function Column(r: Row, c: string): Option<Value> {
    if c in r.fields then r.fields[c] else None
  }

  /** A stored row agrees with all the columns a new row lists, so the new row counts as a duplicate. */
  predicate Subsumes(old_: Row, new_: Row) {
    old_.table == new_.table && forall c <- new_.fields :: Column(old_, c) == new_.fields[c]
  }

  function Insert(rows: set<Row>, r: Row): set<Row> {
    if exists x <- rows :: Subsumes(x, r) then rows else rows + {r}
  }

  /** No row of the set is a duplicate of another. */
  ghost predicate Antichain(rows: set<Row>) {
    forall x <- rows, y <- rows :: Subsumes(x, y) ==> x == y
  }

  /** Lines of one event type that all have the same number of fields give no duplicates but equal ones. */
  lemma OneArityNoOverlap(cfg: Config, host: string, host': string, a: Line, b: Line)
    requires RowOf(cfg, host, a).Stored? && RowOf(cfg, host', b).Stored?
    requires a.event == b.event ==> |a.values| == |b.values|
    requires Subsumes(RowOf(cfg, host, a).row, RowOf(cfg, host', b).row)
    ensures RowOf(cfg, host, a) == RowOf(cfg, host', b)
  {
    var x, y := RowOf(cfg, host, a).row, RowOf(cfg, host', b).row;
    assert a.event == x.table == y.table == b.event;
    assert SchemaKey(cfg, a) == SchemaKey(cfg, b);
    assert x.fields.Keys == y.fields.Keys;
    assert x.fields == y.fields;
  }

  // ---- What a row holds, and which lines have one ----

  ghost predicate Distinct(names: seq<string>) {
    forall i, j :: 0 <= i < j < |names| ==> names[i] != names[j]
  }

  function ReadDecimal(digits: string): nat {
    if digits == "" then 0
    else
      var n := |digits| - 1;
      10 * ReadDecimal(digits[..n]) + if '0' <= digits[n] <= '9' then digits[n] as nat - '0' as nat else 0
  }

  /** A field count is spelled in decimal digits. */
  lemma {:induction false} DecimalReads(n: nat)
    ensures ReadDecimal(Decimal(n)) == n && Decimal(n) != "" && forall c <- Decimal(n) :: '0' <= c <= '9'
    ensures n > 0 ==> Decimal(n)[0] != '0'
  {
    var digits := "0123456789";
    assert forall d :: 0 <= d < 10 ==> digits[d] as nat == '0' as nat + d;
    if n >= 10 {
      DecimalReads(n / 10);
      assert Decimal(n)[..|Decimal(n)| - 1] == Decimal(n / 10);
    }
  }

  /** The line has a schema entry under this key: the event's own if the field counts agree, else the one for the
      event and the line's field count. */
  predicate Keyed(cfg: Config, line: Line, key: string) {
    && line.Entry? && line.event in cfg.schema && key in cfg.schema && |cfg.schema[key]| == |line.values|
    && (key == line.event
        || (|cfg.schema[line.event]| != |line.values| && key == line.event + "." + Decimal(|line.values|)))
  }

  lemma KeyedIsSchemaKey(cfg: Config, line: Line, key: string)
    ensures Keyed(cfg, line, key) <==> Parseable(cfg, line) && SchemaKey(cfg, line) == Some(key)
  {
  }

  /** A line without a schema entry is skipped. */
  lemma UnkeyedIsSkipped(cfg: Config, host: string, line: Line)
    requires forall key :: !Keyed(cfg, line, key)
    ensures RowOf(cfg, host, line) == Skipped
  {
    if Parseable(cfg, line) && SchemaKey(cfg, line).Some? {
      KeyedIsSchemaKey(cfg, line, SchemaKey(cfg, line).value);
    }
  }

  lemma {:induction false} CellAt(cfg: Config, key: string, names: seq<string>, values: seq<string>, i: nat)
    requires |names| == |values| && i < |names| && Distinct(names)
    ensures names[i] in Cells(cfg, key, names, values)
    ensures Cells(cfg, key, names, values)[names[i]] == Cell(cfg, key, names[i], values[i])
  {
    if i > 0 {
      CellAt(cfg, key, names[1..], values[1..], i - 1);
    }
  }

  /** What the columns of a stored row hold: server columns the mapped id and never an address, last_connected of a
      connected event its three cases, every other column its own field; and the timestamp and host. */
  lemma RowHolds(cfg: Config, host: string, line: Line, key: string)
    requires Keyed(cfg, line, key) && RowOf(cfg, host, line).Stored? && Distinct(cfg.schema[key])
    requires "timestamp" !in cfg.schema[key] && "host_id" !in cfg.schema[key]
    ensures var row, names := RowOf(cfg, host, line).row, cfg.schema[key];
            && row.table == line.event
            && row.fields.Keys == (set n | n in names) + {"timestamp", "host_id"}
            && row.fields["timestamp"] == Some(Time(line.timestamp)) && row.fields["host_id"] == Some(Text(host))
    ensures forall i :: 0 <= i < |line.values| ==> cfg.schema[key][i] in RowOf(cfg, host, line).row.fields
    ensures forall i :: 0 <= i < |line.values| && cfg.schema[key][i] in ["server_id", "discovery_server_id"] ==>
              RowOf(cfg, host, line).row.fields[cfg.schema[key][i]] ==
              Some(Text(if line.values[i] in cfg.serverIds then cfg.serverIds[line.values[i]] else "Unknown"))
    ensures forall i :: 0 <= i < |line.values| && cfg.schema[key][i] == "last_connected" && "connected" <= key ==>
              RowOf(cfg, host, line).row.fields["last_connected"] ==
              if line.values[i] == "Unknown" then None
              else if line.values[i] == "None" then Some(Text("1900-01-01T00:00:00Z"))
              else Some(Text(cfg.fixTimestamp(line.values[i])))
    ensures forall i :: 0 <= i < |line.values| && cfg.schema[key][i] !in ["server_id", "discovery_server_id"]
                        && !(cfg.schema[key][i] == "last_connected" && "connected" <= key) ==>
              RowOf(cfg, host, line).row.fields[cfg.schema[key][i]] == Some(Text(line.values[i]))
  {
    KeyedIsSchemaKey(cfg, line, key);
    var names, values := cfg.schema[key], line.values;
    hide BytesCheck, Cells, IndexOf, SchemaKey, VersionCheck;
    var row := RowOf(cfg, host, line).row;
    assert row.fields ==
      Cells(cfg, key, names, values)["timestamp" := Some(Time(line.timestamp))]["host_id" := Some(Text(host))];
    forall i | 0 <= i < |names|
      ensures row.fields[names[i]] == Cell(cfg, key, names[i], values[i])
    {
      assert names[i] in names;
      CellAt(cfg, key, names, values, i);
    }
  }

  /** A byte count that does not parse raises; one out of range drops the line. */
  predicate BadBytes(cfg: Config, value: string) {
    cfg.parseInt(value).None? || !(0 <= cfg.parseInt(value).value < 2147483647)
  }

  lemma {:induction false} BytesPassExactly(cfg: Config, names: seq<string>, values: seq<string>)
    requires |names| == |values|
    ensures BytesCheck(cfg, names, values).Pass? <==>
            forall i :: 0 <= i < |names| && names[i] == "bytes" ==> !BadBytes(cfg, values[i])
    ensures BytesCheck(cfg, names, values).Raise? <==>
            exists i :: 0 <= i < |names| && names[i] == "bytes" && cfg.parseInt(values[i]).None?
                        && forall j :: 0 <= j < i && names[j] == "bytes" ==> !BadBytes(cfg, values[j])
  {
    if names != [] {
      BytesPassExactly(cfg, names[1..], values[1..]);
      var rest := names[1..];
      forall i | 0 <= i < |rest|
        ensures rest[i] == names[i + 1] && values[1..][i] == values[i + 1]
      {
      }
      if names[0] != "bytes" || !BadBytes(cfg, values[0]) {
        BytesShift(cfg, names, values);
      }
    }
  }

  lemma BytesShift(cfg: Config, names: seq<string>, values: seq<string>)
    requires 0 < |names| == |values| && (names[0] != "bytes" || !BadBytes(cfg, values[0]))
    ensures (forall i :: 0 <= i < |names| && names[i] == "bytes" ==> !BadBytes(cfg, values[i])) <==>
            (forall i :: 0 <= i < |names| - 1 && names[1..][i] == "bytes" ==> !BadBytes(cfg, values[1..][i]))
  {
    if forall i :: 0 <= i < |names| - 1 && names[1..][i] == "bytes" ==> !BadBytes(cfg, values[1..][i]) {
      forall i | 0 <= i < |names| && names[i] == "bytes"
        ensures !BadBytes(cfg, values[i])
      {
        if i > 0 {
          assert names[1..][i - 1] == "bytes";
        }
      }
    }
  }

  lemma {:induction false} ColumnAt(names: seq<string>, i: nat)
    requires i < |names| && Distinct(names)
    ensures IndexOf(names, names[i]) == i
  {
    if i > 0 {
      ColumnAt(names[1..], i - 1);
    }
  }

  lemma {:induction false} NoColumn(names: seq<string>, name: string)
    requires name !in names
    ensures IndexOf(names, name) == |names|
  {
    if names != [] {
      NoColumn(names[1..], name);
    }
  }

  lemma ExcludedExactly(cfg: Config, names: seq<string>, values: seq<string>)
    requires |names| == |values| && Distinct(names)
    ensures IsExcluded(cfg, names, values) <==>
            exists i :: 0 <= i < |names| && names[i] == "propagation_channel_id" && values[i] in cfg.excludedChannels
  {
    if i :| 0 <= i < |names| && names[i] == "propagation_channel_id" {
      ColumnAt(names, i);
    } else {
      NoColumn(names, "propagation_channel_id");
    }
  }

  /** The fields a corrupt client version is recognised by are where they should be and parse. */
  predicate VersionReadable(cfg: Config, names: seq<string>, values: seq<string>)
    requires |names| == |values|
  {
    |names| > 7 && names[7] == "bytes" && names[4] == "client_version" && cfg.parseInt(values[4]).Some?
  }

  /** Exactly when a line with a schema entry is stored and when it raises: minimal runs keep two event types, byte
      counts must be in range, client version 24 is not believed, and excluded channels are left out. */
  lemma StoredExactly(cfg: Config, host: string, line: Line, key: string)
    requires Keyed(cfg, line, key) && Distinct(cfg.schema[key])
    ensures var names, values := cfg.schema[key], line.values;
            RowOf(cfg, host, line).Stored? <==>
            && (cfg.minimal ==> line.event in ["connected", "page_views"])
            && (key == "bytes_transferred.8" ==>
                  VersionReadable(cfg, names, values) && cfg.parseInt(values[4]).value != 24)
            && (forall i :: 0 <= i < |names| && names[i] == "bytes" ==> !BadBytes(cfg, values[i]))
            && (forall i :: 0 <= i < |names| && names[i] == "propagation_channel_id" ==>
                  values[i] !in cfg.excludedChannels)
    ensures var names, values := cfg.schema[key], line.values;
            RowOf(cfg, host, line).Crashed? <==>
            && (cfg.minimal ==> line.event in ["connected", "page_views"])
            && if key == "bytes_transferred.8" && !VersionReadable(cfg, names, values) then true
               else if key == "bytes_transferred.8" && cfg.parseInt(values[4]).value == 24 then false
               else exists i :: 0 <= i < |names| && names[i] == "bytes" && cfg.parseInt(values[i]).None?
                                && forall j :: 0 <= j < i && names[j] == "bytes" ==> !BadBytes(cfg, values[j])
  {
    KeyedIsSchemaKey(cfg, line, key);
    var names, values := cfg.schema[key], line.values;
    BytesPassExactly(cfg, names, values);
    ExcludedExactly(cfg, names, values);
    hide BytesCheck, Cells, IsExcluded, SchemaKey, BadBytes;
  }
}
