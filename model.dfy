/**
 * The session bookkeeping of ezsqlModel: the error log, the function-call
 * log, the query counters, `host:port` splitting, the disk-cache decisions
 * and the projections of the last result set.
 *
 * The fields are ezsqlModel's own camelCase properties. The file system the
 * cache lives on is a value (`Disk`) passed in and handed back; md5 file
 * naming, serialisation and the clock are not modelled beyond that value.
 */
module EzsqlModel {
  import opened Php

  /** One column of a fetched row, as `get_object_vars` lists it. */
  datatype Cell = Cell(name: string, value: Option<string>)

  /** A fetched row: the object `(object) $row` makes of an associative fetch. */
  datatype Row = Row(cells: seq<Cell>)

  /** Column metadata, as the driver fills `col_info`. */
  datatype Column = Column(name: string, colType: string, maxLength: string)

  /** One entry of `capturedErrors`. */
  datatype ErrorRecord = ErrorRecord(errorStr: string, query: Option<string>)

  /** The PHP scalars the session keeps: null, a boolean or an integer. */
  datatype Scalar = Null | Bool(b: bool) | Int(i: int)

  /** PHP truthiness of a scalar. */
  predicate Truthy(v: Scalar) {
    (v.Bool? && v.b) || (v.Int? && v.i != 0)
  }

  /** The directory separator the cache path is built with. */
  const Ds: string := "/"

  /** ezsqlModel's fields that the modelled operations read or write. */
  datatype ModelState = ModelState(
    numQueries: int,
    connQueries: int,
    capturedErrors: seq<ErrorRecord>,
    numRows: Option<int>,
    lastQuery: Option<string>,
    lastError: Option<string>,
    colInfo: seq<Column>,
    lastResult: Option<seq<Row>>,
    fromDiskCache: bool,
    connected: bool,
    affectedRows: Scalar,
    funcCall: Option<string>,
    allFuncCalls: seq<string>)

  /** The declared defaults. */
  const Initial: ModelState := ModelState(0, 0, [], None, None, None, [], None, false, false, Int(0), None, [])

  /**
   * The disk-cache settings. ezsqlModel changes them only through the setters
   * `__call` provides, so a session fixes them when it is made.
   */
  datatype CacheConfig = CacheConfig(cacheDir: string, useDiskCache: bool, cacheTimeout: int, cacheQueries: bool, cacheInserts: bool)

  /** The declared defaults: no disk cache, a 24-hour timeout. */
  const DefaultCache: CacheConfig := CacheConfig("tmp" + Ds + "ez_cache", false, 24, false, false)

  // ---------------------------------------------------------------------
  // Logs and counters

  /** register_error(): the new state. */
  function Registered(m: ModelState, errStr: string): ModelState {
    m.(lastError := Some(errStr), capturedErrors := m.capturedErrors + [ErrorRecord(errStr, m.lastQuery)])
  }

  /** The record register_error() added last, if any. */
  function LastError(m: ModelState): Option<ErrorRecord> {
    if |m.capturedErrors| == 0 then None else Some(m.capturedErrors[|m.capturedErrors| - 1])
  }

  /** An error leaves one more record, naming the query current when it was raised, and nothing else changes. */
  lemma RegisteredAppendsOne(m: ModelState, errStr: string)
    ensures var r := Registered(m, errStr);
      && |r.capturedErrors| == |m.capturedErrors| + 1
      && r.capturedErrors[..|m.capturedErrors|] == m.capturedErrors
      && r.capturedErrors[|m.capturedErrors|] == ErrorRecord(errStr, m.lastQuery)
      && r.lastError == Some(errStr)
      && LastError(r) == Some(ErrorRecord(errStr, m.lastQuery))
      && r.(lastError := m.lastError, capturedErrors := m.capturedErrors) == m
  {
    assert (m.capturedErrors + [ErrorRecord(errStr, m.lastQuery)])[..|m.capturedErrors|] == m.capturedErrors;
  }

  /** The resets flush() performs before its last call. */
  function Flushed(m: ModelState): ModelState {
    m.(lastResult := None, colInfo := [], lastQuery := None, allFuncCalls := [], fromDiskCache := false)
  }

  /** log_query(): the new state. */
  function Logged(m: ModelState, q: string): ModelState {
    m.(funcCall := Some(q), allFuncCalls := m.allFuncCalls + [q])
  }

  /** Logging after a flush leaves exactly the one call in the log. */
  lemma LoggedAfterFlush(m: ModelState, q: string)
    ensures Logged(Flushed(m), q).allFuncCalls == [q]
    ensures Logged(Flushed(m), q).funcCall == Some(q)
  {
  }

  // ---------------------------------------------------------------------
  // Calls to methods the classes do not define

  /** What the `__call` fallback does with a method name. */
  datatype Dispatch = SetProperty(property: string) | GetProperty(property: string) | Undefined

  function LcFirst(s: string): string {
    if |s| == 0 then s else [LowerChar(s[0])] + s[1..]
  }

  /**
   * `__call($function, ...)`: a `set`/`get` prefix followed by the name of an
   * existing property (first letter lowered, underscores dropped) is a
   * setter or a getter; every other name throws "... does not exist".
   */
  function MagicCall(name: string, properties: set<string>): (r: Dispatch)
    ensures r.SetProperty? ==> |name| >= 3 && name[..3] == "set" && r.property in properties
    ensures r.GetProperty? ==> |name| >= 3 && name[..3] == "get" && r.property in properties
  {
    var cut := if |name| < 3 then |name| else 3;
    var prefix := name[..cut];
    var property := StrReplace(LcFirst(name[cut..]), "_", "");
    if prefix == "set" && property in properties then SetProperty(property)
    else if prefix == "get" && property in properties then GetProperty(property)
    else Undefined
  }

  /** `clearPrepare()` is neither a setter nor a getter: whatever the properties, `__call` throws. */
  lemma ClearPrepareUndefined(properties: set<string>)
    ensures MagicCall("clearPrepare", properties) == Undefined
  {
    assert "clearPrepare"[..3] == "cle";
  }

  /** `getprepared()` reads a property `prepared`, which none of the classes declares, so it throws. */
  lemma GetPreparedUndefined(properties: set<string>)
    requires "prepared" !in properties
    ensures MagicCall("getprepared", properties) == Undefined
  {
    var s := "getprepared";
    assert s[..3] == "get" && s[3..] == "prepared";
    assert LcFirst("prepared") == "prepared";
    CharAbsent("prepared", '_');
    ReplaceAbsent("prepared", "_", "");
  }

  lemma CharAbsent(s: string, c: char)
    requires c !in s
    ensures !Contains(s, [c])
  {
    forall i: nat | i <= |s| ensures !OccursAt(s, [c], i) {
      if i < |s| {
        assert s[i..i + 1] == [s[i]];
      }
    }
  }

  lemma ReplaceAbsent(s: string, pat: string, rep: string)
    requires |pat| > 0 && !Contains(s, pat)
    ensures StrReplace(s, pat, rep) == s
  {
  }

  // ---------------------------------------------------------------------
  // host:port

  /** The port half of get_host_port: the boolean default, or the integer after the colon. */
  datatype Port = Flag(b: bool) | Number(n: int)

  /** get_host_port(): split at the first ':' and read the next segment as an integer. */
  function HostPort(host: string, default: bool): (string, Port) {
    if Contains(host, ":") then
      var parts := Explode(host, ":");
      (parts[0], Number(IntVal(parts[1])))
    else
      (host, Flag(default))
  }

  /** A host without ':' keeps the default port. */
  lemma HostWithoutPort(host: string, default: bool)
    requires !Contains(host, ":")
    ensures HostPort(host, default) == (host, Flag(default))
  {
  }

  /** Joining a host and a 64-bit port with ':' and splitting again gives both back. */
  lemma HostPortRoundTrip(host: string, port: int, default: bool)
    requires !Contains(host, ":")
    requires PhpIntMin <= port <= PhpIntMax
    ensures HostPort(host + ":" + IntToString(port), default) == (host, Number(port))
  {
    var p := IntToString(port);
    var s := host + ":" + p;
    assert OccursAt(s, ":", |host|) by { assert s[|host|..|host| + 1] == ":"; }
    forall j: nat | j < |host| ensures !OccursAt(s, ":", j) {
      assert !OccursAt(host, ":", j);
      assert s[j..j + 1] == host[j..j + 1];
    }
    assert Find(s, ":") == Some(|host|);
    assert s[..|host|] == host && s[|host| + 1..] == p;
    NoColonInInteger(port);
    assert Explode(p, ":") == [p];
    assert Explode(s, ":") == [host] + [p];
    IntValOfIntToString(port);
  }

  lemma NoColonInInteger(n: int)
    ensures !Contains(IntToString(n), ":")
  {
    var m: nat := if n < 0 then -n else n;
    NatToStringDigits(m);
    assert ':' !in NatToString(m);
    if n < 0 {
      assert IntToString(n) == "-" + NatToString(m);
    }
    CharAbsent(IntToString(n), ':');
  }

  // ---------------------------------------------------------------------
  // Disk cache

  /** What store_cache serialises. */
  datatype CacheEntry = CacheEntry(colInfo: seq<Column>, lastResult: Option<seq<Row>>, numRows: Option<int>, returnValue: Option<int>)

  /** A cache file and its modification time. */
  datatype CacheFile = CacheFile(mtime: int, entry: CacheEntry)

  /**
   * The part of the file system the cache uses: the clock, whether the cache
   * directory exists and whether creating it would succeed, the cache files
   * and the modification times of the `.updating` markers, keyed by query.
   */
  datatype Disk = Disk(now: int, dirExists: bool, mkdirWorks: bool, files: map<string, CacheFile>, markers: map<string, int>)

  /** An entry is out of date: older than the timeout, and no marker younger than a minute says it is being refreshed. */
  predicate Stale(now: int, mtime: int, timeoutHours: int, marker: Option<int>) {
    now - mtime > timeoutHours * 3600 && !(marker.Some? && now - marker.value < 60)
  }

  function MarkerOf(d: Disk, query: string): Option<int> {
    if query in d.markers then Some(d.markers[query]) else None
  }

  /** The value get_cache returns (null is None) and the state and disk after it. */
  datatype Cached = Cached(value: Option<int>, model: ModelState, disk: Disk)

  /** get_cache(): serve a usable entry, or mark a stale one as being refreshed. */
  function Lookup(c: CacheConfig, m: ModelState, query: string, d: Disk): Cached {
    if c.useDiskCache && query in d.files then
      var f := d.files[query];
      if Stale(d.now, f.mtime, c.cacheTimeout, MarkerOf(d, query)) then
        Cached(None, m, d.(markers := d.markers[query := d.now]))
      else
        Cached(f.entry.returnValue,
          m.(colInfo := f.entry.colInfo, lastResult := f.entry.lastResult, numRows := f.entry.numRows, fromDiskCache := true),
          d)
    else
      Cached(None, m, d)
  }

  /** An entry younger than the timeout is served, and restores the result it holds. */
  lemma FreshEntryServed(c: CacheConfig, m: ModelState, query: string, d: Disk)
    requires c.useDiskCache && query in d.files
    requires d.now - d.files[query].mtime <= c.cacheTimeout * 3600
    ensures var c := Lookup(c, m, query, d); var e := d.files[query].entry;
      && c.value == e.returnValue
      && c.model.colInfo == e.colInfo && c.model.lastResult == e.lastResult
      && c.model.numRows == e.numRows && c.model.fromDiskCache
      && c.disk == d
  {
  }

  /** A stale entry whose marker is younger than a minute is still served. */
  lemma MarkedEntryServed(c: CacheConfig, m: ModelState, query: string, d: Disk)
    requires c.useDiskCache && query in d.files && query in d.markers
    requires d.now - d.markers[query] < 60
    ensures Lookup(c, m, query, d).value == d.files[query].entry.returnValue
    ensures Lookup(c, m, query, d).model.fromDiskCache
  {
  }

  /** A stale entry without a young marker yields null, touches the marker and leaves the session alone. */
  lemma StaleEntryRefreshed(c: CacheConfig, m: ModelState, query: string, d: Disk)
    requires c.useDiskCache && query in d.files
    requires Stale(d.now, d.files[query].mtime, c.cacheTimeout, MarkerOf(d, query))
    ensures Lookup(c, m, query, d) == Cached(None, m, d.(markers := d.markers[query := d.now]))
  {
  }

  /** Without the disk cache, or without a file, nothing is served and nothing changes. */
  lemma NoEntryNoChange(c: CacheConfig, m: ModelState, query: string, d: Disk)
    requires !c.useDiskCache || query !in d.files
    ensures Lookup(c, m, query, d) == Cached(None, m, d)
  {
  }

  /** The condition of store_cache: PHP binds `&&` tighter than `||`, so `a && (b) || (c)` is `(a && b) || c`. */
  predicate StoreGate(useDiskCache: bool, cacheQueries: bool, cacheInserts: bool, isInsert: bool) {
    (useDiskCache && (cacheQueries && !isInsert)) || (cacheInserts && isInsert)
  }

  /** The gate reads as two alternatives; inserts are written even with the disk cache switched off. */
  lemma StoreGateAlternatives(useDiskCache: bool, cacheQueries: bool, cacheInserts: bool, isInsert: bool)
    ensures StoreGate(useDiskCache, cacheQueries, cacheInserts, isInsert)
      <==> (useDiskCache && cacheQueries && !isInsert) || (cacheInserts && isInsert)
    ensures StoreGate(false, cacheQueries, true, true)
    ensures !isInsert ==> (StoreGate(useDiskCache, cacheQueries, cacheInserts, isInsert) <==> useDiskCache && cacheQueries)
  {
  }

  /** What store_cache returns (false, or null as None), and the state and disk after it. */
  datatype Stored = Stored(value: Option<bool>, model: ModelState, disk: Disk)

  /** The payload store_cache writes: the result fields, with the row count as the return value. */
  function Payload(m: ModelState): CacheEntry {
    CacheEntry(m.colInfo, m.lastResult, m.numRows, m.numRows)
  }

  /** store_cache(): write the payload and drop the marker, or report a cache directory that cannot be made. */
  function Store(c: CacheConfig, m: ModelState, query: string, isInsert: bool, d: Disk): Stored {
    if StoreGate(c.useDiskCache, c.cacheQueries, c.cacheInserts, isInsert) then
      var d1 := if d.dirExists then d else d.(dirExists := d.mkdirWorks);
      if !d1.dirExists then
        Stored(Some(false), Registered(m, "Could not open cache dir: " + c.cacheDir), d1)
      else
        Stored(None, m, d1.(files := d1.files[query := CacheFile(d1.now, Payload(m))], markers := d1.markers - {query}))
    else
      Stored(None, m, d)
  }

  /** What store_cache writes, get_cache serves back at once: the row count and the result it was stored with. */
  lemma StoreThenLookup(c: CacheConfig, m: ModelState, query: string, isInsert: bool, d: Disk)
    requires StoreGate(c.useDiskCache, c.cacheQueries, c.cacheInserts, isInsert)
    requires d.dirExists || d.mkdirWorks
    requires c.useDiskCache && c.cacheTimeout >= 0
    ensures var s := Store(c, m, query, isInsert, d); var c := Lookup(c, s.model, query, s.disk);
      && s.value.None? && s.model == m
      && c.value == m.numRows
      && c.model == m.(fromDiskCache := true)
      && c.disk == s.disk
  {
    var s := Store(c, m, query, isInsert, d);
    assert query in s.disk.files && s.disk.files[query] == CacheFile(d.now, Payload(m));
    assert !Stale(d.now, d.now, c.cacheTimeout, MarkerOf(s.disk, query));
  }

  /** A cache directory that cannot be made is reported once, and nothing is written. */
  lemma StoreWithoutDirectory(c: CacheConfig, m: ModelState, query: string, isInsert: bool, d: Disk)
    requires StoreGate(c.useDiskCache, c.cacheQueries, c.cacheInserts, isInsert)
    requires !d.dirExists && !d.mkdirWorks
    ensures var s := Store(c, m, query, isInsert, d);
      && s.value == Some(false)
      && s.model == Registered(m, "Could not open cache dir: " + c.cacheDir)
      && s.disk == d
  {
  }

  // ---------------------------------------------------------------------
  // Projections of the last result

  /** The output types of get_row and get_results. */
  datatype Output = Object | ArrayA | ArrayN | Json | Other(name: string)

  /** The text an output type turns into inside a double-quoted string. */
  function OutputName(o: Output): string {
    match o
    case Object => "OBJECT"
    case ArrayA => "ARRAY_A"
    case ArrayN => "ARRAY_N"
    case Json => "JSON"
    case Other(name) => name
  }

  /** `array_values(get_object_vars($row))` */
  function Values(r: Row): (vs: seq<Option<string>>)
    ensures |vs| == |r.cells|
    ensures forall i :: 0 <= i < |vs| ==> vs[i] == r.cells[i].value
  {
    seq(|r.cells|, i requires 0 <= i < |r.cells| => r.cells[i].value)
  }

  /** The `isset($this->lastResult[$y])` row, if there is one. */
  function RowOf(rows: Option<seq<Row>>, y: int): Option<Row> {
    if rows.Some? && 0 <= y < |rows.value| then Some(rows.value[y]) else None
  }

  /** The value get_var reads: entry x of row y when it is set and not null. */
  function VarAt(rows: Option<seq<Row>>, x: int, y: int): Option<string> {
    match RowOf(rows, y)
    case None => None
    case Some(r) => if 0 <= x < |r.cells| then r.cells[x].value else None
  }

  /** What get_row returns. */
  datatype RowReply = NoRow | AsObject(row: Row) | AsAssoc(cells: seq<Cell>) | AsList(values: seq<Option<string>>)

  /** get_row()'s projection of the last result. */
  function RowAt(rows: Option<seq<Row>>, output: Output, y: int): RowReply {
    match RowOf(rows, y)
    case None => NoRow
    case Some(r) =>
      match output
      case Object => AsObject(r)
      case ArrayA => AsAssoc(r.cells)
      case ArrayN => AsList(Values(r))
      case _ => NoRow
  }

  /** get_var(x, y) is entry x of get_row(ARRAY_N, y), and null exactly when there is no such non-null entry. */
  lemma VarIsListEntry(rows: Option<seq<Row>>, x: int, y: int)
    ensures VarAt(rows, x, y).Some? <==>
      RowAt(rows, ArrayN, y).AsList? && 0 <= x < |RowAt(rows, ArrayN, y).values| && RowAt(rows, ArrayN, y).values[x].Some?
    ensures VarAt(rows, x, y).Some? ==> VarAt(rows, x, y) == RowAt(rows, ArrayN, y).values[x]
  {
  }

  /** The three row shapes describe the same row: the list is the values of the associative form, in order. */
  lemma RowShapesAgree(rows: Option<seq<Row>>, y: int)
    ensures RowAt(rows, Object, y).AsObject? <==> RowAt(rows, ArrayA, y).AsAssoc?
    ensures RowAt(rows, ArrayA, y).AsAssoc? <==> RowAt(rows, ArrayN, y).AsList?
    ensures RowAt(rows, ArrayN, y).AsList? ==>
      RowAt(rows, ArrayN, y).values == Values(Row(RowAt(rows, ArrayA, y).cells))
    ensures RowAt(rows, Json, y) == NoRow
  {
  }

  /** What get_results returns; the JSON text itself is not modelled, only the rows it encodes. */
  datatype Results =
    | NoResults
    | Objects(objects: Option<seq<Row>>)
    | JsonOf(encoded: Option<seq<Row>>)
    | Assoc(assoc: seq<seq<Cell>>)
    | Numbered(numbered: seq<seq<Option<string>>>)

  function RowsOrEmpty(rows: Option<seq<Row>>): seq<Row> {
    if rows.Some? then rows.value else []
  }

  /** get_results()'s projection of the last result. */
  function ResultsOf(rows: Option<seq<Row>>, output: Output): Results {
    var rs := RowsOrEmpty(rows);
    match output
    case Object => Objects(rows)
    case Json => JsonOf(rows)
    case ArrayA => Assoc(seq(|rs|, i requires 0 <= i < |rs| => rs[i].cells))
    case ArrayN => Numbered(seq(|rs|, i requires 0 <= i < |rs| => Values(rs[i])))
    case Other(_) => NoResults
  }

  /** ARRAY_A and ARRAY_N give one entry per row, in order, and the ARRAY_N rows are the values of the ARRAY_A rows. */
  lemma ResultShapesAgree(rows: Option<seq<Row>>)
    ensures |ResultsOf(rows, ArrayA).assoc| == |ResultsOf(rows, ArrayN).numbered| == |RowsOrEmpty(rows)|
    ensures forall i :: 0 <= i < |RowsOrEmpty(rows)| ==>
      ResultsOf(rows, ArrayN).numbered[i] == Values(Row(ResultsOf(rows, ArrayA).assoc[i]))
    ensures forall i :: 0 <= i < |RowsOrEmpty(rows)| ==>
      RowAt(rows, ArrayA, i) == AsAssoc(ResultsOf(rows, ArrayA).assoc[i])
  {
  }

  /** One attribute of a column (`$col->{$info_type}`); an unknown attribute reads as null. */
  function Attr(c: Column, info: string): Option<string> {
    if info == "name" then Some(c.name)
    else if info == "type" then Some(c.colType)
    else if info == "max_length" then Some(c.maxLength)
    else None
  }

  /** What get_col_info returns. */
  datatype ColInfoReply = NoInfo | AllColumns(values: seq<Option<string>>) | OneColumn(value: Option<string>)

  /** get_col_info(): null without column data, every column for offset -1, else the one column. */
  function ColInfoOf(cols: seq<Column>, info: string, offset: int): ColInfoReply {
    if |cols| == 0 then NoInfo
    else if offset == -1 then AllColumns(seq(|cols|, i requires 0 <= i < |cols| => Attr(cols[i], info)))
    else OneColumn(if 0 <= offset < |cols| then Attr(cols[offset], info) else None)
  }

  /** Asking for one column gives the same value as its place in the full list. */
  lemma ColInfoOffsetAgrees(cols: seq<Column>, info: string, k: int)
    requires 0 <= k < |cols|
    ensures ColInfoOf(cols, info, -1).AllColumns? && |ColInfoOf(cols, info, -1).values| == |cols|
    ensures ColInfoOf(cols, info, k) == OneColumn(ColInfoOf(cols, info, -1).values[k])
  {
  }

  /** The text get_var logs: `$db->get_var("query",x,y)`. */
  function VarCall(query: string, x: int, y: int): string {
    "$db->get_var(\"" + query + "\"," + IntToString(x) + "," + IntToString(y) + ")"
  }

  /** The logs get_col's loop leaves behind: one get_var call per row. */
  function VarCalls(x: int, n: nat): (calls: seq<string>)
    ensures |calls| == n
    ensures forall i :: 0 <= i < n ==> calls[i] == VarCall("", x, i)
  {
    seq(n, i requires 0 <= i < n => VarCall("", x, i))
  }

  /** get_col()'s column: get_var(x, i) for every row i. */
  function ColumnOf(rows: Option<seq<Row>>, x: int): (col: seq<Option<string>>)
    ensures |col| == |RowsOrEmpty(rows)|
    ensures forall i :: 0 <= i < |col| ==> col[i] == VarAt(rows, x, i)
  {
    seq(|RowsOrEmpty(rows)|, i requires 0 <= i < |RowsOrEmpty(rows)| => VarAt(rows, x, i))
  }

  class Model {
    var numQueries: int
    var connQueries: int
    var capturedErrors: seq<ErrorRecord>
    var numRows: Option<int>
    var lastQuery: Option<string>
    var lastError: Option<string>
    var colInfo: seq<Column>
    var lastResult: Option<seq<Row>>
    var fromDiskCache: bool
    var connected: bool
    var affectedRows: Scalar
    var funcCall: Option<string>
    var allFuncCalls: seq<string>
    /** The disk-cache settings. */
    const cache: CacheConfig
    var isSecure: bool
    var secureOptions: Option<string>
    var sslKey: Option<string>
    var sslCert: Option<string>
    var sslCa: Option<string>
    var sslPath: Option<string>

    function State(): ModelState
      reads this
    {
      ModelState(numQueries, connQueries, capturedErrors, numRows, lastQuery, lastError, colInfo, lastResult,
        fromDiskCache, connected, affectedRows, funcCall, allFuncCalls)
    }

    constructor(cache: CacheConfig)
      ensures State() == Initial && this.cache == cache
      ensures !isSecure && secureOptions == sslKey == sslCert == sslCa == sslPath == None
    {
      numQueries, connQueries, capturedErrors := 0, 0, [];
      numRows, lastQuery, lastError := None, None, None;
      colInfo, lastResult, fromDiskCache := [], None, false;
      connected, affectedRows := false, Int(0);
      funcCall, allFuncCalls := None, [];
      isSecure, secureOptions, sslKey, sslCert, sslCa, sslPath := false, None, None, None, None, None;
      this.cache := cache;
    }

    /** register_error(): remember the error with the current query; always false. */
    method RegisterError(errStr: string) returns (r: bool)
      modifies this`lastError, this`capturedErrors
      ensures State() == Registered(old(State()), errStr)
      ensures !r
    {
      lastError := Some(errStr);
      capturedErrors := capturedErrors + [ErrorRecord(errStr, lastQuery)];
      r := false;
    }

    /** The five resets of flush(). */
    method ResetResults()
      modifies this`lastResult, this`colInfo, this`lastQuery, this`allFuncCalls, this`fromDiskCache
      ensures State() == Flushed(old(State()))
    {
      lastResult := None;
      colInfo := [];
      lastQuery := None;
      allFuncCalls := [];
      fromDiskCache := false;
    }

    /**
     * flush() as written: the resets, then `clearPrepare()`, a method no
     * class of the library defines, so `__call` throws. `thrown` reports it.
     */
    method Flush(properties: set<string>) returns (thrown: bool)
      modifies this`lastResult, this`colInfo, this`lastQuery, this`allFuncCalls, this`fromDiskCache
      ensures State() == Flushed(old(State()))
      ensures thrown
    {
      ResetResults();
      ClearPrepareUndefined(properties);
      thrown := MagicCall("clearPrepare", properties).Undefined?;
    }

    /** log_query(): remember the call and append it to the running log. */
    method LogQuery(q: string)
      modifies this`funcCall, this`allFuncCalls
      ensures State() == Logged(old(State()), q)
    {
      funcCall := Some(q);
      allFuncCalls := allFuncCalls + [q];
    }

    /** count(): bump both counters when asked, and report one of them. */
    method Count(all: bool, increase: bool) returns (n: int)
      modifies this`numQueries, this`connQueries
      ensures increase ==> State() == old(State()).(numQueries := old(numQueries) + 1, connQueries := old(connQueries) + 1)
      ensures !increase ==> State() == old(State())
      ensures n == if all then numQueries else connQueries
    {
      if increase {
        numQueries := numQueries + 1;
        connQueries := connQueries + 1;
      }
      n := if all then numQueries else connQueries;
    }

    /** get_cache(): the cached row count (None for null) and the disk after the lookup. */
    method GetCache(query: string, d: Disk) returns (value: Option<int>, d': Disk)
      modifies this`colInfo, this`lastResult, this`numRows, this`fromDiskCache
      ensures Cached(value, State(), d') == Lookup(cache, old(State()), query, d)
    {
      value, d' := None, d;
      if cache.useDiskCache && query in d.files {
        var f := d.files[query];
        if Stale(d.now, f.mtime, cache.cacheTimeout, MarkerOf(d, query)) {
          d' := d.(markers := d.markers[query := d.now]);
        } else {
          colInfo := f.entry.colInfo;
          lastResult := f.entry.lastResult;
          numRows := f.entry.numRows;
          fromDiskCache := true;
          value := f.entry.returnValue;
        }
      }
    }

    /** store_cache(): false when the cache directory cannot be made, else null; and the disk after it. */
    method StoreCache(query: string, isInsert: bool, d: Disk) returns (value: Option<bool>, d': Disk)
      modifies this`lastError, this`capturedErrors
      ensures Stored(value, State(), d') == Store(cache, old(State()), query, isInsert, d)
    {
      value, d' := None, d;
      if StoreGate(cache.useDiskCache, cache.cacheQueries, cache.cacheInserts, isInsert) {
        if !d'.dirExists {
          d' := d'.(dirExists := d'.mkdirWorks);
        }
        if !d'.dirExists {
          var r := RegisterError("Could not open cache dir: " + cache.cacheDir);
          value := Some(r);
        } else {
          var entry := CacheEntry(colInfo, lastResult, numRows, numRows);
          d' := d'.(files := d'.files[query := CacheFile(d'.now, entry)], markers := d'.markers - {query});
        }
      }
    }

    /** get_var() without a query: log the call, then read entry x of row y. */
    method CachedVar(x: int, y: int) returns (v: Option<string>)
      modifies this`funcCall, this`allFuncCalls
      ensures State() == Logged(old(State()), VarCall("", x, y))
      ensures v == VarAt(lastResult, x, y)
    {
      LogQuery(VarCall("", x, y));
      v := VarAt(lastResult, x, y);
    }

    /** The loop of get_col(): get_var(x, i) for each row, each call logged. */
    method Column(x: int) returns (col: seq<Option<string>>)
      modifies this`funcCall, this`allFuncCalls
      ensures col == ColumnOf(lastResult, x)
      ensures allFuncCalls == old(allFuncCalls) + VarCalls(x, |col|)
      ensures funcCall == if |col| == 0 then old(funcCall) else Some(VarCall("", x, |col| - 1))
    {
      col := [];
      if lastResult.Some? {
        var j := |lastResult.value|;
        var i := 0;
        while i < j
          invariant 0 <= i <= j == |lastResult.value|
          invariant col == ColumnOf(lastResult, x)[..i]
          invariant allFuncCalls == old(allFuncCalls) + VarCalls(x, i)
          invariant funcCall == if i == 0 then old(funcCall) else Some(VarCall("", x, i - 1))
          invariant lastResult == old(lastResult)
        {
          var v := CachedVar(x, i);
          col := col + [v];
          assert VarCalls(x, i + 1) == VarCalls(x, i) + [VarCall("", x, i)];
          i := i + 1;
        }
      }
    }

    /** The projection part of get_results(). */
    method ResultRows(output: Output) returns (r: Results)
      ensures r == ResultsOf(lastResult, output)
    {
      match output
      case Object => r := Objects(lastResult);
      case Json => r := JsonOf(lastResult);
      case Other(_) => r := NoResults;
      case ArrayA =>
        var rs := RowsOrEmpty(lastResult);
        var out: seq<seq<Cell>> := [];
        var i := 0;
        while i < |rs|
          invariant 0 <= i <= |rs|
          invariant out == seq(i, k requires 0 <= k < i => rs[k].cells)
        {
          out := out + [rs[i].cells];
          i := i + 1;
        }
        r := Assoc(out);
      case ArrayN =>
        var rs := RowsOrEmpty(lastResult);
        var out: seq<seq<Option<string>>> := [];
        var i := 0;
        while i < |rs|
          invariant 0 <= i <= |rs|
          invariant out == seq(i, k requires 0 <= k < i => Values(rs[k]))
        {
          out := out + [Values(rs[i])];
          i := i + 1;
        }
        r := Numbered(out);
    }

    /** get_col_info(): the loop over every column for offset -1, else one column. */
    method GetColInfo(info: string, offset: int) returns (r: ColInfoReply)
      ensures r == ColInfoOf(colInfo, info, offset)
    {
      if |colInfo| == 0 {
        return NoInfo;
      }
      if offset == -1 {
        var cols := colInfo;
        var out: seq<Option<string>> := [];
        var i := 0;
        while i < |cols|
          invariant 0 <= i <= |cols|
          invariant out == seq(i, k requires 0 <= k < i => Attr(cols[k], info))
        {
          out := out + [Attr(cols[i], info)];
          i := i + 1;
        }
        return AllColumns(out);
      }
      r := OneColumn(if 0 <= offset < |colInfo| then Attr(colInfo[offset], info) else None);
    }

    /** secureReset(): drop the TLS settings; nothing else changes. */
    method SecureReset()
      modifies this`isSecure, this`sslKey, this`sslCert, this`sslCa, this`sslPath, this`secureOptions
      ensures !isSecure && sslKey == None && sslCert == None && sslCa == None && sslPath == None && secureOptions == None
    {
      isSecure := false;
      sslKey := None;
      sslCert := None;
      sslCa := None;
      sslPath := None;
      secureOptions := None;
    }

    /** isConnected() */
    function IsConnected(): (r: bool)
      reads this
      ensures r == State().connected
    {
      connected
    }

    /** affectedRows() */
    function AffectedRows(): (r: Scalar)
      reads this
      ensures r == State().affectedRows
    {
      affectedRows
    }

    /** queryResult() */
    function QueryResult(): (r: Option<seq<Row>>)
      reads this
      ensures r == State().lastResult
    {
      lastResult
    }
  }
}
