/**
 * The PDO driver session (ez_pdo): `query` over an abstract driver, the
 * error check `catch_error`, the credential guards of `connect`,
 * `disconnect`, and the projections of ezsqlModel that run a query first.
 *
 * The session owns a query builder (ezQuery) and the ezsqlModel state, and
 * keeps the properties ez_pdo writes itself: `dbh`, `last_query`,
 * `num_queries`, `col_info`, `last_result`, `num_rows` and `insert_id`.
 * These are not ezsqlModel's camelCase properties of similar names, and the
 * model keeps the two apart as the library does.
 *
 * PDO itself is a `Driver` value: what connecting, `exec`, `query`,
 * `prepare`/`execute`, `errorInfo` and `lastInsertId` give back for the
 * statement at hand.
 */
module EzPdo {
  import opened Php
  import opened EzsqlModel
  import Clause
  import Statement
  import EzQuery

  /** The connection settings a session is made with (the PDO options are not modelled). */
  datatype Config = Config(dsn: string, user: string, password: string, isFile: bool)

  /** The two messages of `_ezsql_pdo_str`. */
  const MissingCredentials: string := "Require $dsn and $user and $password to create a connection"
  const MissingDsn: string := "File based databases require $dsn to create a connection"

  /** Column metadata as `getColumnMeta` gives it. */
  datatype Meta = Meta(name: string, nativeType: string)

  /** A statement handle: per column its metadata (None when there is none), and the rows `fetch` yields. */
  datatype Cursor = Cursor(columns: seq<Option<Meta>>, rows: seq<Row>)

  /** What `prepare` gives: whether `execute` succeeds, `rowCount`, and the handle. */
  datatype Prepared = Prepared(executes: bool, rowCount: int, cursor: Cursor)

  /** `errorInfo()`: SQLSTATE, the driver's error code and its message. */
  datatype ErrorInfo = ErrorInfo(sqlState: string, code: Option<int>, message: Option<string>)

  /** The replies of the driver for one statement. */
  datatype Driver = Driver(
    connectError: Option<string>,   // the PDOException message when `new PDO` fails
    prepared: Option<Prepared>,     // `prepare()`, None for false
    exec: Scalar,                   // `exec()`: a row count, or false
    select: Option<Cursor>,         // `query()`, None for false
    errorInfo: ErrorInfo,           // `errorInfo()` after the statement
    insertId: string)               // `lastInsertId()`

  /** ez_pdo's own properties; `hasDbh` says whether `dbh` holds a connection. */
  datatype PdoState = PdoState(
    hasDbh: bool,
    lastQuery: Option<string>,
    numQueries: int,
    colInfo: seq<Column>,
    lastResult: seq<Row>,
    numRows: Option<int>,
    insertId: Option<string>)

  /** Before the first query none of them is set; an unset counter increments from 0. */
  const Unset: PdoState := PdoState(false, None, 0, [], [], None, None)

  /** Everything a query can change: ez_pdo's properties, ezsqlModel's, the stored parameters and the disk. */
  datatype Session = Session(pdo: PdoState, model: ModelState, params: seq<Clause.Param>, disk: Disk)

  /** What a query reads but does not change: the settings, the driver file's path, the cache settings, prepare mode. */
  datatype Env = Env(config: Config, file: string, cache: CacheConfig, prepareActive: bool)

  /** What query() returns, or an exception it lets escape. */
  datatype Reply = Returned(value: Scalar) | Raised

  /** The statement handed to the driver: none, run directly, or prepared and executed with parameters. */
  datatype Sent = NotSent | Direct(text: string) | PreparedWith(text: string, params: seq<Clause.Param>)

  datatype QueryOut = QueryOut(reply: Reply, s: Session, sent: Sent)

  // ---------------------------------------------------------------------
  // The query text

  /** The literal `str_replace` removes after trimming; it is matched as plain text, not as a pattern. */
  const LineBreakLiteral: string := "/[\n\r]/"

  /** Placeholders become `?`, the text is trimmed, and the literal above is dropped. */
  function Rewrite(query: string): string {
    StrReplace(Trim(StrReplace(query, Clause.TAG, "?")), LineBreakLiteral, "")
  }

  /** A text without the pattern has none of its slices hold it. */
  lemma SliceFree(s: string, i: nat, j: nat, pat: string)
    requires i <= j <= |s| && !Contains(s, pat)
    ensures !Contains(s[i..j], pat)
  {
    var t := s[i..j];
    forall k: nat | k <= |t| ensures !OccursAt(t, pat, k) {
      if k + |pat| <= |t| {
        var m: nat := i + k;
        forall x | k <= x < k + |pat| ensures t[x] == s[i + x] {
        }
        assert t[k..k + |pat|] == s[m..m + |pat|];
        assert !OccursAt(s, pat, m);
      }
    }
  }

  /** Where the trimmed text starts. */
  function TrimStart(s: string): nat {
    |s| - |LTrim(s, TrimChars)|
  }

  /** Trimming keeps a slice of the text. */
  lemma TrimIsSlice(s: string)
    ensures TrimStart(s) + |Trim(s)| <= |s|
    ensures Trim(s) == s[TrimStart(s)..TrimStart(s) + |Trim(s)|]
  {
    var l := LTrim(s, TrimChars);
    var r := RTrim(l, TrimChars);
    var i := |s| - |l|;
    assert l == s[i..];
    assert r == l[..|r|];
  }

  /**
   * No placeholder survives the rewrite, and the statement is the trimmed
   * text, as long as the literal the last step drops does not occur in it.
   */
  lemma RewriteRemovesTags(query: string)
    requires !Contains(Trim(StrReplace(query, Clause.TAG, "?")), LineBreakLiteral)
    ensures Rewrite(query) == Trim(StrReplace(query, Clause.TAG, "?"))
    ensures !Contains(Rewrite(query), Clause.TAG)
  {
    var t := StrReplace(query, Clause.TAG, "?");
    StrReplaceRemovesAll(query, Clause.TAG, '?');
    TrimIsSlice(t);
    SliceFree(t, TrimStart(t), TrimStart(t) + |Trim(t)|, Clause.TAG);
    ReplaceAbsent(Trim(t), LineBreakLiteral, "");
  }

  // ---------------------------------------------------------------------
  // Classification

  /** The characters `\s` matches. */
  const Space: set<char> := {' ', '\t', '\n', '\r', '\U{B}', '\U{C}'}

  /** The text starts with the word, in any letter case, followed by white space. */
  predicate StartsWithWord(q: string, w: string) {
    |q| > |w| && Lower(q[..|w|]) == w && q[|w|] in Space
  }

  /** `^(insert|delete|update|replace|drop|create)\s+`, case-insensitive. */
  predicate IsMutating(q: string) {
    StartsWithWord(q, "insert") || StartsWithWord(q, "delete") || StartsWithWord(q, "update")
    || StartsWithWord(q, "replace") || StartsWithWord(q, "drop") || StartsWithWord(q, "create")
  }

  /** `^(insert|replace)\s+`, case-insensitive: the statements whose insert id is kept. */
  predicate IsInsertLike(q: string) {
    StartsWithWord(q, "insert") || StartsWithWord(q, "replace")
  }

  /** A word match fixes the first letter, in lower case. */
  lemma FirstLetter(q: string, w: string)
    requires |w| > 0
    ensures StartsWithWord(q, w) ==> LowerChar(q[0]) == w[0]
  {
    if |q| > |w| {
      assert Lower(q[..|w|])[0] == LowerChar(q[0]);
    }
  }

  /** Every statement whose insert id is kept is a mutating one, and a SELECT is neither. */
  lemma InsertLikeIsMutating(q: string)
    ensures IsInsertLike(q) ==> IsMutating(q)
    ensures |q| >= 6 && Lower(q[..6]) == "select" ==> !IsMutating(q)
  {
    if |q| >= 6 {
      assert Lower(q[..6])[0] == LowerChar(q[0]);
    }
    FirstLetter(q, "insert");
    FirstLetter(q, "delete");
    FirstLetter(q, "update");
    FirstLetter(q, "replace");
    FirstLetter(q, "drop");
    FirstLetter(q, "create");
  }

  // ---------------------------------------------------------------------
  // catch_error

  /** The entries of `errorInfo()` as `$entry . ', '` renders them. */
  function Entries(e: ErrorInfo): seq<string> {
    [e.sqlState, if e.code.Some? then IntToString(e.code.value) else "", StrOf(e.message)]
  }

  /** An error is reported when the driver code is set and is not 25 (bind or column index out of range). */
  predicate Reports(e: ErrorInfo) {
    e.code.Some? && e.code.value != 25
  }

  /** The message catch_error registers: the entries joined with ", ". */
  function ErrorText(e: ErrorInfo): string {
    Join(Entries(e), ", ")
  }

  /** `substr($s, 0, -2)` */
  function DropLastTwo(s: string): string {
    if |s| >= 2 then s[..|s| - 2] else ""
  }

  /** catch_error(): the session after the check. */
  function Caught(s: Session, e: ErrorInfo): Session {
    if Reports(e) then s.(model := Registered(s.model, ErrorText(e))) else s
  }

  /** Code 25 and a missing code are ignored; anything else is logged once, with every entry in order. */
  lemma CatchErrorFilters(s: Session, e: ErrorInfo)
    ensures !Reports(e) ==> Caught(s, e) == s
    ensures e.code == Some(25) ==> Caught(s, e) == s
    ensures Reports(e) ==> Caught(s, e).model.capturedErrors == s.model.capturedErrors + [ErrorRecord(ErrorText(e), s.model.lastQuery)]
    ensures Reports(e) ==> ErrorText(e) == e.sqlState + ", " + IntToString(e.code.value) + ", " + StrOf(e.message)
  {
    if Reports(e) {
      var es := Entries(e);
      assert es[1..][1..] == [es[2]];
      assert Join(es, ", ") == es[0] + ", " + Join(es[1..], ", ");
      assert Join(es[1..], ", ") == es[1] + ", " + Join(es[1..][1..], ", ");
    }
  }

  // ---------------------------------------------------------------------
  // connect

  /** `empty($arg) ? <configured> : $arg` */
  function Setting(arg: string, configured: string): string {
    if Empty(arg) then configured else arg
  }

  /**
   * The credential check of connect(). The file-based flag always comes from
   * the configuration: the parameter is `$isFileBased`, the test reads the
   * never-assigned `$IsFileBased`.
   */
  function Complaint(env: Env, dsn: string, user: string, password: string): Option<string> {
    var setDsn := Setting(dsn, env.config.dsn);
    var setUser := Setting(user, env.config.user);
    var setPassword := Setting(password, env.config.password);
    if !env.config.isFile then
      if Empty(setDsn) || Empty(setUser) || Empty(setPassword) then
        Some(MissingCredentials + " in " + env.file + " on line 89")
      else None
    else if Empty(setDsn) then
      Some(MissingDsn + " in " + env.file + " on line 94")
    else None
  }

  /** connect(): the session after it; the connection is attempted whatever the check found. */
  function Connected(env: Env, s: Session, dsn: string, user: string, password: string, isFileBased: bool,
                     connectError: Option<string>): Session
  {
    var m0 := s.model.(connected := false);
    var m1 := match Complaint(env, dsn, user, password)
      case None => m0
      case Some(msg) => Registered(m0, msg);
    if connectError.None? then
      s.(pdo := s.pdo.(hasDbh := true), model := m1.(connected := true))
    else
      s.(model := Registered(m1, connectError.value))
  }

  /** Missing credentials are reported with message 1 or 2, and the connection is still attempted. */
  lemma ConnectGuards(env: Env, s: Session, dsn: string, user: string, password: string, isFileBased: bool,
                      connectError: Option<string>)
    ensures var c := Connected(env, s, dsn, user, password, isFileBased, connectError);
      && (!env.config.isFile && (Empty(Setting(dsn, env.config.dsn)) || Empty(Setting(user, env.config.user))
            || Empty(Setting(password, env.config.password))) ==>
          c.model.capturedErrors[|s.model.capturedErrors|].errorStr == MissingCredentials + " in " + env.file + " on line 89")
      && (env.config.isFile && Empty(Setting(dsn, env.config.dsn)) ==>
          c.model.capturedErrors[|s.model.capturedErrors|].errorStr == MissingDsn + " in " + env.file + " on line 94")
      && (Complaint(env, dsn, user, password).None? && connectError.None? ==> c.model.capturedErrors == s.model.capturedErrors)
      && (c.model.connected <==> connectError.None?)
      && c.pdo.hasDbh == (s.pdo.hasDbh || connectError.None?)
  {
  }

  /** The file-based argument makes no difference. */
  lemma ConnectIgnoresFileArgument(env: Env, s: Session, dsn: string, user: string, password: string,
                                   connectError: Option<string>)
    ensures Connected(env, s, dsn, user, password, true, connectError) == Connected(env, s, dsn, user, password, false, connectError)
  {
  }

  // ---------------------------------------------------------------------
  // query

  /** The text query() logs for itself. */
  function QueryCall(q: string): string {
    "$db->query(\"" + q + "\")"
  }

  /** The state after the preamble of query(): flush, log the call, note the query, count it. */
  function Begin(s: Session, q: string): Session {
    var m := Logged(Flushed(s.model), QueryCall(q));
    s.(model := m, params := [], pdo := s.pdo.(lastQuery := Some(q), numQueries := s.pdo.numQueries + 1))
  }

  /** The prepared path: a non-empty parameter array captured on entry, and prepare mode on. */
  predicate PreparedPath(env: Env, param: Option<seq<Clause.Param>>) {
    param.Some? && |param.value| > 0 && env.prepareActive
  }

  /** query_prepared(..., false): the row count when the statement prepares and executes, else false. */
  function PreparedCount(p: Option<Prepared>): Scalar {
    if p.Some? && p.value.executes then Int(p.value.rowCount) else Bool(false)
  }

  /** query_prepared(..., true): the handle, which its own fetch loop has already read to the end. */
  function PreparedHandle(p: Option<Prepared>): Option<Cursor> {
    if p.Some? then Some(Cursor(p.value.cursor.columns, [])) else None
  }

  /** Writing entries 0 .. |new|-1 of a PHP array: the new entries, then whatever stood beyond them. */
  function Overlay<T>(prev: seq<T>, next: seq<T>): (r: seq<T>)
    ensures |r| == if |next| >= |prev| then |next| else |prev|
    ensures r[..|next|] == next
    ensures r[|next|..] == if |next| >= |prev| then [] else prev[|next|..]
  {
    if |next| >= |prev| then next else next + prev[|next|..]
  }

  /** One `col_info` entry: name and type from the metadata, else 'undefined'. */
  function ColumnFrom(meta: Option<Meta>): Column {
    if meta.Some? then Column(meta.value.name, meta.value.nativeType, "")
    else Column("undefined", "undefined", "")
  }

  function ColumnsFrom(metas: seq<Option<Meta>>): (cs: seq<Column>)
    ensures |cs| == |metas|
    ensures forall i :: 0 <= i < |metas| ==> cs[i] == ColumnFrom(metas[i])
  {
    seq(|metas|, i requires 0 <= i < |metas| => ColumnFrom(metas[i]))
  }

  /** store_cache() on the session. */
  function StoreStep(env: Env, s: Session, q: string, isInsert: bool): Session {
    var st := Store(env.cache, s.model, q, isInsert, s.disk);
    s.(model := st.model, disk := st.disk)
  }

  /** The insert/update/delete/replace/drop/create branch. */
  function Mutated(env: Env, s: Session, q: string, param: Option<seq<Clause.Param>>, d: Driver): QueryOut {
    var prepared := PreparedPath(env, param);
    var affected := if prepared then PreparedCount(d.prepared) else d.exec;
    var sent := if prepared then PreparedWith(q, param.value) else Direct(q);
    var s1 := s.(params := if prepared then s.params + [Clause.NullParam] else s.params,
                 model := s.model.(affectedRows := affected));
    if Reports(d.errorInfo) then
      QueryOut(Returned(Bool(false)), Caught(s1, d.errorInfo), sent)
    else
      var s2 := if IsInsertLike(q) then s1.(pdo := s1.pdo.(insertId := Some(d.insertId))) else s1;
      QueryOut(Returned(affected), StoreStep(env, s2, q, true), sent)
  }

  /** The row-producing branch. */
  function Selected(env: Env, s: Session, q: string, param: Option<seq<Clause.Param>>, d: Driver): QueryOut {
    var prepared := PreparedPath(env, param);
    var sth := if prepared then PreparedHandle(d.prepared) else d.select;
    var sent := if prepared then PreparedWith(q, param.value) else Direct(q);
    var s1 := s.(params := if prepared then s.params + [Clause.NullParam] else s.params);
    if Reports(d.errorInfo) then
      QueryOut(Returned(Bool(false)), Caught(s1, d.errorInfo), sent)
    else if sth.None? then
      QueryOut(Raised, s1, sent)
    else
      var rows := sth.value.rows;
      var p := s1.pdo.(colInfo := Overlay(s1.pdo.colInfo, ColumnsFrom(sth.value.columns)),
                       lastResult := Overlay(s1.pdo.lastResult, rows),
                       numRows := Some(|rows|));
      QueryOut(Returned(Int(|rows|)), StoreStep(env, s1.(pdo := p), q, false), sent)
  }

  /** The value get_cache gave (None for null) and the session after the preamble and the lookup. */
  datatype Prelude = Prelude(cached: Option<int>, s: Session)

  /** query() up to the cache check: flush, log, note and count the query, then get_cache(). */
  function Preamble(env: Env, s: Session, q: string): Prelude {
    var b := Begin(s, q);
    var c := Lookup(env.cache, b.model, q, b.disk);
    Prelude(c.value, b.(model := c.model, disk := c.disk))
  }

  /** query() after a cache miss: connect when there is no handle, then run the statement. */
  function Execute(env: Env, s: Session, q: string, param: Option<seq<Clause.Param>>, d: Driver): QueryOut {
    var s1 := if s.pdo.hasDbh then s
              else Connected(env, s, env.config.dsn, env.config.user, env.config.password, env.config.isFile, d.connectError);
    if !s1.pdo.hasDbh then QueryOut(Raised, s1, NotSent)
    else if IsMutating(q) then Mutated(env, s1, q, param, d)
    else Selected(env, s1, q, param, d)
  }

  /** query(): the whole run. The parameters are captured before the flush. */
  function QueryRun(env: Env, s: Session, query: string, usePrepare: bool, d: Driver): QueryOut {
    var param := if usePrepare then Some(s.params) else None;
    var q := Rewrite(query);
    var p := Preamble(env, s, q);
    if p.cached.Some? && p.cached.value != 0 then QueryOut(Returned(Int(p.cached.value)), p.s, NotSent)
    else Execute(env, p.s, q, param, d)
  }

  // ---------------------------------------------------------------------
  // Properties of the stages

  /**
   * The preamble counts the query, notes it in ez_pdo's `last_query`, and
   * empties the stored parameters and ezsqlModel's `lastQuery`; the error log
   * is untouched and the call log holds this call alone.
   */
  lemma PreambleNotes(env: Env, s: Session, q: string)
    ensures var p := Preamble(env, s, q);
      && p.s.pdo == s.pdo.(lastQuery := Some(q), numQueries := s.pdo.numQueries + 1)
      && p.s.params == []
      && p.s.model.lastQuery == None
      && p.s.model.capturedErrors == s.model.capturedErrors
      && p.s.model.allFuncCalls == [QueryCall(q)]
  {
  }

  /** After the preamble ezsqlModel's result is null, and the cached value absent, unless a fresh cache file supplied them. */
  lemma PreambleResult(env: Env, s: Session, q: string)
    ensures var p := Preamble(env, s, q);
      && (p.s.model.lastResult.Some? ==>
            env.cache.useDiskCache && q in s.disk.files && p.s.model.lastResult == s.disk.files[q].entry.lastResult)
      && (p.cached.Some? ==> env.cache.useDiskCache && q in s.disk.files && p.cached == s.disk.files[q].entry.returnValue)
  {
  }

  /** store_cache() changes only the error log and the disk. */
  lemma StoreStepKeeps(env: Env, s: Session, q: string, isInsert: bool)
    ensures var t := StoreStep(env, s, q, isInsert);
      t.pdo == s.pdo && t.params == s.params
      && t.model.lastResult == s.model.lastResult && t.model.lastQuery == s.model.lastQuery
  {
  }

  /** Connecting, running the statement and storing it touch neither the counters nor ezsqlModel's result and query. */
  lemma ExecuteKeeps(env: Env, s: Session, q: string, param: Option<seq<Clause.Param>>, d: Driver)
    ensures var o := Execute(env, s, q, param, d);
      && o.s.pdo.numQueries == s.pdo.numQueries
      && o.s.pdo.lastQuery == s.pdo.lastQuery
      && o.s.model.lastResult == s.model.lastResult
      && o.s.model.lastQuery == s.model.lastQuery
  {
    var s1 := if s.pdo.hasDbh then s
              else Connected(env, s, env.config.dsn, env.config.user, env.config.password, env.config.isFile, d.connectError);
    assert s1.pdo.numQueries == s.pdo.numQueries && s1.pdo.lastQuery == s.pdo.lastQuery;
    assert s1.model.lastResult == s.model.lastResult && s1.model.lastQuery == s.model.lastQuery;
    if s1.pdo.hasDbh {
      var prepared := PreparedPath(env, param);
      if IsMutating(q) {
        var affected := if prepared then PreparedCount(d.prepared) else d.exec;
        var s2 := s1.(params := if prepared then s1.params + [Clause.NullParam] else s1.params,
                      model := s1.model.(affectedRows := affected));
        if !Reports(d.errorInfo) {
          var s3 := if IsInsertLike(q) then s2.(pdo := s2.pdo.(insertId := Some(d.insertId))) else s2;
          StoreStepKeeps(env, s3, q, true);
        }
      } else {
        var sth := if prepared then PreparedHandle(d.prepared) else d.select;
        var s2 := s1.(params := if prepared then s1.params + [Clause.NullParam] else s1.params);
        if !Reports(d.errorInfo) && sth.Some? {
          var rows := sth.value.rows;
          var p := s2.pdo.(colInfo := Overlay(s2.pdo.colInfo, ColumnsFrom(sth.value.columns)),
                           lastResult := Overlay(s2.pdo.lastResult, rows),
                           numRows := Some(|rows|));
          StoreStepKeeps(env, s2.(pdo := p), q, false);
        }
      }
    }
  }

  /**
   * The statement goes to the driver exactly when a handle exists or can be
   * made; it is prepared exactly on the prepared path, binds the captured
   * array and leaves one null parameter behind.
   */
  lemma ExecuteSends(env: Env, s: Session, q: string, param: Option<seq<Clause.Param>>, d: Driver)
    ensures var o := Execute(env, s, q, param, d);
      && (o.sent == NotSent <==> !s.pdo.hasDbh && d.connectError.Some?)
      && (o.sent == NotSent ==> o.reply == Raised)
      && (o.sent.PreparedWith? <==> o.sent != NotSent && PreparedPath(env, param))
      && (o.sent.PreparedWith? ==> o.sent == PreparedWith(q, param.value) && o.s.params == s.params + [Clause.NullParam])
      && (o.sent.Direct? ==> o.sent == Direct(q) && o.s.params == s.params)
  {
  }

  /** The branches below an error report: false, the error logged last with ezsqlModel's current query, nothing else kept. */
  lemma MutatedError(env: Env, s: Session, q: string, param: Option<seq<Clause.Param>>, d: Driver)
    requires Reports(d.errorInfo)
    ensures var o := Mutated(env, s, q, param, d);
      && o.reply == Returned(Bool(false))
      && LastError(o.s.model) == Some(ErrorRecord(ErrorText(d.errorInfo), s.model.lastQuery))
      && o.s.disk == s.disk && o.s.pdo == s.pdo
  {
  }

  lemma SelectedError(env: Env, s: Session, q: string, param: Option<seq<Clause.Param>>, d: Driver)
    requires Reports(d.errorInfo)
    ensures var o := Selected(env, s, q, param, d);
      && o.reply == Returned(Bool(false))
      && LastError(o.s.model) == Some(ErrorRecord(ErrorText(d.errorInfo), s.model.lastQuery))
      && o.s.disk == s.disk && o.s.pdo == s.pdo
  {
  }

  /** A reported driver error: false, the error logged last with ezsqlModel's current query, nothing stored or kept. */
  lemma ExecuteError(env: Env, s: Session, q: string, param: Option<seq<Clause.Param>>, d: Driver)
    requires Reports(d.errorInfo)
    ensures var o := Execute(env, s, q, param, d);
      o.sent != NotSent ==>
        && o.reply == Returned(Bool(false))
        && LastError(o.s.model) == Some(ErrorRecord(ErrorText(d.errorInfo), s.model.lastQuery))
        && o.s.disk == s.disk
        && o.s.pdo.colInfo == s.pdo.colInfo && o.s.pdo.lastResult == s.pdo.lastResult
  {
    var s1 := if s.pdo.hasDbh then s
              else Connected(env, s, env.config.dsn, env.config.user, env.config.password, env.config.isFile, d.connectError);
    assert s1.model.lastQuery == s.model.lastQuery && s1.disk == s.disk;
    assert s1.pdo.colInfo == s.pdo.colInfo && s1.pdo.lastResult == s.pdo.lastResult;
    if s1.pdo.hasDbh {
      if IsMutating(q) {
        MutatedError(env, s1, q, param, d);
      } else {
        SelectedError(env, s1, q, param, d);
      }
    }
  }

  /** A direct row-producing statement: its row count, its rows first in `last_result`, one `col_info` entry per column. */
  lemma ExecuteSelect(env: Env, s: Session, q: string, param: Option<seq<Clause.Param>>, d: Driver)
    requires !Reports(d.errorInfo) && !IsMutating(q)
    ensures var o := Execute(env, s, q, param, d);
      && (o.sent.Direct? && d.select.Some? ==>
            && o.reply == Returned(Int(|d.select.value.rows|))
            && o.s.pdo.numRows == Some(|d.select.value.rows|)
            && o.s.pdo.lastResult[..|d.select.value.rows|] == d.select.value.rows
            && o.s.pdo.colInfo[..|d.select.value.columns|] == ColumnsFrom(d.select.value.columns))
      && (o.sent.Direct? && d.select.None? ==> o.reply == Raised)
      && (o.sent.PreparedWith? && d.prepared.Some? ==> o.reply == Returned(Int(0)) && o.s.pdo.numRows == Some(0))
  {
  }

  /** The insert id changes only for an insert or replace that did not fail, and then to `lastInsertId()`. */
  lemma ExecuteInsertId(env: Env, s: Session, q: string, param: Option<seq<Clause.Param>>, d: Driver)
    ensures var o := Execute(env, s, q, param, d);
      o.s.pdo.insertId != s.pdo.insertId ==>
        IsInsertLike(q) && !Reports(d.errorInfo) && o.s.pdo.insertId == Some(d.insertId)
  {
    InsertLikeIsMutating(q);
  }

  // ---------------------------------------------------------------------
  // Properties of query

  /** Each call counts exactly one query and notes its rewritten text, cached or not, failed or not. */
  lemma QueryCountsOnce(env: Env, s: Session, query: string, usePrepare: bool, d: Driver)
    ensures QueryRun(env, s, query, usePrepare, d).s.pdo.numQueries == s.pdo.numQueries + 1
    ensures QueryRun(env, s, query, usePrepare, d).s.pdo.lastQuery == Some(Rewrite(query))
  {
    var q := Rewrite(query);
    var p := Preamble(env, s, q);
    PreambleNotes(env, s, q);
    ExecuteKeeps(env, p.s, q, if usePrepare then Some(s.params) else None, d);
  }

  /** A truthy cached value is returned without reaching the driver; otherwise the driver is reached whenever a handle exists or can be made. */
  lemma CacheShortCircuit(env: Env, s: Session, query: string, usePrepare: bool, d: Driver)
    ensures var q := Rewrite(query); var p := Preamble(env, s, q); var o := QueryRun(env, s, query, usePrepare, d);
      && (p.cached.Some? && p.cached.value != 0 ==> o == QueryOut(Returned(Int(p.cached.value)), p.s, NotSent))
      && (o.sent == NotSent && o.reply.Returned? ==> p.cached.Some? && p.cached.value != 0)
      && (s.pdo.hasDbh && !(p.cached.Some? && p.cached.value != 0) ==> o.sent != NotSent)
  {
    var q := Rewrite(query);
    var p := Preamble(env, s, q);
    PreambleNotes(env, s, q);
    ExecuteSends(env, p.s, q, if usePrepare then Some(s.params) else None, d);
  }

  /**
   * The prepared path is taken exactly when a non-empty parameter array was
   * stored on entry and prepare mode is on; it binds that array and leaves
   * one null parameter behind.
   */
  lemma PreparedBindsCaptured(env: Env, s: Session, query: string, usePrepare: bool, d: Driver)
    ensures var o := QueryRun(env, s, query, usePrepare, d);
      && (o.sent.PreparedWith? <==> (o.sent != NotSent && usePrepare && |s.params| > 0 && env.prepareActive))
      && (o.sent.PreparedWith? ==> o.sent == PreparedWith(Rewrite(query), s.params) && o.s.params == [Clause.NullParam])
      && (o.sent.Direct? ==> o.sent == Direct(Rewrite(query)) && o.s.params == [])
  {
    var q := Rewrite(query);
    var p := Preamble(env, s, q);
    PreambleNotes(env, s, q);
    ExecuteSends(env, p.s, q, if usePrepare then Some(s.params) else None, d);
  }

  /**
   * A reported driver error makes query() return false and log the error
   * last, with no query attached (ezsqlModel's `lastQuery`, which the flush
   * emptied, not ez_pdo's `last_query`); nothing is stored and no result kept.
   */
  lemma ErrorStopsQuery(env: Env, s: Session, query: string, usePrepare: bool, d: Driver)
    requires Reports(d.errorInfo)
    ensures var p := Preamble(env, s, Rewrite(query)); var o := QueryRun(env, s, query, usePrepare, d);
      o.sent != NotSent ==>
        && o.reply == Returned(Bool(false))
        && LastError(o.s.model) == Some(ErrorRecord(ErrorText(d.errorInfo), None))
        && o.s.disk == p.s.disk
        && o.s.pdo.colInfo == s.pdo.colInfo && o.s.pdo.lastResult == s.pdo.lastResult
  {
    var q := Rewrite(query);
    var param := if usePrepare then Some(s.params) else None;
    var p := Preamble(env, s, q);
    PreambleNotes(env, s, q);
    if !(p.cached.Some? && p.cached.value != 0) {
      assert QueryRun(env, s, query, usePrepare, d) == Execute(env, p.s, q, param, d);
      ExecuteError(env, p.s, q, param, d);
    }
  }

  /** A row-producing statement returns its row count and keeps its rows and columns first; a prepared one finds its rows already read. */
  lemma SelectKeepsRows(env: Env, s: Session, query: string, usePrepare: bool, d: Driver)
    requires !Reports(d.errorInfo) && !IsMutating(Rewrite(query))
    ensures var o := QueryRun(env, s, query, usePrepare, d);
      && (o.sent.Direct? && d.select.Some? ==>
            && o.reply == Returned(Int(|d.select.value.rows|))
            && o.s.pdo.numRows == Some(|d.select.value.rows|)
            && o.s.pdo.lastResult[..|d.select.value.rows|] == d.select.value.rows
            && o.s.pdo.colInfo[..|d.select.value.columns|] == ColumnsFrom(d.select.value.columns))
      && (o.sent.PreparedWith? && d.prepared.Some? ==> o.reply == Returned(Int(0)) && o.s.pdo.numRows == Some(0))
  {
    var q := Rewrite(query);
    var p := Preamble(env, s, q);
    ExecuteSelect(env, p.s, q, if usePrepare then Some(s.params) else None, d);
  }

  /** The insert id changes only for an insert or replace that did not fail. */
  lemma InsertIdOnlyForInserts(env: Env, s: Session, query: string, usePrepare: bool, d: Driver)
    ensures var o := QueryRun(env, s, query, usePrepare, d);
      o.s.pdo.insertId != s.pdo.insertId ==>
        IsInsertLike(Rewrite(query)) && !Reports(d.errorInfo) && o.s.pdo.insertId == Some(d.insertId)
  {
    var q := Rewrite(query);
    var p := Preamble(env, s, q);
    PreambleNotes(env, s, q);
    ExecuteInsertId(env, p.s, q, if usePrepare then Some(s.params) else None, d);
  }

  /**
   * query() never fills ezsqlModel's `lastResult`: after the flush it is null
   * unless the disk cache restored it.
   */
  lemma QueryLeavesModelResult(env: Env, s: Session, query: string, usePrepare: bool, d: Driver)
    ensures var o := QueryRun(env, s, query, usePrepare, d); var q := Rewrite(query);
      o.s.model.lastResult.Some? ==>
        env.cache.useDiskCache && q in s.disk.files && o.s.model.lastResult == s.disk.files[q].entry.lastResult
  {
    var q := Rewrite(query);
    var p := Preamble(env, s, q);
    PreambleResult(env, s, q);
    ExecuteKeeps(env, p.s, q, if usePrepare then Some(s.params) else None, d);
  }

  // ---------------------------------------------------------------------
  // The step after the query in insert() and replace()

  /** What `_query_insert_replace` answers once its statement ran: `insert_id` (None for null), false, or an escaping exception. */
  datatype IdReply = InsertId(id: Option<string>) | NoId | IdRaised

  datatype IdOut = IdOut(reply: IdReply, s: Session)

  /**
   * query(text, prepared), then `insert_id` when the query answered truthy;
   * otherwise one null parameter is pushed and the answer is false.
   */
  function ForId(env: Env, s: Session, text: string, prepared: bool, d: Driver): IdOut {
    IdAfter(QueryRun(env, s, text, prepared, d))
  }

  /** The answer and the session once query() came back. */
  function IdAfter(o: QueryOut): IdOut {
    match o.reply
    case Raised => IdOut(IdRaised, o.s)
    case Returned(v) =>
      if Truthy(v) then IdOut(InsertId(o.s.pdo.insertId), o.s)
      else IdOut(NoId, o.s.(params := o.s.params + [Clause.NullParam]))
  }

  /** The affected-row count query() takes from the driver on the path it chose. */
  function Affected(sent: Sent, d: Driver): Scalar {
    if sent.PreparedWith? then PreparedCount(d.prepared) else d.exec
  }

  /** An error-free insert or replace that reached the driver answers its affected-row count and notes the new id. */
  lemma ExecuteInsert(env: Env, s: Session, q: string, param: Option<seq<Clause.Param>>, d: Driver)
    requires IsInsertLike(q) && !Reports(d.errorInfo)
    ensures var o := Execute(env, s, q, param, d);
      o.sent != NotSent ==> o.reply == Returned(Affected(o.sent, d)) && o.s.pdo.insertId == Some(d.insertId)
  {
    InsertLikeIsMutating(q);
  }

  /**
   * An error-free insert or replace that reached the driver answers the id
   * `lastInsertId` gave when it affected rows; when it affected none (or
   * the count is false) it answers false and leaves a null parameter last,
   * after the one a prepared run already left.
   */
  lemma ForIdAfterInsert(env: Env, s: Session, text: string, prepared: bool, d: Driver)
    requires IsInsertLike(Rewrite(text)) && !Reports(d.errorInfo)
    ensures var o := QueryRun(env, s, text, prepared, d); var r := ForId(env, s, text, prepared, d);
      o.sent != NotSent ==>
        && (Truthy(Affected(o.sent, d)) ==> r.reply == InsertId(Some(d.insertId)) && r.s == o.s)
        && (!Truthy(Affected(o.sent, d)) ==>
              && r.reply == NoId
              && r.s.params == (if o.sent.PreparedWith? then [Clause.NullParam, Clause.NullParam] else [Clause.NullParam]))
  {
    var o := QueryRun(env, s, text, prepared, d);
    assert ForId(env, s, text, prepared, d) == IdAfter(o);
    QueryInsert(env, s, text, prepared, d);
    PreparedBindsCaptured(env, s, text, prepared, d);
  }

  /** ExecuteInsert over the whole of query(). */
  lemma QueryInsert(env: Env, s: Session, text: string, prepared: bool, d: Driver)
    requires IsInsertLike(Rewrite(text)) && !Reports(d.errorInfo)
    ensures var o := QueryRun(env, s, text, prepared, d);
      o.sent != NotSent ==> o.reply == Returned(Affected(o.sent, d)) && o.s.pdo.insertId == Some(d.insertId)
  {
    var q := Rewrite(text);
    var param := if prepared then Some(s.params) else None;
    var p := Preamble(env, s, q);
    if !(p.cached.Some? && p.cached.value != 0) {
      ExecuteInsert(env, p.s, q, param, d);
    }
  }

  /** A reported driver error answers false, with the error logged last and a null parameter pushed last. */
  lemma ForIdOnError(env: Env, s: Session, text: string, prepared: bool, d: Driver)
    requires Reports(d.errorInfo)
    ensures var o := QueryRun(env, s, text, prepared, d); var r := ForId(env, s, text, prepared, d);
      o.sent != NotSent ==>
        && r.reply == NoId
        && LastError(r.s.model) == Some(ErrorRecord(ErrorText(d.errorInfo), None))
        && |r.s.params| > 0 && r.s.params[|r.s.params| - 1] == Clause.NullParam
  {
    var o := QueryRun(env, s, text, prepared, d);
    assert ForId(env, s, text, prepared, d) == IdAfter(o);
    ErrorStopsQuery(env, s, text, prepared, d);
  }

  /**
   * A truthy count served from the cache answers the `insert_id` the session
   * held before the call, since the driver is never reached.
   */
  lemma ForIdFromCache(env: Env, s: Session, text: string, prepared: bool, d: Driver)
    ensures var p := Preamble(env, s, Rewrite(text)); var r := ForId(env, s, text, prepared, d);
      p.cached.Some? && p.cached.value != 0 ==> r.reply == InsertId(s.pdo.insertId)
  {
    var o := QueryRun(env, s, text, prepared, d);
    assert ForId(env, s, text, prepared, d) == IdAfter(o);
    PreambleNotes(env, s, Rewrite(text));
    CacheShortCircuit(env, s, text, prepared, d);
  }

  // ---------------------------------------------------------------------
  // The projections that run a query first

  /** An answer, or an exception that escaped from the query. */
  datatype Answer<T> = Value(value: T) | Threw

  /** `if ($query) $this->query(...)` after logging `call` (no log when `call` is None). */
  function Asked(env: Env, s: Session, call: Option<string>, query: Option<string>, usePrepare: bool, d: Driver): QueryOut {
    var s1 := if call.Some? then s.(model := Logged(s.model, call.value)) else s;
    if !EmptyOpt(query) then QueryRun(env, s1, query.value, usePrepare, d)
    else QueryOut(Returned(Null), s1, NotSent)
  }

  function RowCall(query: string, output: Output, y: int): string {
    "$db->get_row(\"" + query + "\"," + OutputName(output) + "," + IntToString(y) + ")"
  }

  function ResultsCall(query: string, output: Output, usePrepare: bool): string {
    "$db->get_results(\"" + query + "\", " + OutputName(output) + ", " + (if usePrepare then "1" else "") + ")"
  }

  /** Through ez_pdo, get_var with a query that is not served from the cache answers null. */
  lemma GetVarAfterQueryIsNull(env: Env, s: Session, query: string, x: int, y: int, usePrepare: bool, d: Driver)
    requires !Empty(query)
    requires !env.cache.useDiskCache || Rewrite(query) !in s.disk.files
    ensures var o := Asked(env, s, Some(VarCall(query, x, y)), Some(query), usePrepare, d);
      VarAt(o.s.model.lastResult, x, y) == None
  {
    var s1 := s.(model := Logged(s.model, VarCall(query, x, y)));
    QueryLeavesModelResult(env, s1, query, usePrepare, d);
  }

  class PdoSession {
    const builder: EzQuery.QueryBuilder
    const model: Model
    const config: Config
    /** The path of the driver file, as `__FILE__` gives it in messages. */
    const file: string

    var hasDbh: bool
    var lastQuery: Option<string>
    var numQueries: int
    var colInfo: seq<Column>
    var lastResult: seq<Row>
    var numRows: Option<int>
    var insertId: Option<string>

    function State(): PdoState
      reads this
    {
      PdoState(hasDbh, lastQuery, numQueries, colInfo, lastResult, numRows, insertId)
    }

    function Snapshot(disk: Disk): Session
      reads this, model, builder
    {
      Session(State(), model.State(), builder.preparedValues, disk)
    }

    function Environment(): Env
      reads builder
    {
      Env(config, file, model.cache, builder.prepareActive)
    }

    /**
     * __construct(): a fresh builder and model; connect at once when the
     * configuration names a dsn, a user and a password.
     */
    constructor(config: Config, cache: CacheConfig, escape: string -> string, file: string, connectError: Option<string>)
      ensures fresh(builder) && fresh(model)
      ensures builder.State() == Statement.Initial && model.cache == cache
      ensures this.config == config && this.file == file
      ensures var s0 := Session(Unset, EzsqlModel.Initial, [], Disk(0, false, false, map[], map[]));
        var s := Snapshot(Disk(0, false, false, map[], map[]));
        if !Empty(config.dsn) && !Empty(config.user) && !Empty(config.password) then
          s == Connected(Environment(), s0, config.dsn, config.user, config.password, config.isFile, connectError)
        else s == s0
    {
      builder := new EzQuery.QueryBuilder(escape);
      model := new Model(cache);
      this.config := config;
      this.file := file;
      hasDbh, lastQuery, numQueries, colInfo, lastResult, numRows, insertId := false, None, 0, [], [], None, None;
      new;
      if !Empty(config.dsn) && !Empty(config.user) && !Empty(config.password) {
        var ok := Connect(config.dsn, config.user, config.password, config.isFile, connectError);
      }
    }

    /** connect(): check the credentials, then try to connect; true when connected. */
    method Connect(dsn: string, user: string, password: string, isFileBased: bool, connectError: Option<string>)
      returns (connected: bool)
      modifies this`hasDbh, model`connected, model`lastError, model`capturedErrors
      ensures Snapshot(NoDisk()) == Connected(Environment(), old(Snapshot(NoDisk())), dsn, user, password, isFileBased, connectError)
      ensures connected <==> connectError.None?
    {
      model.connected := false;
      var complaint := Complaint(Environment(), dsn, user, password);
      if complaint.Some? {
        var r := model.RegisterError(complaint.value);
      }
      if connectError.None? {
        hasDbh := true;
        model.connected := true;
      } else {
        var r := model.RegisterError(connectError.value);
      }
      connected := model.connected;
    }

    /** A placeholder disk for contracts that do not involve the cache. */
    static function NoDisk(): Disk {
      Disk(0, false, false, map[], map[])
    }

    /** disconnect(): drop the handle and mark the session disconnected. */
    method Disconnect()
      modifies this`hasDbh, model`connected
      ensures !hasDbh
      ensures old(hasDbh) ==> !model.connected
      ensures !old(hasDbh) ==> model.connected == old(model.connected)
    {
      if hasDbh {
        hasDbh := false;
        model.connected := false;
      }
    }

    /**
     * flush() with its last call doing what its name says: clear the stored
     * prepared parameters.
     */
    method Flush()
      modifies model`lastResult, model`colInfo, model`lastQuery, model`allFuncCalls, model`fromDiskCache, builder`preparedValues
      ensures model.State() == Flushed(old(model.State()))
      ensures builder.State() == old(builder.State()).(preparedValues := [])
    {
      model.ResetResults();
      builder.ClearParameters();
    }

    /** catch_error(): join the error entries and register them, unless the code is unset or 25. */
    method CatchError(e: ErrorInfo) returns (reported: bool)
      modifies model`lastError, model`capturedErrors
      ensures reported == Reports(e)
      ensures model.State() == Caught(Session(State(), old(model.State()), [], NoDisk()), e).model
    {
      reported := false;
      if e.code.Some? && e.code.value != 25 {
        var es := Entries(e);
        var errorStr := "";
        var i := 0;
        while i < |es|
          invariant 0 <= i <= |es|
          invariant errorStr == Statement.Listed(es[..i])
        {
          assert es[..i + 1][..i] == es[..i];
          errorStr := errorStr + es[i] + ", ";
          i := i + 1;
        }
        assert es[..|es|] == es;
        Statement.ListedJoin(es);
        errorStr := DropLastTwo(errorStr);
        var r := model.RegisterError(errorStr);
        reported := true;
      }
    }

    /** The preamble of query(): flush, log the call, note the query, count it. */
    method Start(q: string)
      modifies this`lastQuery, this`numQueries, model`lastResult, model`colInfo, model`lastQuery,
        model`allFuncCalls, model`fromDiskCache, model`funcCall, builder`preparedValues
      ensures Snapshot(NoDisk()) == Begin(old(Snapshot(NoDisk())), q)
    {
      Flush();
      model.LogQuery(QueryCall(q));
      lastQuery := Some(q);
      numQueries := numQueries + 1;
    }

    /** query_prepared(): prepare, execute with the parameters, read every row; the count or the handle. */
    method QueryPrepared(q: string, param: seq<Clause.Param>, p: Option<Prepared>) returns (result: Scalar, stmt: Option<Cursor>)
      ensures result == PreparedCount(p)
      ensures stmt == PreparedHandle(p)
    {
      result := Bool(false);
      stmt := None;
      if p.Some? {
        var rest: seq<Row> := [];
        if p.value.executes {
          result := Int(p.value.rowCount);
          rest := p.value.cursor.rows;
          while |rest| > 0
            decreases |rest|
          {
            rest := rest[1..];
          }
        }
        stmt := Some(Cursor(p.value.cursor.columns, rest));
      }
    }

    /** The loop that fills `col_info[0 .. n-1]`. */
    method FillColumns(metas: seq<Option<Meta>>)
      modifies this`colInfo
      ensures colInfo == Overlay(old(colInfo), ColumnsFrom(metas))
    {
      ghost var base := colInfo;
      var i := 0;
      while i < |metas|
        invariant 0 <= i <= |metas|
        invariant |colInfo| == if i >= |base| then i else |base|
        invariant forall k :: 0 <= k < i ==> colInfo[k] == ColumnFrom(metas[k])
        invariant forall k :: i <= k < |colInfo| ==> colInfo[k] == base[k]
      {
        var c := ColumnFrom(metas[i]);
        if i < |colInfo| {
          colInfo := colInfo[i := c];
        } else {
          colInfo := colInfo + [c];
        }
        i := i + 1;
      }
      ghost var want := Overlay(base, ColumnsFrom(metas));
      assert |want| == |colInfo|;
      forall k | 0 <= k < |colInfo| ensures colInfo[k] == want[k] {
        if k < |metas| {
          assert want[k] == want[..|metas|][k];
        } else {
          assert want[k] == want[|metas|..][k - |metas|];
        }
      }
    }

    /** The fetch loop: store each row at the next index and count them. */
    method FetchRows(rows: seq<Row>) returns (n: nat)
      modifies this`lastResult
      ensures lastResult == Overlay(old(lastResult), rows)
      ensures n == |rows|
    {
      n := 0;
      while n < |rows|
        invariant 0 <= n <= |rows|
        invariant lastResult == Overlay(old(lastResult), rows[..n])
      {
        assert rows[..n + 1] == rows[..n] + [rows[n]];
        if n < |lastResult| {
          lastResult := lastResult[n := rows[n]];
        } else {
          lastResult := lastResult + [rows[n]];
        }
        n := n + 1;
      }
      assert rows[..|rows|] == rows;
    }

    /** The mutating branch of query(). */
    method Mutate(q: string, param: Option<seq<Clause.Param>>, d: Driver, disk: Disk) returns (r: Reply, sent: Sent, disk': Disk)
      modifies this`insertId, model`affectedRows, model`lastError, model`capturedErrors, builder`preparedValues
      ensures QueryOut(r, Snapshot(disk'), sent) == Mutated(Environment(), old(Snapshot(disk)), q, param, d)
    {
      var affected: Scalar;
      disk' := disk;
      if param.Some? && |param.value| > 0 && builder.GetPrepare() {
        var stmt;
        affected, stmt := QueryPrepared(q, param.value, d.prepared);
        sent := PreparedWith(q, param.value);
        var count := builder.SetParameters(Clause.NullParam);
      } else {
        affected := d.exec;
        sent := Direct(q);
      }
      model.affectedRows := affected;
      var failed := CatchError(d.errorInfo);
      if failed {
        return Returned(Bool(false)), sent, disk;
      }
      if IsInsertLike(q) {
        insertId := Some(d.insertId);
      }
      var stored;
      stored, disk' := model.StoreCache(q, true, disk);
      r := Returned(affected);
    }

    /** The row-producing branch of query(). */
    method Select(q: string, param: Option<seq<Clause.Param>>, d: Driver, disk: Disk) returns (r: Reply, sent: Sent, disk': Disk)
      modifies this`colInfo, this`lastResult, this`numRows, model`lastError, model`capturedErrors, builder`preparedValues
      ensures QueryOut(r, Snapshot(disk'), sent) == Selected(Environment(), old(Snapshot(disk)), q, param, d)
    {
      var sth: Option<Cursor>;
      disk' := disk;
      if param.Some? && |param.value| > 0 && builder.GetPrepare() {
        var result;
        result, sth := QueryPrepared(q, param.value, d.prepared);
        sent := PreparedWith(q, param.value);
        var count := builder.SetParameters(Clause.NullParam);
      } else {
        sth := d.select;
        sent := Direct(q);
      }
      var failed := CatchError(d.errorInfo);
      if failed {
        return Returned(Bool(false)), sent, disk;
      }
      if sth.None? {
        return Raised, sent, disk;
      }
      FillColumns(sth.value.columns);
      var n := FetchRows(sth.value.rows);
      numRows := Some(n);
      var stored;
      stored, disk' := model.StoreCache(q, false, disk);
      r := Returned(Int(n));
    }

    /** query() after a cache miss: connect when there is no handle, then run the statement. */
    method Run(q: string, param: Option<seq<Clause.Param>>, d: Driver, disk: Disk) returns (r: Reply, sent: Sent, disk': Disk)
      modifies this, model`connected, model`lastError, model`capturedErrors, model`affectedRows, builder`preparedValues
      ensures QueryOut(r, Snapshot(disk'), sent) == Execute(Environment(), old(Snapshot(disk)), q, param, d)
    {
      if !hasDbh {
        var ok := Connect(config.dsn, config.user, config.password, config.isFile, d.connectError);
      }
      if !hasDbh {
        return Raised, NotSent, disk;
      }
      if IsMutating(q) {
        r, sent, disk' := Mutate(q, param, d, disk);
      } else {
        r, sent, disk' := Select(q, param, d, disk);
      }
    }

    /** query() up to the cache check. */
    method Open(q: string, disk: Disk) returns (cached: Option<int>, disk': Disk)
      modifies this`lastQuery, this`numQueries, model, builder`preparedValues
      ensures Prelude(cached, Snapshot(disk')) == Preamble(Environment(), old(Snapshot(disk)), q)
    {
      Start(q);
      cached, disk' := model.GetCache(q, disk);
    }

    /** query(): run a statement through the driver and keep its result. */
    method Query(query: string, usePrepare: bool, d: Driver, disk: Disk) returns (r: Reply, sent: Sent, disk': Disk)
      modifies this, model, builder`preparedValues
      ensures QueryOut(r, Snapshot(disk'), sent) == QueryRun(Environment(), old(Snapshot(disk)), query, usePrepare, d)
    {
      var param := if usePrepare then Some(builder.GetParameters()) else None;
      var q := Rewrite(query);
      var cached;
      cached, disk' := Open(q, disk);
      if cached.Some? && cached.value != 0 {
        return Returned(Int(cached.value)), NotSent, disk';
      }
      r, sent, disk' := Run(q, param, d, disk');
    }

    /** The step after the query in _query_insert_replace(): run it, then the insert id, or a null parameter and false. */
    method PerformForId(text: string, prepared: bool, d: Driver, disk: Disk) returns (r: IdReply, disk': Disk)
      modifies this, model, builder`preparedValues
      ensures IdOut(r, Snapshot(disk')) == ForId(Environment(), old(Snapshot(disk)), text, prepared, d)
    {
      var reply, sent;
      reply, sent, disk' := Query(text, prepared, d, disk);
      if reply.Raised? {
        return IdRaised, disk';
      }
      if Truthy(reply.value) {
        return InsertId(insertId), disk';
      }
      var count := builder.SetParameters(Clause.NullParam);
      r := NoId;
    }

    /**
     * _query_insert_replace() in execute mode, as insert() and replace() call
     * it: build the statement, then run it for its id; a refused statement
     * answers false with the builder's null parameter pushed.
     */
    method InsertReplace(table: string, keyandvalue: Statement.Arg, kind: string, d: Driver, disk: Disk)
      returns (r: IdReply, disk': Disk)
      modifies this, model, builder
      ensures var b := Statement.InsertReplace(old(builder.State()), builder.escape, table, keyandvalue, kind, true);
        var s := old(Snapshot(disk)).(params := b.after.preparedValues);
        if b.outcome.ExecuteForId? then
          && builder.State() == b.after.(preparedValues := builder.preparedValues)
          && IdOut(r, Snapshot(disk')) == ForId(Environment(), s, b.outcome.text, b.outcome.prepared, d)
        else r == NoId && builder.State() == b.after && Snapshot(disk') == s
    {
      var o := builder.QueryInsertReplace(table, keyandvalue, kind, true);
      disk' := disk;
      if o.ExecuteForId? {
        r, disk' := PerformForId(o.text, o.prepared, d, disk);
      } else {
        r := NoId;
      }
    }

    /** insert(): the id of the inserted record, or false. */
    method Insert(table: string, keyandvalue: Statement.Arg, d: Driver, disk: Disk) returns (r: IdReply, disk': Disk)
      modifies this, model, builder
      ensures var b := Statement.InsertReplace(old(builder.State()), builder.escape, table, keyandvalue, "INSERT", true);
        var s := old(Snapshot(disk)).(params := b.after.preparedValues);
        if b.outcome.ExecuteForId? then
          && builder.State() == b.after.(preparedValues := builder.preparedValues)
          && IdOut(r, Snapshot(disk')) == ForId(Environment(), s, b.outcome.text, b.outcome.prepared, d)
        else r == NoId && builder.State() == b.after && Snapshot(disk') == s
    {
      r, disk' := InsertReplace(table, keyandvalue, "INSERT", d, disk);
    }

    /** replace(): the id of the replaced record, or false. */
    method Replace(table: string, keyandvalue: Statement.Arg, d: Driver, disk: Disk) returns (r: IdReply, disk': Disk)
      modifies this, model, builder
      ensures var b := Statement.InsertReplace(old(builder.State()), builder.escape, table, keyandvalue, "REPLACE", true);
        var s := old(Snapshot(disk)).(params := b.after.preparedValues);
        if b.outcome.ExecuteForId? then
          && builder.State() == b.after.(preparedValues := builder.preparedValues)
          && IdOut(r, Snapshot(disk')) == ForId(Environment(), s, b.outcome.text, b.outcome.prepared, d)
        else r == NoId && builder.State() == b.after && Snapshot(disk') == s
    {
      r, disk' := InsertReplace(table, keyandvalue, "REPLACE", d, disk);
    }

    /** get_var(): log, run the query if there is one, then read entry x of row y of ezsqlModel's result. */
    method GetVar(query: Option<string>, x: int, y: int, usePrepare: bool, d: Driver, disk: Disk)
      returns (v: Answer<Option<string>>, disk': Disk)
      modifies this, model, builder`preparedValues
      ensures var o := Asked(Environment(), old(Snapshot(disk)), Some(VarCall(StrOf(query), x, y)), query, usePrepare, d);
        && Snapshot(disk') == o.s
        && v == if o.reply.Raised? then Threw else Value(VarAt(o.s.model.lastResult, x, y))
    {
      model.LogQuery(VarCall(StrOf(query), x, y));
      var r := Returned(Null);
      disk' := disk;
      if !EmptyOpt(query) {
        var sent;
        r, sent, disk' := Query(query.value, usePrepare, d, disk);
      }
      if r.Raised? {
        return Threw, disk';
      }
      v := Value(VarAt(model.lastResult, x, y));
    }

    /** get_row(): log, run the query if there is one, then project row y. */
    method GetRow(query: Option<string>, output: Output, y: int, usePrepare: bool, d: Driver, disk: Disk)
      returns (v: Answer<RowReply>, disk': Disk)
      modifies this, model, builder`preparedValues
      ensures var o := Asked(Environment(), old(Snapshot(disk)), Some(RowCall(StrOf(query), output, y)), query, usePrepare, d);
        && Snapshot(disk') == o.s
        && v == if o.reply.Raised? then Threw else Value(RowAt(o.s.model.lastResult, output, y))
    {
      model.LogQuery(RowCall(StrOf(query), output, y));
      var r := Returned(Null);
      disk' := disk;
      if !EmptyOpt(query) {
        var sent;
        r, sent, disk' := Query(query.value, usePrepare, d, disk);
      }
      if r.Raised? {
        return Threw, disk';
      }
      v := Value(RowAt(model.lastResult, output, y));
    }

    /** get_col(): run the query if there is one, then get_var(x, i) for every row. */
    method GetCol(query: Option<string>, x: int, usePrepare: bool, d: Driver, disk: Disk)
      returns (v: Answer<seq<Option<string>>>, disk': Disk)
      modifies this, model, builder`preparedValues
      ensures var o := Asked(Environment(), old(Snapshot(disk)), None, query, usePrepare, d);
        var n := |RowsOrEmpty(o.s.model.lastResult)|;
        && (o.reply.Raised? ==> v == Threw && Snapshot(disk') == o.s)
        && (!o.reply.Raised? ==>
              && v == Value(ColumnOf(o.s.model.lastResult, x))
              && |v.value| == n
              && Snapshot(disk') == o.s.(model := o.s.model.(
                   allFuncCalls := o.s.model.allFuncCalls + VarCalls(x, n),
                   funcCall := if n == 0 then o.s.model.funcCall else Some(VarCall("", x, n - 1)))))
    {
      var r := Returned(Null);
      disk' := disk;
      if !EmptyOpt(query) {
        var sent;
        r, sent, disk' := Query(query.value, usePrepare, d, disk);
      }
      if r.Raised? {
        return Threw, disk';
      }
      var col := model.Column(x);
      v := Value(col);
    }

    /** get_results(): log, run the query if there is one, then project every row. */
    method GetResults(query: Option<string>, output: Output, usePrepare: bool, d: Driver, disk: Disk)
      returns (v: Answer<Results>, disk': Disk)
      modifies this, model, builder`preparedValues
      ensures var o := Asked(Environment(), old(Snapshot(disk)), Some(ResultsCall(StrOf(query), output, usePrepare)), query, usePrepare, d);
        && Snapshot(disk') == o.s
        && v == if o.reply.Raised? then Threw else Value(ResultsOf(o.s.model.lastResult, output))
    {
      model.LogQuery(ResultsCall(StrOf(query), output, usePrepare));
      var r := Returned(Null);
      disk' := disk;
      if !EmptyOpt(query) {
        var sent;
        r, sent, disk' := Query(query.value, usePrepare, d, disk);
      }
      if r.Raised? {
        return Threw, disk';
      }
      var rows := model.ResultRows(output);
      v := Value(rows);
    }
  }
}
