# ezsql core, modelled in Dafny

ezsql is a PHP database layer. The part modelled here has three pieces,
and they share one session object:

- **The query builder** (`lib/ezQuery.php`). `where()` and `having()`
  compile condition input into ` WHERE … ` / ` HAVING … ` text. The input
  comes either as double-space-separated strings or as positional rows
  `(key, operator, value, combiner, extra)`. In prepared mode every value
  becomes a `_TAG` placeholder and is appended to `preparedValues`. In
  inline mode the value is escaped and quoted instead. The statement
  assemblers build on the clause compiler: `selecting`, `select_sql`,
  `create_select`, `select_into`, `update`, `delete`,
  `_query_insert_replace`, `insert`, `replace` and `insert_select`. So do
  the formatters `to_string`, `groupBy` and `orderBy`.
- **The session bookkeeping** (`lib/ezsqlModel.php`). This covers:
  - the error log, `flush`, the function-call log and the query counters;
  - `host:port` splitting;
  - the disk-cache freshness decision and the store gate;
  - the projections of the last result set (`get_var`, `get_row`,
    `get_col`, `get_results`, `get_col_info`).
- **The PDO driver** (`lib/Database/ez_pdo.php`). `query()` rewrites
  placeholders, counts the query and consults the cache. It then
  classifies the statement as mutating or row-producing and chooses
  between a prepared and a direct run. Errors go through `catch_error()`,
  which ignores code 25. Column information and rows are materialised
  last. The credential guards of `connect()` and `disconnect()` are also
  part of the model.

Modules:

| file | module | contents |
|---|---|---|
| `php.dfy` | `Php` | The PHP string built-ins the code relies on (`strpos`, `explode`, `implode`, `str_replace`, `rtrim`/`ltrim`/`trim` with a character set, integer to string and back), with their properties. |
| `clause.dfy` | `Clause` | `where()` as functions. Text is a list of tokens, each a literal or the placeholder tag. Rendering the tokens gives the text. Counting tags gives the number of placeholders. Filling tags with escaped parameters gives the inline text. |
| `statement.dfy` | `Statement` | The builder's fields as a value, and every assembler and formatter as a function of the state on entry. A statement ends in an `Outcome` that names the session call it makes (`query`, `get_results`) instead of making it. For `insert` and `replace`, `EzPdo.PdoSession.InsertReplace` builds the statement, runs it and answers the insert id or false. |
| `builder.dfy` | `EzQuery` | `class QueryBuilder`, whose methods update its fields and `preparedValues` in place. Each method is proved equal to the function of the same name in `Clause`/`Statement`. |
| `model.dfy` | `EzsqlModel` | ezsqlModel's camelCase fields as a value and as `class Model`. Also the cache decisions over a `Disk` value and the projections. |
| `pdo.dfy` | `EzPdo` | The whole of `query()` as a function over an abstract `Driver`, split into a preamble stage and an execute stage. Also `class PdoSession` (ez_pdo's own fields plus a builder and a model), whose methods are proved equal to those functions. |

Choices worth knowing:

- **Undefined constants.** `_TAG` and `_AND` are not defined in the
  modelled files. They are fixed as `"__ez__"` and `"AND"`.
- **Escaping.** `escape` is a function parameter with no body.
- **Two sets of fields.** ez_pdo writes snake_case fields that ezsqlModel
  never declares: `last_query`, `num_queries`, `col_info`, `last_result`,
  `num_rows`, `insert_id`. These are ez_pdo's own state (`EzPdo.PdoState`)
  and stay apart from ezsqlModel's camelCase fields, exactly as the code
  has it. The consequences are modelled as written:
  - `get_var`/`get_row`/`get_results` read the flushed camelCase
    `lastResult`, so after a fresh query they see no rows unless a cache
    hit restored them;
  - errors that `query()` logs carry a null query, because
    `register_error` reads the flushed camelCase `lastQuery`;
  - `store_cache` writes the camelCase state.
- **The cache.** It is decided over a `Disk` value. That value holds:
  - the current time;
  - whether the cache directory exists or can be made;
  - per query, the entry and its modification time;
  - per query, the `.updating` marker time.

  The cache settings are fixed when a session is made, because
  ezsqlModel changes them only through the `__call` setters.
- **PHP 8 semantics.** An array used where a string is expected raises a
  TypeError. Where the code lets that escape, the model returns `Thrown`
  or `Raised`.
- **PDO error mode.** The `Driver` stands for a PDO handle in
  `ERRMODE_SILENT` or `ERRMODE_WARNING`: a failing statement comes back
  as a reply and is read through `errorInfo()`. PHP 8's default,
  `ERRMODE_EXCEPTION`, throws instead (see Left out).
- **Unbounded counters.** PHP integers are 64-bit. The counters are
  unbounded here (see Left out).

## Model

| member | source | states |
|---|---|---|
| Php.Find | lib/ezQuery.php:197 | `strpos`: None exactly when the needle does not occur; otherwise the first occurrence. |
| Php.ExplodeJoin | lib/ezQuery.php:199-200 | `explode` then `implode` with the same separator gives back the original text. |
| Php.ExplodePiecesFree | lib/ezQuery.php:199-200 | No piece produced by `explode` contains the separator. |
| Php.StrReplaceRemovesAll | lib/Database/ez_pdo.php:234 | Replacing a pattern by a character that does not occur in the pattern leaves no occurrence of the pattern. |
| Php.RTrim | lib/ezQuery.php:277 | `rtrim` with a character set returns a prefix whose last character is outside the set, and drops only characters in the set. |
| Php.LTrim | lib/Database/ez_pdo.php:237 | `ltrim` returns a suffix whose first character is outside the set, and drops only characters in the set. |
| Php.RTrimAppend | lib/ezQuery.php:262 | Trimming a set-only tail after text that ends outside the set gives back exactly that text. |
| Php.Explode | lib/ezsqlModel.php:272 | `explode`: the definition. Its properties are `ExplodeJoin` and `ExplodePiecesFree`. |
| Php.StrReplace | lib/Database/ez_pdo.php:234 | `str_replace`: the definition. Its property is `StrReplaceRemovesAll`. |
| Php.Trim | lib/Database/ez_pdo.php:237 | `trim` with PHP's default set (space, tab, LF, CR, NUL, vertical tab): `LTrim` then `RTrim`, whose contracts state what each removes. |
| Php.Upper | lib/ezQuery.php:230 | `strtoupper`: ASCII letters mapped to upper case, one character for one. |
| Php.Lower | lib/ezQuery.php:263 | `strtolower`: ASCII letters mapped to lower case, one character for one. |
| Php.Saturate | lib/ezsqlModel.php:273 | A value outside the 64-bit range is capped to `PHP_INT_MIN`/`PHP_INT_MAX`; a value inside is kept. |
| Php.IntVal | lib/ezsqlModel.php:273 | The `(int)` cast always yields a 64-bit integer. It skips leading white space, reads a sign, digits, a fraction and an exponent, and truncates toward zero. |
| Php.IntValOfIntToString | lib/ezsqlModel.php:273 | The `(int)` cast of an integer's decimal text is that integer when it is in the 64-bit range, and the nearer bound otherwise. |
| Php.IntValSkipsSpace | lib/ezsqlModel.php:273 | White space (space, tab, LF, CR, vertical tab, form feed) before the number does not change the cast. |
| Php.IntValOfExponent | lib/ezsqlModel.php:273 | `"<m>e<e>"` casts to m·10^e, capped to the 64-bit range. |
| Php.CharRange | lib/ezQuery.php:277 | The characters from lo to hi, both included. |
| Php.CharMask | lib/ezQuery.php:277 | The character list of `rtrim` as PHP reads it: `a..b` (a ≤ b) stands for every character from a to b, a '.' that starts a `..` that is not such a range is skipped, and any other character stands for itself. |
| Php.CharMaskPlain | lib/ezQuery.php:277 | A character list without a '.' stands for exactly its own characters. |
| Php.CharMaskRange | lib/ezQuery.php:277 | `" lo..hi "` stands for the range lo to hi plus the space. |
| Php.NumericString | lib/ezQuery.php:280-283 | A whole PHP 8 numeric string read exactly: white space at both ends, a sign, digits with an optional fraction, an optional exponent; none otherwise. |
| Php.LooseOne | lib/ezQuery.php:280-283 | PHP 8's `$t == '1'`: the text is "1", or a numeric string whose value is exactly 1. |
| Php.LooseOneZeros | lib/ezQuery.php:280-283 | "001", "+01" and the like are loosely `'1'`. |
| Php.NegativeNotOne | lib/ezQuery.php:280-283 | No text starting with a minus sign is loosely `'1'`. |
| Php.PlainNumber | lib/ezQuery.php:280-283 | An unsigned text with no white space at its ends reads as its unsigned number. |
| Php.PlusNumber | lib/ezQuery.php:280-283 | A '+' before such a text reads as the same number. |
| Clause.Put | lib/ezQuery.php:206-217 | `$WhereKey[$k] = …` on an insertion-ordered map: the key set grows by `k`; an existing key keeps its position and length is unchanged; a new key is appended; other entries are untouched; keys stay unique. |
| Clause.CollectRow | lib/ezQuery.php:206-221 | One row is refused exactly when its operator slot is empty; otherwise one more operator is recorded. |
| Clause.Collect | lib/ezQuery.php:206-222 | A successful collection is well formed and records one operator per row. |
| Clause.CollectRefuses | lib/ezQuery.php:206-221 | The first loop refuses exactly when some row has an empty operator. |
| Clause.CollectRefusalPersists | lib/ezQuery.php:218-220 | Once a prefix of the rows is refused, the whole input is refused. |
| Clause.CombineWith | lib/ezQuery.php:230-235 | Without `extra`: a valid combiner is uppercased, anything else becomes `AND`. With `extra`: the combiner is kept as given. |
| Clause.NextCombiner | lib/ezQuery.php:242-245 | The combiner BETWEEN passes on is always one of `AND`, `OR`, `NOT`, `AND NOT`. |
| Clause.CompilePiece | lib/ezQuery.php:236-273 | Compiling one entry. An unknown operator refuses and pushes exactly one null. A refusal without a push is LIKE/NOT LIKE on a value without wildcards. A thrown TypeError pushes nothing and comes from a list value. Inline mode pushes nothing and emits no tag. |
| Clause.BetweenPiece | lib/ezQuery.php:240-252 | BETWEEN stops only with a TypeError on a list value in inline mode; inline mode emits no tag and pushes nothing. |
| Clause.InPiece | lib/ezQuery.php:253-262 | IN always emits; inline mode pushes nothing and emits no tag. |
| Clause.ComparePiece | lib/ezQuery.php:263-273 | The only stop is a refusal with no push, for LIKE/NOT LIKE on a value without `_`, `%` or `?`. |
| Clause.ValuePiece | lib/ezQuery.php:267-272 | A single-value comparison always emits; inline mode pushes nothing and emits no tag. |
| Clause.PlaceholderCounts | lib/ezQuery.php:240-273 | In prepared mode each operator pushes its own parameters. BETWEEN pushes `[value, combiner]`. IN pushes one per listed item, in order. IS/IS NOT push nothing. A plain comparison pushes `[value]`. |
| Clause.PieceTags | lib/ezQuery.php:246-273 | In prepared mode the tags one entry emits equal the parameters it pushes, in number. |
| Clause.PieceFill | lib/ezQuery.php:246-273 | Filling an entry's prepared tags with its pushed parameters, escaped and quoted, gives exactly the inline text. The combiner passed on is the same in both modes. |
| Clause.InJoinedTags | lib/ezQuery.php:255-258 | The IN list emits one tag per item. |
| Clause.InJoinedFill | lib/ezQuery.php:255-262 | Filling the IN list's tags with its item parameters gives the inline list. |
| Clause.InItemsJoined | lib/ezQuery.php:255-262 | The loop's text, `item, ` per element, is the items joined by `, ` followed by a trailing `, `. |
| Clause.InJoinedLast | lib/ezQuery.php:262 | A non-empty joined IN list ends outside `{',', ' '}`, so `rtrim($value, ', ')` removes exactly the trailing separator. |
| Clause.InText | lib/ezQuery.php:262 | The text of an IN entry is `key IN ( items ) combiner `. |
| Clause.BetweenFill | lib/ezQuery.php:246-251 | Filling the prepared BETWEEN shape gives the inline BETWEEN text. |
| Clause.DefaultFill | lib/ezQuery.php:268-272 | Filling the prepared comparison shape gives the inline comparison text. |
| Clause.InFill | lib/ezQuery.php:253-262 | Filling the whole prepared IN entry gives the inline IN entry. |
| Clause.CompileCollected | lib/ezQuery.php:224-283 | The second loop, the trim with the last combiner read as a character list (ranges expanded, `Php.CharMask`) and the wrapping, as one function. Its properties are `CompileTags`, `CompileFill`, `StopPersists`, `RangeCombinerTrim` and `Finish`. |
| Clause.RunPieces | lib/ezQuery.php:229-276 | Running the compiled pieces in order is the second loop of `where()` up to any entry. |
| Clause.StopPersists | lib/ezQuery.php:236-238 | Once the loop has returned, later entries change nothing: the result and the pushes stay those of the stop. |
| Clause.StopCause | lib/ezQuery.php:229-276 | A stopped loop stopped at one particular entry. |
| Clause.CompileTags | lib/ezQuery.php:229-276 | Over all entries in prepared mode, the tags emitted equal the parameters pushed, in number. |
| Clause.CompileFill | lib/ezQuery.php:229-276 | Over all entries: when inline mode succeeds, prepared mode succeeds too. Its tags filled with its pushed parameters give the inline text, and the last combiner is the same. |
| Clause.Finish | lib/ezQuery.php:280-283 | The result is one space exactly when the text is loosely equal to `'1'` under PHP 8's `!=` (`Php.LooseOne`); otherwise it is ` WHERE `/` HAVING `, the text and a trailing space. |
| Clause.FinishLeadingZeros | lib/ezQuery.php:280-283 | A text such as "01" or "001" also ends as one space. |
| Clause.RangeCombinerTrim | lib/ezQuery.php:277 | A combiner written as a range `lo..hi` trims every trailing character from lo to hi, and the space. |
| Clause.FragmentRows | lib/ezQuery.php:199-200 | Each string argument becomes exactly one condition row. |
| Clause.WhereClause | lib/ezQuery.php:195-204 | No arguments give `''` and push nothing. A first string containing `WHERE` or `HAVING` is returned unchanged and pushes nothing. |
| Statement.Push | lib/ezQuery.php:89-92 | `setParameters` appends exactly one value and changes no other field. |
| Statement.WhereStep | lib/ezQuery.php:190-193 | After `where()`, `iswhere` is true on every path, and the parameter list only grows. |
| Statement.WherePrefix | lib/ezQuery.php:192 | A compiled clause is wrapped as ` WHERE … ` when `iswhere` held on entry and ` HAVING … ` otherwise. |
| Statement.HavingStep | lib/ezQuery.php:152-156 | `having()`: `where()` run with `iswhere` false. Its property is `HavingThenWhere`. |
| Statement.HavingThenWhere | lib/ezQuery.php:152-156 | `having()` yields a ` HAVING … ` clause and leaves `iswhere` true, so the next `where()` yields ` WHERE … `. |
| Statement.ListedJoin | lib/ezQuery.php:102-113 | The `to_string` loop text is the items joined by `, ` plus one trailing `, `. |
| Statement.ColumnsJoin | lib/ezQuery.php:102-113 | When the last item ends outside `{',', ' '}`, `to_string` of an array is the items joined by `, `. |
| Statement.GroupBy | lib/ezQuery.php:129-138 | `false` exactly on empty input; otherwise `GROUP BY ` and the `to_string` of the columns. |
| Statement.Direction | lib/ezQuery.php:163-174 | The direction is always `ASC` or `DESC`; a given `asc`/`desc` is uppercased, and any other direction becomes `ASC`. |
| Statement.OrderBy | lib/ezQuery.php:163-174 | `false` exactly on empty input; otherwise `ORDER BY `, the columns and the direction. |
| Statement.EncodeValue | lib/ezQuery.php:465-476 | `null` (any case) gives `NULL` and binds nothing. `current_timestamp()`, `date()`, `now()` give `CURRENT_TIMESTAMP()` and bind nothing. Any other value is a bound tag in prepared mode, else the escaped, quoted value. |
| Statement.EncodeTags | lib/ezQuery.php:465-476 | The tags of one encoded value equal the parameters it binds; inline mode binds nothing. |
| Statement.EncodeRender | lib/ezQuery.php:465-476 | The text of one encoded value in each of its four cases. |
| Statement.SetList | lib/ezQuery.php:465-477 | The SET loop of `update` as a function. Its property is `SetListBinds`. |
| Statement.ValueList | lib/ezQuery.php:532-545 | The VALUES loop of `_query_insert_replace` as a function. Its property is `ValueListBinds`. |
| Statement.SetListBinds | lib/ezQuery.php:465-477 | The SET list binds, in order, exactly the values that are neither null nor a timestamp function, and only in prepared mode. Its tags equal its bindings in number. |
| Statement.ValueListBinds | lib/ezQuery.php:532-545 | The VALUES list binds exactly the same way, with the tags equal to the bindings. |
| Statement.ScanUpTo | lib/ezQuery.php:333-366 | The fragment loop of `selecting` after n fragments. Its properties are `HavingFirstPersists`, `ScanGrouped` and `HavingNeedsGroupBy`. |
| Statement.SelectClauses | lib/ezQuery.php:333-369 | The clause part of `selecting`: the fragment scan when a fragment names a clause, otherwise `where()`. Its properties come from `ScanUpTo` and `WhereStep`. |
| Statement.HavingFirstPersists | lib/ezQuery.php:346-353 | Once a `HAVING` fragment has been seen before any `GROUP BY`, the scan stays refused. |
| Statement.ScanGrouped | lib/ezQuery.php:333-366 | A running scan has seen `GROUP BY` exactly when some fragment so far is a `GROUP BY` fragment. |
| Statement.HavingNeedsGroupBy | lib/ezQuery.php:346-353 | The scan is refused exactly when some `HAVING` fragment comes before every `GROUP BY` fragment. |
| Statement.Selecting | lib/ezQuery.php:305-381 | The fields are reset afterwards. An empty table fails and pushes one null. A fetch happens only when `select_result` was set, using the prepare decision on exit. Otherwise the SQL text is returned. |
| Statement.SelectingText | lib/ezQuery.php:323-380 | With a table given: a `HAVING` fragment before any `GROUP BY` fails and pushes one null. When the clause part compiles, the statement is the head (`CREATE TABLE … AS SELECT`, `SELECT … INTO`, or `SELECT … FROM`) followed by the clause text. It is fetched, with the prepare decision on exit, exactly when `select_result` was set, and returned as text otherwise. |
| Statement.SelectSql | lib/ezQuery.php:387-391 | `select_sql` never fetches: it returns SQL text, `false`, or an escaped exception. |
| Statement.CreateSelect | lib/ezQuery.php:402-418 | A missing old table fails and pushes one null. An execution needs an old table and a non-empty new one. |
| Statement.SelectInto | lib/ezQuery.php:429-446 | A missing old table fails with `isinto` set and pushes one null. Any execution is unprepared. |
| Statement.Update | lib/ezQuery.php:456-487 | A non-array value list or an empty table fails and pushes one null. |
| Statement.Delete | lib/ezQuery.php:493-510 | An empty table fails and pushes one null. |
| Statement.InsertReplace | lib/ezQuery.php:516-573 | Each of these fails and pushes one null: an empty table, a type other than INSERT/REPLACE, or a non-array value set when executing. An insert-id execution needs `execute` and an array. Without `execute`, a non-list column array fails with no push. The step after the query (the insert id, or false with a null pushed) is `EzPdo.ForId`. |
| Statement.InsertSelect | lib/ezQuery.php:606-616 | An execution needs a non-empty target and a non-empty source table. |
| Statement.InsertSelectOutcomes | lib/ezQuery.php:561-569 | An empty target table or a column array that is not a list makes `insert_select` fail, or raise from the SELECT part. A failure leaves a null parameter last. An execution runs `INSERT INTO <totable>…` with the prepare decision on exit. |
| EzQuery.CollectConditions | lib/ezQuery.php:206-222 | The first loop of `where()` computes exactly `Clause.Collect`. |
| EzQuery.ListValues | lib/ezQuery.php:105-108 | The `to_string` loop builds exactly the listed values. |
| EzQuery.ScanFragments | lib/ezQuery.php:333-366 | The fragment loop of `selecting` computes exactly the scan function. |
| EzQuery.QueryBuilder.constructor | lib/ezQuery.php:31-40 | A new builder has the declared defaults and an empty parameter list. |
| EzQuery.QueryBuilder.GetPrepare | lib/ezQuery.php:61-64 | Returns the prepare flag. |
| EzQuery.QueryBuilder.SetPrepare | lib/ezQuery.php:69-72 | Sets the prepare flag and nothing else. |
| EzQuery.QueryBuilder.GetParameters | lib/ezQuery.php:78-81 | Returns the stored parameters. |
| EzQuery.QueryBuilder.SetParameters | lib/ezQuery.php:89-92 | Appends exactly one value and returns the new count. |
| EzQuery.QueryBuilder.ClearParameters | lib/ezQuery.php:97-100 | Empties the parameter list and changes nothing else. |
| EzQuery.QueryBuilder.ToString | lib/ezQuery.php:102-113 | Returns `to_string` of the argument: a string unchanged, an array listed and trimmed. |
| EzQuery.QueryBuilder.EncodeEntry | lib/ezQuery.php:466-476 | Writes one value's text and appends exactly what `EncodeValue` binds. |
| EzQuery.QueryBuilder.AssignList | lib/ezQuery.php:465-477 | The SET loop writes the SET list and appends exactly its bindings, in order. |
| EzQuery.QueryBuilder.NamesAndValues | lib/ezQuery.php:532-545 | The insert loop writes the name list and the VALUES list and appends exactly their bindings. |
| EzQuery.QueryBuilder.CompileEntry | lib/ezQuery.php:236-273 | One iteration of the second loop: text, combiner or stop as `CompilePiece` says, and exactly its pushes. |
| EzQuery.QueryBuilder.BetweenEntry | lib/ezQuery.php:240-252 | The BETWEEN branch, as `BetweenPiece`. |
| EzQuery.QueryBuilder.InList | lib/ezQuery.php:254-261 | The IN loop writes the joined item list and pushes one parameter per item in prepared mode, none inline. |
| EzQuery.QueryBuilder.InItem | lib/ezQuery.php:256-260 | One IN item: its text and at most one push. |
| EzQuery.QueryBuilder.CompareEntry | lib/ezQuery.php:263-273 | The IS/LIKE/comparison branches, as `ComparePiece`. |
| EzQuery.QueryBuilder.ValueEntry | lib/ezQuery.php:268-272 | The single-value branch, as `ValuePiece`. |
| EzQuery.QueryBuilder.Where | lib/ezQuery.php:190-284 | `where()` returns and leaves the builder exactly as `WhereStep` says. |
| EzQuery.QueryBuilder.CompileConditions | lib/ezQuery.php:224-283 | The second loop, the trim (`Php.CharMask`) and the loose `!= '1'` test (`Php.LooseOne`): result and pushes as `CompileCollected`. |
| EzQuery.QueryBuilder.CompileLoop | lib/ezQuery.php:229-276 | The second loop returns the stop value, or the text and the last combiner, and appends exactly the pushes of all compiled entries. |
| EzQuery.QueryBuilder.CompileNext | lib/ezQuery.php:230-275 | One more entry extends the text and the pushes of the loop so far, or stops it. |
| EzQuery.QueryBuilder.Having | lib/ezQuery.php:152-156 | `having()` returns and leaves the builder as `HavingStep` says. |
| EzQuery.QueryBuilder.SelectWhere | lib/ezQuery.php:333-369 | The condition part of `selecting` as `SelectClauses`. |
| EzQuery.QueryBuilder.Selecting | lib/ezQuery.php:305-381 | `selecting` returns and leaves the builder as `Statement.Selecting`. |
| EzQuery.QueryBuilder.SelectSql | lib/ezQuery.php:387-391 | As `Statement.SelectSql`. |
| EzQuery.QueryBuilder.CreateSelect | lib/ezQuery.php:402-418 | As `Statement.CreateSelect`. |
| EzQuery.QueryBuilder.SelectInto | lib/ezQuery.php:429-446 | As `Statement.SelectInto`. |
| EzQuery.QueryBuilder.Update | lib/ezQuery.php:456-487 | As `Statement.Update`. |
| EzQuery.QueryBuilder.Delete | lib/ezQuery.php:493-510 | As `Statement.Delete`. |
| EzQuery.QueryBuilder.QueryInsertReplace | lib/ezQuery.php:516-573 | As `Statement.InsertReplace`: the statement up to the query; the session's `EzPdo.PdoSession.InsertReplace` runs it for its id. |
| EzQuery.QueryBuilder.Replace | lib/ezQuery.php:581-584 | `_query_insert_replace` with `REPLACE`, executing, up to the query; the id-or-false answer is `EzPdo.PdoSession.Replace`. |
| EzQuery.QueryBuilder.Insert | lib/ezQuery.php:592-595 | `_query_insert_replace` with `INSERT`, executing, up to the query; the id-or-false answer is `EzPdo.PdoSession.Insert`. |
| EzQuery.QueryBuilder.InsertSelect | lib/ezQuery.php:606-616 | As `Statement.InsertSelect`. |
| EzsqlModel.Registered | lib/ezsqlModel.php:278-293 | `register_error` on the state. Its property is `RegisteredAppendsOne`. |
| EzsqlModel.Flushed | lib/ezsqlModel.php:321-328 | The five fields `flush` resets. Its property is `LoggedAfterFlush`. |
| EzsqlModel.Logged | lib/ezsqlModel.php:332-339 | `log_query` on the state. Its property is `LoggedAfterFlush`. |
| EzsqlModel.RegisteredAppendsOne | lib/ezsqlModel.php:278-293 | `register_error` appends exactly one record: the message and the `lastQuery` of the moment. It sets `lastError` and touches no other field. |
| EzsqlModel.LoggedAfterFlush | lib/ezsqlModel.php:321-339 | After `flush` and `log_query(q)`, the call log is exactly `[q]` and `funcCall` is `q`. |
| EzsqlModel.MagicCall | lib/ezsqlModel.php:251-266 | `__call` dispatches `set…`/`get…` only to declared properties; everything else is undefined and throws. |
| EzsqlModel.ClearPrepareUndefined | lib/ezsqlModel.php:329 | `clearPrepare()` reaches `__call` and is undefined whatever the declared properties are, so `flush` throws. |
| EzsqlModel.GetPreparedUndefined | lib/ezQuery.php:441 | `getprepared()` is undefined unless a property `prepared` exists. |
| EzsqlModel.HostPort | lib/ezsqlModel.php:268-276 | `get_host_port`: split at the first `:` and cast the next part with `IntVal`. Its properties are `HostWithoutPort` and `HostPortRoundTrip`. |
| EzsqlModel.HostWithoutPort | lib/ezsqlModel.php:268-276 | A host without `:` is returned with the default port. |
| EzsqlModel.HostPortRoundTrip | lib/ezsqlModel.php:268-276 | `host:port` splits back into the host and the integer port, for every port in the 64-bit range. |
| EzsqlModel.Lookup | lib/ezsqlModel.php:491-519 | `get_cache` over the `Disk` value. Its properties are `FreshEntryServed`, `MarkedEntryServed`, `StaleEntryRefreshed` and `NoEntryNoChange`. |
| EzsqlModel.Store | lib/ezsqlModel.php:462-489 | `store_cache` over the `Disk` value. Its properties are `StoreThenLookup` and `StoreWithoutDirectory`. |
| EzsqlModel.StoreGate | lib/ezsqlModel.php:468-471 | The condition under which `store_cache` writes. Its property is `StoreGateAlternatives`. |
| EzsqlModel.FreshEntryServed | lib/ezsqlModel.php:491-519 | A cache entry no older than the timeout is served. Column info, result, row count and the disk flag are restored, and the disk is unchanged. |
| EzsqlModel.MarkedEntryServed | lib/ezsqlModel.php:497-516 | An entry with an `.updating` marker younger than 60 s is served even when stale. |
| EzsqlModel.StaleEntryRefreshed | lib/ezsqlModel.php:497-503 | A stale, unmarked entry touches the marker and returns nothing, with the model unchanged. |
| EzsqlModel.NoEntryNoChange | lib/ezsqlModel.php:491-519 | With the disk cache off, or no file, nothing changes and nothing is returned. |
| EzsqlModel.StoreGateAlternatives | lib/ezsqlModel.php:468-471 | The store gate is `(useDiskCache and cacheQueries and not insert) or (cacheInserts and insert)`. Inserts are cached even with the disk cache off. |
| EzsqlModel.StoreThenLookup | lib/ezsqlModel.php:462-519 | After a gated store, looking up the same query returns `num_rows` and restores the stored state. |
| EzsqlModel.StoreWithoutDirectory | lib/ezsqlModel.php:472-474 | A missing cache directory that cannot be made registers one error and returns `false`. |
| EzsqlModel.VarAt | lib/ezsqlModel.php:352-357 | `get_var`'s read of the last result. Its property is `VarIsListEntry`. |
| EzsqlModel.RowAt | lib/ezsqlModel.php:360-383 | `get_row`'s read in the three forms. Its property is `RowShapesAgree`. |
| EzsqlModel.ResultsOf | lib/ezsqlModel.php:415-432 | `get_results`' rows in the requested form. Its property is `ResultShapesAgree`. |
| EzsqlModel.ColInfoOf | lib/ezsqlModel.php:435-451 | `get_col_info` over the column entries. Its property is `ColInfoOffsetAgrees`. |
| EzsqlModel.VarIsListEntry | lib/ezsqlModel.php:352-357 | `get_var(x, y)` is the x-th value of row y, when that exists and is not null; otherwise null. |
| EzsqlModel.RowShapesAgree | lib/ezsqlModel.php:360-383 | Object, associative and numbered forms of row y exist together. The numbered row is the values of the associative one. The JSON form gives no row. |
| EzsqlModel.ResultShapesAgree | lib/ezsqlModel.php:415-432 | `ARRAY_A` and `ARRAY_N` yield one entry per result row, in order. Each `ARRAY_N` row is the values of its `ARRAY_A` row. |
| EzsqlModel.ColInfoOffsetAgrees | lib/ezsqlModel.php:435-451 | Offset −1 gives one attribute per column. Offset k gives the k-th of them. |
| EzsqlModel.VarCalls | lib/ezsqlModel.php:395-399 | `get_col` logs one `get_var` call per row, in row order. |
| EzsqlModel.ColumnOf | lib/ezsqlModel.php:385-403 | `get_col` has one entry per result row, each being `get_var(x, i)`. |
| EzsqlModel.Model.constructor | lib/ezsqlModel.php:44-175 | A new model has the declared defaults. |
| EzsqlModel.Model.RegisterError | lib/ezsqlModel.php:278-293 | The new state is `Registered` (one record appended), and the result is `false`. |
| EzsqlModel.Model.ResetResults | lib/ezsqlModel.php:321-328 | Clears result, columns, last query and call log, and resets the disk flag. |
| EzsqlModel.Model.Flush | lib/ezsqlModel.php:321-330 | `flush` as written: the five fields are reset, then the call to `clearPrepare()` throws. |
| EzsqlModel.Model.LogQuery | lib/ezsqlModel.php:332-339 | Sets `funcCall` and appends exactly that entry to the call log. |
| EzsqlModel.Model.Count | lib/ezsqlModel.php:690-698 | With `increase`, both counters grow by exactly one; otherwise nothing changes. Returns `numQueries` when `all`, else `connQueries`. |
| EzsqlModel.Model.GetCache | lib/ezsqlModel.php:491-519 | Value, new state and new disk as `Lookup`. |
| EzsqlModel.Model.StoreCache | lib/ezsqlModel.php:462-489 | Value, new state and new disk as `Store`. |
| EzsqlModel.Model.CachedVar | lib/ezsqlModel.php:341-358 | `get_var` without a query logs the call and returns `VarAt` of the last result. |
| EzsqlModel.Model.Column | lib/ezsqlModel.php:385-403 | The `get_col` loop returns `ColumnOf` and appends exactly one logged call per row. |
| EzsqlModel.Model.ResultRows | lib/ezsqlModel.php:415-432 | The `get_results` loops return `ResultsOf` the last result. |
| EzsqlModel.Model.GetColInfo | lib/ezsqlModel.php:435-451 | The `get_col_info` loop returns `ColInfoOf` the column info. |
| EzsqlModel.Model.SecureReset | lib/ezsqlModel.php:722-730 | Switches secure mode off and clears the certificate paths and options. |
| EzsqlModel.Model.IsConnected | lib/ezsqlModel.php:737-740 | Returns the connected flag. |
| EzsqlModel.Model.AffectedRows | lib/ezsqlModel.php:747-750 | Returns the affected-row count. |
| EzsqlModel.Model.QueryResult | lib/ezsqlModel.php:757-760 | Returns the last result. |
| EzPdo.Rewrite | lib/Database/ez_pdo.php:234-237 | The placeholder rewrite of `query`. Its property is `RewriteRemovesTags`. |
| EzPdo.IsMutating | lib/Database/ez_pdo.php:279 | The pattern `^(insert\|delete\|update\|replace\|drop\|create)\s+`, case-insensitive. Its property is `InsertLikeIsMutating`. |
| EzPdo.ErrorText | lib/Database/ez_pdo.php:185-194 | The message `catch_error` builds from `errorInfo()`. Its property is `CatchErrorFilters`. |
| EzPdo.Caught | lib/Database/ez_pdo.php:181-201 | `catch_error` on the model. Its property is `CatchErrorFilters`. |
| EzPdo.Complaint | lib/Database/ez_pdo.php:84-95 | The credential guard of `connect`. Its property is `ConnectGuards`. |
| EzPdo.Connected | lib/Database/ez_pdo.php:77-115 | `connect` on the session. Its properties are `ConnectGuards` and `ConnectIgnoresFileArgument`. |
| EzPdo.Begin | lib/Database/ez_pdo.php:240-251 | The start of `query` up to the cache lookup. Its property is `PreambleNotes`. |
| EzPdo.Preamble | lib/Database/ez_pdo.php:240-267 | The start of `query` and the cache lookup. Its properties are `PreambleNotes`, `PreambleResult` and `CacheShortCircuit`. |
| EzPdo.Mutated | lib/Database/ez_pdo.php:279-302 | The mutating branch. Its properties are `MutatedError` and `ExecuteInsertId`. |
| EzPdo.Selected | lib/Database/ez_pdo.php:304-353 | The row branch. Its properties are `SelectedError`, `ExecuteSelect` and `SelectKeepsRows`. |
| EzPdo.Execute | lib/Database/ez_pdo.php:270-366 | `query` after the cache lookup. Its properties are `ExecuteKeeps`, `ExecuteSends` and `ExecuteError`. |
| EzPdo.QueryRun | lib/Database/ez_pdo.php:228-368 | The whole of `query`. Its properties are `QueryCountsOnce`, `ErrorStopsQuery`, `InsertIdOnlyForInserts`, `PreparedBindsCaptured` and `QueryLeavesModelResult`. |
| EzPdo.RewriteRemovesTags | lib/Database/ez_pdo.php:234-237 | After the rewrite no `_TAG` remains, and the text is the trimmed replacement. |
| EzPdo.InsertLikeIsMutating | lib/Database/ez_pdo.php:279-299 | Every insert/replace statement is mutating, so the insert id is only taken on the mutating path. A statement starting with `select` is not mutating. |
| EzPdo.CatchErrorFilters | lib/Database/ez_pdo.php:181-201 | A missing code or code 25 changes nothing. Any other code appends exactly one error: the three entries joined by `, `. |
| EzPdo.ConnectGuards | lib/Database/ez_pdo.php:77-115 | Non-file mode with an empty dsn, user or password registers message 1. File mode with an empty dsn registers message 2. With neither, and a successful connection, no error is logged. Connected exactly when PDO did not fail. |
| EzPdo.ConnectIgnoresFileArgument | lib/Database/ez_pdo.php:84 | The file-mode argument makes no difference; the flag comes from the configuration. |
| EzPdo.Overlay | lib/Database/ez_pdo.php:322-343 | Writing entries `0..n-1` of a PHP array: the first n entries are the new ones, and any older tail stays. |
| EzPdo.ColumnsFrom | lib/Database/ez_pdo.php:320-335 | One `col_info` entry per column: name and type from the metadata, else `undefined`/`undefined`. |
| EzPdo.PreambleNotes | lib/Database/ez_pdo.php:240-251 | Before the cache lookup, `num_queries` grows by exactly one and `last_query` is the rewritten text. Parameters and `lastQuery` are cleared, and the call log holds this call alone. |
| EzPdo.PreambleResult | lib/Database/ez_pdo.php:257-267 | A result or value after the preamble can only come from the disk cache entry of this query. |
| EzPdo.StoreStepKeeps | lib/Database/ez_pdo.php:353 | `store_cache` leaves ez_pdo's fields, the parameters, the result and the last query alone. |
| EzPdo.ExecuteKeeps | lib/Database/ez_pdo.php:270-366 | After the cache check, the counter, `last_query`, `lastResult` and `lastQuery` are untouched. |
| EzPdo.ExecuteSends | lib/Database/ez_pdo.php:270-313 | Nothing is sent exactly when there is no handle and connecting fails, and then the call raises. The prepared path is taken exactly when the captured parameters are non-empty and prepare mode is on; it then appends one null. The direct path sends the text alone. |
| EzPdo.MutatedError | lib/Database/ez_pdo.php:283-292 | On a reported error the mutating path returns `false` and logs that error, with disk and ez_pdo fields unchanged. |
| EzPdo.SelectedError | lib/Database/ez_pdo.php:309-316 | On a reported error the row path returns `false` and logs that error, with disk and ez_pdo fields unchanged. |
| EzPdo.ExecuteError | lib/Database/ez_pdo.php:270-316 | A reported error returns `false` before `store_cache` and before any column or row is written. |
| EzPdo.ExecuteSelect | lib/Database/ez_pdo.php:305-349 | A direct select returns and stores the number of fetched rows, and holds them at `0..n-1` with their column info. A failed direct query raises. A prepared select returns 0. |
| EzPdo.ExecuteInsertId | lib/Database/ez_pdo.php:297-299 | `insert_id` changes only for an insert/replace without a reported error, and then it is `lastInsertId()`. |
| EzPdo.QueryCountsOnce | lib/Database/ez_pdo.php:249-251 | Every call adds exactly one to `num_queries` and notes the rewritten text. |
| EzPdo.CacheShortCircuit | lib/Database/ez_pdo.php:257-276 | A truthy cached value is returned without touching the driver. A direct return without a statement means such a hit. With a handle and no truthy hit (a cached 0 included), a statement is sent. |
| EzPdo.PreparedBindsCaptured | lib/Database/ez_pdo.php:230-313 | The prepared path runs exactly with `use_prepare`, non-empty parameters captured before the flush, and prepare mode. It binds those parameters and leaves `[null]`. The direct path leaves `[]`. |
| EzPdo.ErrorStopsQuery | lib/Database/ez_pdo.php:290-353 | A reported error makes `query` return `false`. The logged record carries a null query. The disk is as the cache lookup left it, and no column info or row is written. |
| EzPdo.SelectKeepsRows | lib/Database/ez_pdo.php:320-349 | For a select, the rows sit at `0..num_rows-1` in fetch order, with one column entry per column, and the return value is `num_rows`. |
| EzPdo.InsertIdOnlyForInserts | lib/Database/ez_pdo.php:297-299 | Over a whole `query`, `insert_id` changes only for `^(insert\|replace)\s+`. |
| EzPdo.ForId | lib/ezQuery.php:549-558 | The step after the query in `_query_insert_replace`: `insert_id` on a truthy answer, otherwise a null parameter pushed and false. Its properties are `ForIdAfterInsert`, `ForIdOnError` and `ForIdFromCache`. |
| EzPdo.ExecuteInsert | lib/Database/ez_pdo.php:285-303 | An error-free insert or replace that reached the driver answers its affected-row count and sets `insert_id` to `lastInsertId()`. |
| EzPdo.QueryInsert | lib/Database/ez_pdo.php:228-303 | The same over the whole of `query`. |
| EzPdo.ForIdAfterInsert | lib/ezQuery.php:549-558 | An error-free insert/replace that affected rows answers the id `lastInsertId()` gave; one that affected none (or got false) answers false, and leaves one null parameter (two after a prepared run). |
| EzPdo.ForIdOnError | lib/ezQuery.php:549-558 | A reported driver error answers false, with the error logged last and a null parameter pushed last. |
| EzPdo.ForIdFromCache | lib/ezQuery.php:549-556 | A truthy count served from the cache answers the `insert_id` held before the call. |
| EzPdo.QueryLeavesModelResult | lib/Database/ez_pdo.php:228-366 | `query` never fills ezsqlModel's `lastResult` itself; only a cache hit does. |
| EzPdo.GetVarAfterQueryIsNull | lib/ezsqlModel.php:341-357 | Without a cache entry, `get_var` with a query returns null, because the rows went to `last_result`, not `lastResult`. |
| EzPdo.PdoSession.constructor | lib/Database/ez_pdo.php:38-58 | A new session is connected exactly when dsn, user and password are all configured; otherwise it is in the initial state. |
| EzPdo.PdoSession.Connect | lib/Database/ez_pdo.php:77-115 | The new state is `Connected`, and the result is whether PDO connected. |
| EzPdo.PdoSession.Disconnect | lib/Database/ez_pdo.php:373-378 | Drops the handle. The connected flag is cleared only when there was a handle. |
| EzPdo.PdoSession.Flush | lib/ezsqlModel.php:321-330 | The corrected `flush`: the five model fields are reset and the prepared parameters are cleared. |
| EzPdo.PdoSession.CatchError | lib/Database/ez_pdo.php:181-201 | The loop's message is `ErrorText`. The result says whether it was reported, and the model is `Caught`. |
| EzPdo.PdoSession.Start | lib/Database/ez_pdo.php:240-251 | The preamble of `query` as `Begin`. |
| EzPdo.PdoSession.QueryPrepared | lib/Database/ez_pdo.php:210-220 | Row count or `false` on the mutating path; on the select path, the handle after its own fetch loop has read every row. |
| EzPdo.PdoSession.FillColumns | lib/Database/ez_pdo.php:322-335 | The column loop leaves `col_info` as `Overlay(old, ColumnsFrom(metas))`. |
| EzPdo.PdoSession.FetchRows | lib/Database/ez_pdo.php:338-343 | The fetch loop leaves `last_result` as `Overlay(old, rows)` and counts the rows. |
| EzPdo.PdoSession.Mutate | lib/Database/ez_pdo.php:279-302 | The mutating branch, as `Mutated`. |
| EzPdo.PdoSession.Select | lib/Database/ez_pdo.php:304-353 | The row branch, as `Selected`. |
| EzPdo.PdoSession.Run | lib/Database/ez_pdo.php:270-366 | After a cache miss, as `Execute`. |
| EzPdo.PdoSession.Open | lib/Database/ez_pdo.php:240-267 | The preamble and the cache lookup, as `Preamble`. |
| EzPdo.PdoSession.Query | lib/Database/ez_pdo.php:228-368 | `query()` returns, sends and leaves the session exactly as `QueryRun`. |
| EzPdo.PdoSession.PerformForId | lib/ezQuery.php:549-558 | Runs the query, then answers and leaves the session exactly as `ForId`. |
| EzPdo.PdoSession.InsertReplace | lib/ezQuery.php:516-558 | `_query_insert_replace` executing: a refused statement answers false with the builder state of `Statement.InsertReplace`; a built one runs through `ForId` with the parameters it pushed. |
| EzPdo.PdoSession.Insert | lib/ezQuery.php:589-595 | `insert()`: the id of the inserted record or false, as `InsertReplace` with `INSERT`. |
| EzPdo.PdoSession.Replace | lib/ezQuery.php:578-584 | `replace()`: the id of the replaced record or false, as `InsertReplace` with `REPLACE`. |
| EzPdo.PdoSession.GetVar | lib/ezsqlModel.php:341-358 | `get_var` with or without a query: log, query, then `VarAt` of `lastResult`; an escaping exception propagates. |
| EzPdo.PdoSession.GetRow | lib/ezsqlModel.php:360-383 | `get_row`: log, query, then `RowAt` in the requested form. |
| EzPdo.PdoSession.GetCol | lib/ezsqlModel.php:385-403 | `get_col`: query, then one entry and one logged `get_var` call per row. |
| EzPdo.PdoSession.GetResults | lib/ezsqlModel.php:405-433 | `get_results`: log, query, then `ResultsOf` in the requested form. |

## Left out

- PDO itself (`new PDO`, `prepare`, `execute`, `fetch`, `query`, `exec`, `quote`, `lastInsertId`, `errorInfo`, `getColumnMeta`) is a `Driver` value giving the replies for the statement at hand. The body of `escape` and `sysdate` are not part of this model.
- PDO connection options, `ini_set('track_errors')`, the `print` in the ez_pdo constructor and the `$GLOBALS` registry write (lib/Database/ez_pdo.php:49, 57) are output or global state outside the session.
- `quick_connect` (lib/Database/ez_pdo.php:135-137) only forwards to `connect`; `EzPdo.PdoSession.Connect` covers it. The dynamic `isConnected` property written at lib/Database/ez_pdo.php:112 is never read in the modelled code and is not kept.
- Timers (`timer_start`, `timer_elapsed`, `timer_update_global`) use `microtime` and floating point; debug output, `trace_log`, `varDump`/`dump_var`, `show_errors`/`hide_errors` and the `trigger_error` display in `register_error` are rendering only.
- `get_results` with JSON output (`json_encode`) is modelled as an opaque "no rows" form only.
- Cache file I/O (`md5` file names, `serialize`/`unserialize`, `file_put_contents`, `filemtime`, `touch`, `unlink`) is replaced by the `Disk` value. `create_cache` is reduced to "the directory exists or can be made".
- `clean()` (HTML stripping), `secureSetup` (file system and certificates) and the reflection-based getters and setters of `__call` are not modelled. `EzsqlModel.MagicCall` keeps only the decision whether a name is defined.
- Cache settings are fixed per session, because they change only through the `__call` setters.
- `EzsqlModel.Model.Count`: counters are unbounded integers. PHP's 64-bit overflow to float is not modelled.
- `EzPdo.RewriteRemovesTags` assumes that the trimmed text does not contain the 6-character literal `/[\n\r]/` (slash, bracket, line feed, carriage return, bracket, slash). The code removes that literal as plain text, not as a pattern. Text that contains it is still rewritten by `Rewrite`, but the lemma says nothing about it.
- `Statement.SelectSql`, `Statement.CreateSelect`, `Statement.SelectInto`, `Statement.Update`, `Statement.Delete`, `Statement.InsertReplace` and `Statement.InsertSelect`: their own contracts (and, for `insert_select`, `Statement.InsertSelectOutcomes`) state the guard failures and the outcome shape. The text of a successful statement is their definition. Its clause part carries the properties proved in `Clause`, and its SET/VALUES part carries `SetListBinds`/`ValueListBinds`.
- `Php.LooseOne` (and so `Clause.Finish` and `EzQuery.QueryBuilder.CompileConditions`): a numeric text is compared with 1 exactly. PHP compares a text with a fraction or an exponent as a double, so a text like "1.00000000000000000001", which rounds to 1.0, is equal to '1' in PHP and not in the model.
- `Php.CharMask`: characters are compared by code point. PHP reads the list byte by byte, so a range whose ends are not ASCII may differ.
- `Php.IntVal` (and so `EzsqlModel.HostPort`): a number with a fraction or an exponent is read exactly and truncated toward zero. PHP reads it as a double first, so a number with more digits than a double holds may round differently. A value beyond the double range (about 1.8e308) casts to 0 in PHP, while the model caps it.
- PDO's `ERRMODE_EXCEPTION` is not modelled. It is PHP 8's default, and it always applies in file mode, where `new PDO($dsn)` gets no options (lib/Database/ez_pdo.php:101). In that mode a failing `prepare`, `exec` or `query` (lib/Database/ez_pdo.php:212, 287, 313) throws out of `query()`, and `catch_error` is not reached. `EzPdo.ErrorStopsQuery`, `EzPdo.MutatedError`, `EzPdo.SelectedError` and `EzPdo.ExecuteError` describe the silent and warning modes, which a caller chooses through the connection options.
- Values are strings only. In `Statement.Arg` (`update`, `insert`, `replace`) a value is a string, and in `Clause.Conditions` an optional string. PHP integers and booleans are not represented. A PHP `null` value for `update`/`insert` is not represented either: the code would push `null` through `setParameters($val)` (lib/ezQuery.php:473, 541), and the model pushes text.
- Mixed argument lists are not represented. `Clause.Conditions` is either all strings or all arrays. In the code, a string followed by an array raises a TypeError at `explode` (lib/ezQuery.php:200) or `strpos` (lib/ezQuery.php:340), and an array followed by a string reads string offsets.

## Findings

| source | as written | input that shows it | evidently intended | confidence | as-written member | corrected member |
|---|---|---|---|---|---|---|
| lib/ezsqlModel.php:329 | `flush()` calls `$this->clearPrepare()`. No such method exists in the shown files, so `__call` throws "clearPrepare does not exist" after the fields are reset. `query()` calls `flush()` first (lib/Database/ez_pdo.php:243), so every query would throw. | any call of `flush()`, e.g. `query("SELECT 1")` | reset the five fields and clear the prepared parameters (`clearParameters`, lib/ezQuery.php:97-100) | not executed | EzsqlModel.Model.Flush, EzsqlModel.ClearPrepareUndefined | EzPdo.PdoSession.Flush (used by `EzPdo.Begin` and `EzPdo.PdoSession.Start`), with EzsqlModel.LoggedAfterFlush |
