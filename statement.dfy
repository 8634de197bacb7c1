/**
 * The statement assembler: `selecting`, `select_sql`, `create_select`,
 * `select_into`, `update`, `delete`, `_query_insert_replace` (`insert`,
 * `replace`), `insert_select`, and the formatters `to_string`, `groupBy`
 * and `orderBy`, as functions of the builder state on entry.
 *
 * A statement ends in a call into the session (`query` or `get_results`);
 * here it ends in an Outcome that names that call with its arguments. The
 * session module runs an insert or replace Outcome itself and answers its
 * id or false (`EzPdo.ForId`, `EzPdo.PdoSession.InsertReplace`).
 */
module Statement {
  import opened Php
  import opened Clause

  /** The builder's fields. */
  datatype BuilderState = BuilderState(
    selectResult: bool,
    prepareActive: bool,
    fromtable: Option<string>,
    iswhere: bool,
    isinto: bool,
    preparedValues: seq<Param>)

  /** The field values a new builder starts with. */
  const Initial: BuilderState := BuilderState(true, false, None, true, false, [])

  /** A PHP array key. */
  datatype Key = Index(n: int) | Name(s: string)

  /** An argument that may be a string or an array of strings. */
  datatype Arg = Plain(s: string) | Array(entries: seq<(Key, string)>)

  function KeyText(k: Key): string {
    if k.Index? then IntToString(k.n) else k.s
  }

  /** The call a statement ends in. */
  datatype Outcome =
    | Fail                                         // returned false
    | Sql(text: string)                            // returned the statement text
    | Fetch(text: string, prepared: bool)          // get_results(text, OBJECT, prepared)
    | Execute(text: string, prepared: bool)        // query(text, prepared)
    | ExecuteForId(text: string, prepared: bool)   // query(text, prepared), then the insert id
    | Raised                                       // an exception escaped

  datatype Built = Built(outcome: Outcome, after: BuilderState)

  /** `setParameters($v)`: append one value. */
  function Push(s: BuilderState, p: Param): (r: BuilderState)
    ensures r.preparedValues == s.preparedValues + [p]
    ensures r.(preparedValues := s.preparedValues) == s
  {
    s.(preparedValues := s.preparedValues + [p])
  }

  /** The `use_prepare` argument the assembler passes: prepare on and some parameter stored. */
  function UsePrepare(s: BuilderState): bool {
    s.prepareActive && |s.preparedValues| > 0
  }

  // ---------------------------------------------------------------------
  // where() and having() on the builder state

  datatype Clauses = Clauses(value: ClauseValue, after: BuilderState)

  function WhereStep(s: BuilderState, esc: string -> string, input: Conditions): (r: Clauses)
    ensures r.after.iswhere
    ensures s.preparedValues <= r.after.preparedValues
  {
    var w := WhereClause(s.iswhere, s.prepareActive, esc, input);
    Clauses(w.value, s.(iswhere := true, preparedValues := s.preparedValues + w.pushed))
  }

  function HavingStep(s: BuilderState, esc: string -> string, input: Conditions): Clauses {
    WhereStep(s.(iswhere := false), esc, input)
  }

  /** A clause compiled from conditions is one space, or is wrapped in the clause word and spaces. */
  predicate Wrapped(word: string, t: string) {
    t == " " || (|t| >= |word| + 3 && t[..|word| + 2] == " " + word + " " && t[|t| - 1] == ' ')
  }

  predicate Shortcut(input: Conditions) {
    input == Fragments([]) || input == Tuples([]) ||
    (input.Fragments? && |input.texts| > 0 && (Contains(input.texts[0], "WHERE") || Contains(input.texts[0], "HAVING")))
  }

  lemma WherePrefix(iswhere: bool, prepare: bool, esc: string -> string, input: Conditions)
    ensures var r := WhereClause(iswhere, prepare, esc, input);
      r.value.Clause? && !Shortcut(input) ==> Wrapped(Word(iswhere), r.value.text)
  {
    var r := WhereClause(iswhere, prepare, esc, input);
    if r.value.Clause? && !Shortcut(input) {
      var rows := if input.Fragments? then FragmentRows(input.texts) else input.rows;
      assert r == CompileRows(Word(iswhere), rows, prepare, esc);
      var c := Collect(rows).value;
      if "1" !in KeySet(c.entries) {
        var n := |c.entries|;
        if CompileUpTo(c, n, prepare, esc).Stopped? {
          StopCause(c, n, prepare, esc);
        }
      }
    }
  }

  /**
   * having() marks only the next compilation: its clause reads HAVING, and
   * the flag is back to WHERE afterwards, so a following where() reads WHERE.
   */
  lemma HavingThenWhere(s: BuilderState, esc: string -> string, a: Conditions, b: Conditions)
    ensures var h := HavingStep(s, esc, a);
      var w := WhereStep(h.after, esc, b);
      && h.after.iswhere && w.after.iswhere
      && (h.value.Clause? && !Shortcut(a) ==> Wrapped("HAVING", h.value.text))
      && (w.value.Clause? && !Shortcut(b) ==> Wrapped("WHERE", w.value.text))
  {
    WherePrefix(false, s.prepareActive, esc, a);
    WherePrefix(true, s.prepareActive, esc, b);
  }

  // ---------------------------------------------------------------------
  // Formatters

  function Values(es: seq<(Key, string)>): (vs: seq<string>)
    ensures |vs| == |es| && forall i :: 0 <= i < |es| ==> vs[i] == es[i].1
  {
    seq(|es|, i requires 0 <= i < |es| => es[i].1)
  }

  /** Each text followed by ", ". */
  function Listed(vs: seq<string>): string {
    if |vs| == 0 then "" else Listed(vs[..|vs| - 1]) + vs[|vs| - 1] + ", "
  }

  /** `to_string`: the array's values listed with ", " and right-trimmed of commas and spaces. */
  function ColumnsText(a: Arg): string {
    match a
    case Plain(s) => s
    case Array(es) => RTrim(Listed(Values(es)), CharSet(", "))
  }

  lemma {:induction false} ListedJoin(vs: seq<string>)
    requires |vs| > 0
    ensures Listed(vs) == Join(vs, ", ") + ", "
    decreases |vs|
  {
    var init := vs[..|vs| - 1];
    if |vs| == 1 {
      assert init == [];
    } else {
      ListedJoin(init);
      JoinSnoc(init, vs[|vs| - 1], ", ");
      assert init + [vs[|vs| - 1]] == vs;
    }
  }

  lemma {:induction false} JoinSnoc(vs: seq<string>, v: string, sep: string)
    requires |vs| > 0
    ensures Join(vs + [v], sep) == Join(vs, sep) + sep + v
    decreases |vs|
  {
    if |vs| == 1 {
      assert (vs + [v])[1..] == [v];
    } else {
      assert (vs + [v])[1..] == vs[1..] + [v];
      JoinSnoc(vs[1..], v, sep);
    }
  }

  /**
   * When the last column does not itself end in a comma or a space, to_string
   * is the columns joined with ", "; otherwise the trim also eats into it.
   */
  lemma ColumnsJoin(es: seq<(Key, string)>)
    requires |es| > 0 && |es[|es| - 1].1| > 0 && es[|es| - 1].1[|es[|es| - 1].1| - 1] !in CharSet(", ")
    ensures ColumnsText(Array(es)) == Join(Values(es), ", ")
  {
    var vs := Values(es);
    ListedJoin(vs);
    var j := Join(vs, ", ");
    if |vs| == 1 {
      assert j == vs[0];
    } else {
      JoinSnoc(vs[..|vs| - 1], vs[|vs| - 1], ", ");
      assert vs[..|vs| - 1] + [vs[|vs| - 1]] == vs;
    }
    assert j[|j| - 1] == vs[|vs| - 1][|vs[|vs| - 1]| - 1];
    RTrimAppend(j, ", ", CharSet(", "));
  }

  /** `empty()` on a string or an array. */
  predicate EmptyArg(a: Arg) {
    match a
    case Plain(s) => Empty(s)
    case Array(es) => |es| == 0
  }

  /** `groupBy`: None stands for `false`. */
  function GroupBy(a: Arg): (r: Option<string>)
    ensures r.None? <==> EmptyArg(a)
    ensures r.Some? ==> r.value == "GROUP BY " + ColumnsText(a)
  {
    if EmptyArg(a) then None else Some("GROUP BY " + ColumnsText(a))
  }

  /** The direction orderBy writes: ASC or DESC in any case, uppercased; anything else is ASC. */
  function Direction(order: string): (r: string)
    ensures r == "ASC" || r == "DESC"
    ensures Upper(order) in {"ASC", "DESC"} ==> r == Upper(order)
    ensures Upper(order) !in {"ASC", "DESC"} ==> r == "ASC"
  {
    if Upper(order) in {"ASC", "DESC"} then Upper(order) else "ASC"
  }

  /** `orderBy`: None stands for `false`. */
  function OrderBy(a: Arg, order: string): (r: Option<string>)
    ensures r.None? <==> EmptyArg(a)
    ensures r.Some? ==> r.value == "ORDER BY " + ColumnsText(a) + " " + Direction(order)
  {
    if EmptyArg(a) then None else Some("ORDER BY " + ColumnsText(a) + " " + Direction(order))
  }

  // ---------------------------------------------------------------------
  // Values in update and insert/replace

  const Timestamps: set<string> := {"current_timestamp()", "date()", "now()"}

  datatype Encoded = Encoded(toks: seq<Tok>, pushed: seq<Param>)

  /** A null value becomes NULL, a timestamp function CURRENT_TIMESTAMP(); neither binds a parameter. */
  function EncodeValue(v: string, prepare: bool, esc: string -> string): (r: Encoded)
    ensures Lower(v) == "null" ==> r == Encoded([Lit("NULL")], [])
    ensures Lower(v) != "null" && Lower(v) in Timestamps ==> r == Encoded([Lit("CURRENT_TIMESTAMP()")], [])
    ensures Lower(v) != "null" && Lower(v) !in Timestamps ==>
      (prepare ==> r == Encoded([Tag], [TextParam(v)])) && (!prepare ==> r == Encoded([Lit(Quote(esc(v)))], []))
  {
    if Lower(v) == "null" then Encoded([Lit("NULL")], [])
    else if Lower(v) in Timestamps then Encoded([Lit("CURRENT_TIMESTAMP()")], [])
    else if prepare then Encoded([Tag], [TextParam(v)])
    else Encoded([Lit(Quote(esc(v)))], [])
  }

  /** The values that get bound: every value that is neither null nor a timestamp function, in order. */
  function Bound(vs: seq<string>): seq<Param> {
    if |vs| == 0 then []
    else
      var v := vs[|vs| - 1];
      Bound(vs[..|vs| - 1]) + (if Lower(v) != "null" && Lower(v) !in Timestamps then [TextParam(v)] else [])
  }

  /** The SET list of update: `key = value, ` per pair. */
  function SetList(es: seq<(Key, string)>, prepare: bool, esc: string -> string): Encoded {
    if |es| == 0 then Encoded([], [])
    else
      var init := SetList(es[..|es| - 1], prepare, esc);
      var (k, v) := es[|es| - 1];
      var e := EncodeValue(v, prepare, esc);
      Encoded(init.toks + [Lit(KeyText(k) + " = ")] + e.toks + [Lit(", ")], init.pushed + e.pushed)
  }

  /** The VALUES list of insert/replace: `value, ` per pair. */
  function ValueList(es: seq<(Key, string)>, prepare: bool, esc: string -> string): Encoded {
    if |es| == 0 then Encoded([], [])
    else
      var init := ValueList(es[..|es| - 1], prepare, esc);
      var e := EncodeValue(es[|es| - 1].1, prepare, esc);
      Encoded(init.toks + e.toks + [Lit(", ")], init.pushed + e.pushed)
  }

  /** The column list of insert/replace: `key, ` per pair. */
  function NameList(es: seq<(Key, string)>): string {
    if |es| == 0 then "" else NameList(es[..|es| - 1]) + KeyText(es[|es| - 1].0) + ", "
  }

  lemma EncodeTags(v: string, prepare: bool, esc: string -> string)
    ensures var e := EncodeValue(v, prepare, esc);
      Tags(e.toks) == (if prepare then |e.pushed| else 0) && (!prepare ==> e.pushed == [])
  {
    var e := EncodeValue(v, prepare, esc);
    if e.toks == [Tag] {
      assert [Tag][..0] == [];
    } else {
      assert e.toks[..0] == [];
    }
  }

  /** The text one encoded value contributes. */
  lemma EncodeRender(v: string, prepare: bool, esc: string -> string)
    ensures Render(EncodeValue(v, prepare, esc).toks) ==
      if Lower(v) == "null" then "NULL"
      else if Lower(v) in Timestamps then "CURRENT_TIMESTAMP()"
      else if prepare then TAG
      else Quote(esc(v))
  {
    var t := EncodeValue(v, prepare, esc).toks;
    assert |t| == 1 && t[..0] == [];
  }

  /** One more pair adds `key = value, ` to the SET list. */
  lemma SetListStep(es: seq<(Key, string)>, i: nat, prepare: bool, esc: string -> string)
    requires i < |es|
    ensures var prev := SetList(es[..i], prepare, esc);
      var e := EncodeValue(es[i].1, prepare, esc);
      var next := SetList(es[..i + 1], prepare, esc);
      && Render(next.toks) == Render(prev.toks) + KeyText(es[i].0) + " = " + Render(e.toks) + ", "
      && next.pushed == prev.pushed + e.pushed
  {
    var prev := SetList(es[..i], prepare, esc);
    var e := EncodeValue(es[i].1, prepare, esc);
    var head := KeyText(es[i].0) + " = ";
    var mid := prev.toks + [Lit(head)];
    assert SetList(es[..i + 1], prepare, esc) == Encoded(mid + e.toks + [Lit(", ")], prev.pushed + e.pushed) by {
      assert es[..i + 1][..i] == es[..i];
    }
    assert Render(mid) == Render(prev.toks) + KeyText(es[i].0) + " = " by {
      RenderSnoc(prev.toks, Lit(head));
      AppendAssoc(Render(prev.toks), KeyText(es[i].0), " = ");
    }
    assert Render(mid + e.toks) == Render(mid) + Render(e.toks) by {
      RenderAppend(mid, e.toks);
    }
    RenderSnoc(mid + e.toks, Lit(", "));
  }

  /** One more pair adds `value, ` to the VALUES list. */
  lemma ValueListStep(es: seq<(Key, string)>, i: nat, prepare: bool, esc: string -> string)
    requires i < |es|
    ensures var prev := ValueList(es[..i], prepare, esc);
      var e := EncodeValue(es[i].1, prepare, esc);
      var next := ValueList(es[..i + 1], prepare, esc);
      && Render(next.toks) == Render(prev.toks) + Render(e.toks) + ", "
      && next.pushed == prev.pushed + e.pushed
  {
    var prev := ValueList(es[..i], prepare, esc);
    var e := EncodeValue(es[i].1, prepare, esc);
    assert ValueList(es[..i + 1], prepare, esc) == Encoded(prev.toks + e.toks + [Lit(", ")], prev.pushed + e.pushed) by {
      assert es[..i + 1][..i] == es[..i];
    }
    assert Render(prev.toks + e.toks) == Render(prev.toks) + Render(e.toks) by {
      RenderAppend(prev.toks, e.toks);
    }
    RenderSnoc(prev.toks + e.toks, Lit(", "));
  }

  /**
   * Prepared update binds exactly the values that are neither null nor a
   * timestamp function, one placeholder each, in order; inline update binds none.
   */
  lemma {:induction false} SetListBinds(es: seq<(Key, string)>, prepare: bool, esc: string -> string)
    ensures var r := SetList(es, prepare, esc);
      && r.pushed == (if prepare then Bound(Values(es)) else [])
      && Tags(r.toks) == |r.pushed|
    decreases |es|
  {
    if |es| > 0 {
      var init := es[..|es| - 1];
      SetListBinds(init, prepare, esc);
      assert Values(es)[..|es| - 1] == Values(init);
      var (k, v) := es[|es| - 1];
      var prev := SetList(init, prepare, esc);
      var e := EncodeValue(v, prepare, esc);
      EncodeTags(v, prepare, esc);
      Shape1(KeyText(k) + " = ", esc);
      Shape1(", ", esc);
      TagsAppend(prev.toks, [Lit(KeyText(k) + " = ")]);
      TagsAppend(prev.toks + [Lit(KeyText(k) + " = ")], e.toks);
      TagsAppend(prev.toks + [Lit(KeyText(k) + " = ")] + e.toks, [Lit(", ")]);
    }
  }

  /** The same for the VALUES list of insert/replace. */
  lemma {:induction false} ValueListBinds(es: seq<(Key, string)>, prepare: bool, esc: string -> string)
    ensures var r := ValueList(es, prepare, esc);
      && r.pushed == (if prepare then Bound(Values(es)) else [])
      && Tags(r.toks) == |r.pushed|
    decreases |es|
  {
    if |es| > 0 {
      var init := es[..|es| - 1];
      ValueListBinds(init, prepare, esc);
      assert Values(es)[..|es| - 1] == Values(init);
      var prev := ValueList(init, prepare, esc);
      var e := EncodeValue(es[|es| - 1].1, prepare, esc);
      EncodeTags(es[|es| - 1].1, prepare, esc);
      Shape1(", ", esc);
      TagsAppend(prev.toks, e.toks);
      TagsAppend(prev.toks + e.toks, [Lit(", ")]);
    }
  }

  // ---------------------------------------------------------------------
  // selecting()

  /** How a fragment is read by selecting(): the first of these words it contains. */
  datatype Kind = WhereKind | GroupKind | HavingKind | OrderKind | OtherKind

  function KindOf(f: string): Kind {
    if Contains(f, "WHERE") then WhereKind
    else if Contains(f, "GROUP BY") then GroupKind
    else if Contains(f, "HAVING") then HavingKind
    else if Contains(f, "ORDER BY") then OrderKind
    else OtherKind
  }

  /** The fragment loop of selecting(): the text gathered and the flags it set, or a HAVING before GROUP BY. */
  datatype Scan = Scan(text: string, skip: bool, grouped: bool, having: bool, ordered: bool) | HavingFirst

  function ScanUpTo(fs: seq<string>, n: nat): Scan
    requires n <= |fs|
  {
    if n == 0 then Scan("", false, false, false, false)
    else match ScanUpTo(fs, n - 1)
      case HavingFirst => HavingFirst
      case Scan(t, sk, g, h, o) =>
        var f := fs[n - 1];
        match KindOf(f)
        case WhereKind => Scan(t + f, true, g, h, o)
        case GroupKind => Scan(t + " " + f, sk, true, h, o)
        case HavingKind => if g then Scan(t + " " + f, sk, g, true, o) else HavingFirst
        case OrderKind => Scan(t + " " + f, sk, g, h, true)
        case OtherKind => Scan(t, sk, g, h, o)
  }

  /** Once a HAVING fragment is refused, the scan stays refused. */
  lemma {:induction false} HavingFirstPersists(fs: seq<string>, k: nat, n: nat)
    requires k <= n <= |fs| && ScanUpTo(fs, k) == HavingFirst
    ensures ScanUpTo(fs, n) == HavingFirst
    decreases n - k
  {
    if k < n {
      HavingFirstPersists(fs, k, n - 1);
    }
  }

  /** The GROUP BY flag is set exactly when some fragment read so far is a GROUP BY fragment. */
  lemma {:induction false} ScanGrouped(fs: seq<string>, n: nat)
    requires n <= |fs| && ScanUpTo(fs, n).Scan?
    ensures ScanUpTo(fs, n).grouped <==> exists j :: 0 <= j < n && KindOf(fs[j]) == GroupKind
  {
    if n > 0 {
      ScanGrouped(fs, n - 1);
    }
  }

  /** selecting() refuses exactly when some HAVING fragment comes before every GROUP BY fragment. */
  lemma {:induction false} HavingNeedsGroupBy(fs: seq<string>, n: nat)
    requires n <= |fs|
    ensures ScanUpTo(fs, n) == HavingFirst <==>
      exists i :: 0 <= i < n && KindOf(fs[i]) == HavingKind && forall j :: 0 <= j < i ==> KindOf(fs[j]) != GroupKind
  {
    if n > 0 {
      HavingNeedsGroupBy(fs, n - 1);
      if ScanUpTo(fs, n - 1).Scan? {
        ScanGrouped(fs, n - 1);
        if KindOf(fs[n - 1]) == HavingKind && !ScanUpTo(fs, n - 1).grouped {
          assert forall j :: 0 <= j < n - 1 ==> KindOf(fs[j]) != GroupKind;
        }
        if exists i :: 0 <= i < n && KindOf(fs[i]) == HavingKind && forall j :: 0 <= j < i ==> KindOf(fs[j]) != GroupKind {
          var i :| 0 <= i < n && KindOf(fs[i]) == HavingKind && forall j :: 0 <= j < i ==> KindOf(fs[j]) != GroupKind;
          if i == n - 1 {
            assert !ScanUpTo(fs, n - 1).grouped;
          }
        }
      }
    }
  }

  /** The head of the statement selecting() builds, before its clauses. */
  function SelectHead(table: string, columns: string, from: Option<string>, into: bool): string {
    if from.Some? && !into then "CREATE TABLE " + table + " AS SELECT " + columns + " FROM " + from.value
    else if from.Some? && into then "SELECT " + columns + " INTO " + table + " FROM " + from.value
    else "SELECT " + columns + " FROM " + table
  }

  /** The clause text selecting() appends: from its fragment scan, or from where(). */
  function SelectClauses(s: BuilderState, esc: string -> string, args: Conditions): Clauses {
    if args == Fragments([]) || args == Tuples([]) then Clauses(Clause(""), s)
    else if args.Fragments? then
      match ScanUpTo(args.texts, |args.texts|)
      case HavingFirst => Clauses(Refused, s)
      case Scan(t, sk, g, h, o) =>
        if sk || g || h || o then Clauses(Clause(t), s) else WhereStep(s, esc, args)
    else WhereStep(s, esc, args)
  }

  function Selecting(s: BuilderState, esc: string -> string, table: string, fields: Arg, args: Conditions): (r: Built)
    ensures r.after.fromtable.None? && !r.after.isinto && r.after.selectResult
    ensures Empty(table) ==> r == Built(Fail, Push(s.(fromtable := None, selectResult := true, isinto := false), NullParam))
    ensures r.outcome.Fetch? ==> s.selectResult && r.outcome.prepared == UsePrepare(r.after)
    ensures r.outcome.Sql? ==> !s.selectResult
  {
    var s0 := s.(fromtable := None, selectResult := true, isinto := false);
    if Empty(table) then Built(Fail, Push(s0, NullParam))
    else
      var sql := SelectHead(table, ColumnsText(fields), s.fromtable, s.isinto);
      var w := SelectClauses(s0, esc, args);
      match w.value
      case Clause(t) => Built(if s.selectResult then Fetch(sql + t, UsePrepare(w.after)) else Sql(sql + t), w.after)
      case Refused => Built(Fail, Push(w.after, NullParam))
      case Thrown => Built(Raised, w.after)
  }

  /**
   * What selecting() builds once the table is given: a HAVING fragment
   * before any GROUP BY fails with one null pushed, and a clause part that
   * compiles is appended to the head, fetched exactly when select_result
   * was set and returned as text otherwise.
   */
  lemma SelectingText(s: BuilderState, esc: string -> string, table: string, fields: Arg, args: Conditions)
    requires !Empty(table)
    ensures var s0 := s.(fromtable := None, selectResult := true, isinto := false);
      && (args.Fragments? && args.texts != [] && ScanUpTo(args.texts, |args.texts|) == HavingFirst ==>
            Selecting(s, esc, table, fields, args) == Built(Fail, Push(s0, NullParam)))
      && (SelectClauses(s0, esc, args).value.Clause? ==>
            var text := SelectHead(table, ColumnsText(fields), s.fromtable, s.isinto) + SelectClauses(s0, esc, args).value.text;
            var r := Selecting(s, esc, table, fields, args);
            r.outcome == (if s.selectResult then Fetch(text, UsePrepare(r.after)) else Sql(text)))
  {
  }

  function SelectSql(s: BuilderState, esc: string -> string, table: string, fields: Arg, args: Conditions): (r: Built)
    ensures r.outcome.Sql? || r.outcome == Fail || r.outcome == Raised
  {
    Selecting(s.(selectResult := false), esc, table, fields, args)
  }

  function CreateSelect(s: BuilderState, esc: string -> string, newtable: string, columns: Arg,
                        oldtable: Option<string>, args: Conditions): (r: Built)
    ensures oldtable.None? ==> r == Built(Fail, Push(s, NullParam))
    ensures r.outcome.Execute? ==> oldtable.Some? && !Empty(newtable)
  {
    if oldtable.None? then Built(Fail, Push(s, NullParam))
    else
      var b := SelectSql(s.(fromtable := oldtable), esc, newtable, columns, args);
      match b.outcome
      case Sql(t) => Built(Execute(t, UsePrepare(b.after)), b.after)
      case Raised => b
      case _ => Built(Fail, Push(b.after, NullParam))
  }

  function SelectInto(s: BuilderState, esc: string -> string, newtable: string, columns: Arg,
                      oldtable: Option<string>, args: Conditions): (r: Built)
    ensures oldtable.None? ==> r == Built(Fail, Push(s.(isinto := true), NullParam))
    ensures r.outcome.Execute? ==> !r.outcome.prepared
  {
    var s1 := s.(isinto := true);
    if oldtable.None? then Built(Fail, Push(s1, NullParam))
    else
      var b := SelectSql(s1.(fromtable := oldtable), esc, newtable, columns, args);
      match b.outcome
      case Sql(t) => if b.after.prepareActive then Built(Raised, b.after) else Built(Execute(t, false), b.after)
      case Raised => b
      case _ => Built(Fail, Push(b.after, NullParam))
  }

  function Update(s: BuilderState, esc: string -> string, table: string, values: Arg, args: Conditions): (r: Built)
    ensures !values.Array? || Empty(table) ==> r == Built(Fail, Push(s, NullParam))
  {
    if !values.Array? || Empty(table) then Built(Fail, Push(s, NullParam))
    else
      var assigns := SetList(values.entries, s.prepareActive, esc);
      var s1 := s.(preparedValues := s.preparedValues + assigns.pushed);
      var w := WhereStep(s1, esc, args);
      match w.value
      case Clause(t) =>
        Built(Execute(RTrim("UPDATE " + table + " SET " + Render(assigns.toks), CharSet(", ")) + t, UsePrepare(w.after)), w.after)
      case Refused => Built(Fail, Push(w.after, NullParam))
      case Thrown => Built(Raised, w.after)
  }

  function Delete(s: BuilderState, esc: string -> string, table: string, args: Conditions): (r: Built)
    ensures Empty(table) ==> r == Built(Fail, Push(s, NullParam))
  {
    if Empty(table) then Built(Fail, Push(s, NullParam))
    else
      var w := WhereStep(s, esc, args);
      match w.value
      case Clause(t) => Built(Execute("DELETE FROM " + table + t, UsePrepare(w.after)), w.after)
      case Refused => Built(Fail, Push(w.after, NullParam))
      case Thrown => Built(Raised, w.after)
  }

  /** `array_keys($a) === range(0, count($a) - 1)`; for an empty array the range is [0, -1]. */
  predicate IsList(es: seq<(Key, string)>) {
    |es| > 0 && forall i :: 0 <= i < |es| ==> es[i].0 == Index(i)
  }

  function InsertReplace(s: BuilderState, esc: string -> string, table: string, values: Arg, kind: string, execute: bool): (r: Built)
    ensures (!values.Array? && execute) || Empty(table) || Upper(kind) !in {"REPLACE", "INSERT"} ==>
      r == Built(Fail, Push(s, NullParam))
    ensures r.outcome.ExecuteForId? ==> execute && values.Array?
    ensures !execute && values.Array? && !IsList(values.entries) && !Empty(table) && Upper(kind) in {"REPLACE", "INSERT"} ==> r.outcome == Fail && r.after == s
    ensures !execute && r.outcome.Sql? ==> kind + " INTO " + table <= r.outcome.text
  {
    if (!values.Array? && execute) || Empty(table) then Built(Fail, Push(s, NullParam))
    else if Upper(kind) !in {"REPLACE", "INSERT"} then Built(Fail, Push(s, NullParam))
    else
      var sql := kind + " INTO " + table;
      if execute then
        var vals := ValueList(values.entries, s.prepareActive, esc);
        var s1 := s.(preparedValues := s.preparedValues + vals.pushed);
        Built(ExecuteForId(sql + "(" + RTrim(NameList(values.entries), CharSet(", ")) + ") VALUES ("
                           + RTrim(Render(vals.toks), CharSet(", ")) + ");", UsePrepare(s1)), s1)
      else if values.Array? then
        if IsList(values.entries) then Built(Sql(sql + " (" + RTrim(Listed(Values(values.entries)), CharSet(", ")) + ") "), s)
        else Built(Fail, s)
      else Built(Sql(sql), s)
  }

  function InsertSelect(s: BuilderState, esc: string -> string, totable: string, tocolumns: Arg,
                        fromtable: string, fromcolumns: Arg, args: Conditions): (r: Built)
    ensures r.outcome.Execute? ==> !Empty(totable) && !Empty(fromtable)
  {
    var p := InsertReplace(s, esc, totable, tocolumns, "INSERT", false);
    var g := SelectSql(p.after, esc, fromtable, fromcolumns, args);
    if p.outcome.Sql? && g.outcome.Sql? then Built(Execute(p.outcome.text + " " + g.outcome.text, UsePrepare(g.after)), g.after)
    else if g.outcome == Raised then g
    else Built(Fail, Push(g.after, NullParam))
  }

  /**
   * insert_select() runs the INSERT head, then the SELECT: an empty target
   * table or a column array that is not a list fails (or raises from the
   * SELECT), a failure leaves a null parameter last, and a success runs
   * "INSERT INTO <totable>..." followed by the SELECT.
   */
  lemma InsertSelectOutcomes(s: BuilderState, esc: string -> string, totable: string, tocolumns: Arg,
                             fromtable: string, fromcolumns: Arg, args: Conditions)
    ensures var r := InsertSelect(s, esc, totable, tocolumns, fromtable, fromcolumns, args);
      && (Empty(totable) || (tocolumns.Array? && !IsList(tocolumns.entries)) ==> r.outcome == Fail || r.outcome == Raised)
      && (r.outcome == Fail ==> |r.after.preparedValues| > 0 && r.after.preparedValues[|r.after.preparedValues| - 1] == NullParam)
      && (r.outcome.Execute? ==> "INSERT INTO " + totable <= r.outcome.text && r.outcome.prepared == UsePrepare(r.after))
  {
    var p := InsertReplace(s, esc, totable, tocolumns, "INSERT", false);
    var g := SelectSql(p.after, esc, fromtable, fromcolumns, args);
    if p.outcome.Sql? && g.outcome.Sql? {
      assert "INSERT INTO " + totable <= p.outcome.text + " " + g.outcome.text;
    }
  }

}
