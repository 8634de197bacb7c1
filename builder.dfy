/**
 * The query builder object: its flags, the prepared-parameter list, and the
 * methods that change them while they build clause and statement text.
 * Each method is proved against the function of the same name in Clause or
 * Statement.
 */
module EzQuery {
  import opened Php
  import opened Clause
  import opened Statement

  /** The first loop of where(): gather operators, combiners, extras and the keyed values. */
  method CollectConditions(rows: seq<CondRow>) returns (c: Option<Collected>)
    ensures c == Collect(rows)
  {
    var operator: seq<string> := [];
    var combiner: seq<string> := [];
    var extra: seq<Option<string>> := [];
    var whereKey: Entries := [];
    var i := 0;
    while i < |rows|
      invariant 0 <= i <= |rows|
      invariant Collect(rows[..i]) == Some(Collected(operator, combiner, extra, whereKey))
    {
      var values := rows[i];
      assert rows[..i + 1][..i] == rows[..i];
      if EmptyOpt(At(values, 1)) {
        CollectRefusalPersists(rows, i + 1);
        return None;
      }
      var op := At(values, 1).value;
      operator := operator + [op];
      combiner := combiner + [Or(At(values, 3), AND)];
      extra := extra + [At(values, 4)];
      if Upper(op) == "IN" {
        whereKey := Put(whereKey, StrOf(At(values, 0)), Items(values[2..]));
      } else {
        whereKey := Put(whereKey, Or(At(values, 0), "1"), Scalar(Or(At(values, 2), "")));
      }
      i := i + 1;
    }
    assert rows[..i] == rows;
    c := Some(Collected(operator, combiner, extra, whereKey));
  }

  /** The `"$value, "` loop shared by to_string() and _query_insert_replace(). */
  method ListValues(es: seq<(Key, string)>) returns (n: string)
    ensures n == Listed(Values(es))
  {
    var vs := Values(es);
    n := "";
    var i := 0;
    while i < |es|
      invariant 0 <= i <= |es|
      invariant n == Listed(vs[..i])
    {
      assert vs[..i + 1][..i] == vs[..i];
      n := n + es[i].1 + ", ";
      i := i + 1;
    }
    assert vs[..i] == vs;
  }

  /** The fragment loop of selecting(): GROUP BY, HAVING and ORDER BY fragments gathered in order. */
  method ScanFragments(fs: seq<string>) returns (sc: Scan)
    ensures sc == ScanUpTo(fs, |fs|)
  {
    var argsBy := "";
    var skipwhere, groupbyset, havingset, orderbyset := false, false, false, false;
    var i := 0;
    while i < |fs|
      invariant 0 <= i <= |fs|
      invariant ScanUpTo(fs, i) == Scan(argsBy, skipwhere, groupbyset, havingset, orderbyset)
    {
      var f := fs[i];
      if Contains(f, "WHERE") {
        argsBy := argsBy + f;
        skipwhere := true;
      } else if Contains(f, "GROUP BY") {
        argsBy := argsBy + " " + f;
        groupbyset := true;
      } else if Contains(f, "HAVING") {
        if groupbyset {
          argsBy := argsBy + " " + f;
          havingset := true;
        } else {
          HavingFirstPersists(fs, i + 1, |fs|);
          return HavingFirst;
        }
      } else if Contains(f, "ORDER BY") {
        argsBy := argsBy + " " + f;
        orderbyset := true;
      }
      i := i + 1;
    }
    return Scan(argsBy, skipwhere, groupbyset, havingset, orderbyset);
  }

  /** A compiled piece as the method returns it: the stop value, or the text and the next combiner. */
  predicate Produced(p: Piece, stop: Option<ClauseValue>, text: string, cw: string) {
    && (p.Stop? ==> stop == Some(p.value))
    && (p.Emit? ==> stop.None? && text == Render(p.toks) && cw == p.cw)
  }

  class QueryBuilder {
    var selectResult: bool
    var prepareActive: bool
    var fromtable: Option<string>
    var iswhere: bool
    var isinto: bool
    var preparedValues: seq<Param>
    /** The driver's escape function; its body is not part of this model. */
    const escape: string -> string

    function State(): BuilderState
      reads this
    {
      BuilderState(selectResult, prepareActive, fromtable, iswhere, isinto, preparedValues)
    }

    constructor(escape: string -> string)
      ensures State() == Initial && this.escape == escape
    {
      selectResult := true;
      prepareActive := false;
      fromtable := None;
      iswhere := true;
      isinto := false;
      preparedValues := [];
      this.escape := escape;
    }

    function GetPrepare(): (r: bool)
      reads this
      ensures r <==> State().prepareActive
    {
      prepareActive
    }

    method SetPrepare(on: bool)
      modifies this
      ensures State() == old(State()).(prepareActive := on)
    {
      prepareActive := on;
    }

    function GetParameters(): (r: seq<Param>)
      reads this
      ensures r == State().preparedValues
    {
      preparedValues
    }

    /** array_push: append one value and return the new count. */
    method SetParameters(v: Param) returns (count: nat)
      modifies this`preparedValues
      ensures State() == Push(old(State()), v)
      ensures count == |preparedValues|
    {
      preparedValues := preparedValues + [v];
      count := |preparedValues|;
    }

    method ClearParameters()
      modifies this`preparedValues
      ensures State() == old(State()).(preparedValues := [])
    {
      preparedValues := [];
    }

    method ToString(arrays: Arg) returns (columns: string)
      ensures columns == ColumnsText(arrays)
    {
      if arrays.Array? {
        columns := ListValues(arrays.entries);
        columns := RTrim(columns, CharSet(", "));
      } else {
        columns := arrays.s;
      }
    }

    /** One value of update() or insert/replace(): its text, with its parameter pushed in prepared mode. */
    method EncodeEntry(val: string) returns (text: string)
      modifies this`preparedValues
      ensures text == Render(EncodeValue(val, old(prepareActive), escape).toks)
      ensures preparedValues == old(preparedValues) + EncodeValue(val, old(prepareActive), escape).pushed
    {
      EncodeRender(val, prepareActive, escape);
      AppendEmpty(preparedValues);
      if Lower(val) == "null" {
        return "NULL";
      } else if Lower(val) in Timestamps {
        return "CURRENT_TIMESTAMP()";
      } else if prepareActive {
        var count := SetParameters(TextParam(val));
        return TAG;
      } else {
        return Quote(escape(val));
      }
    }

    /** The SET loop of update(). */
    method AssignList(es: seq<(Key, string)>) returns (text: string)
      modifies this`preparedValues
      ensures text == Render(SetList(es, old(prepareActive), escape).toks)
      ensures preparedValues == old(preparedValues) + SetList(es, old(prepareActive), escape).pushed
    {
      text := "";
      var i := 0;
      while i < |es|
        invariant 0 <= i <= |es|
        invariant text == Render(SetList(es[..i], prepareActive, escape).toks)
        invariant preparedValues == old(preparedValues) + SetList(es[..i], prepareActive, escape).pushed
      {
        SetListStep(es, i, prepareActive, escape);
        var value := EncodeEntry(es[i].1);
        AppendAssoc(old(preparedValues), SetList(es[..i], prepareActive, escape).pushed, EncodeValue(es[i].1, prepareActive, escape).pushed);
        text := text + KeyText(es[i].0) + " = " + value + ", ";
        i := i + 1;
      }
      assert es[..i] == es;
    }

    /** The loop of _query_insert_replace() in execute mode: the column names and the VALUES list. */
    method NamesAndValues(es: seq<(Key, string)>) returns (n: string, v: string)
      modifies this`preparedValues
      ensures n == NameList(es)
      ensures v == Render(ValueList(es, old(prepareActive), escape).toks)
      ensures preparedValues == old(preparedValues) + ValueList(es, old(prepareActive), escape).pushed
    {
      n, v := "", "";
      ghost var vl := Encoded([], []);
      var i := 0;
      while i < |es|
        invariant 0 <= i <= |es|
        invariant vl == ValueList(es[..i], prepareActive, escape)
        invariant n == NameList(es[..i]) && v == Render(vl.toks)
        invariant preparedValues == old(preparedValues) + vl.pushed
      {
        ghost var e := EncodeValue(es[i].1, prepareActive, escape);
        ghost var next := ValueList(es[..i + 1], prepareActive, escape);
        assert Render(next.toks) == Render(vl.toks) + Render(e.toks) + ", " && next.pushed == vl.pushed + e.pushed by {
          ValueListStep(es, i, prepareActive, escape);
        }
        assert NameList(es[..i + 1]) == n + KeyText(es[i].0) + ", " by {
          assert es[..i + 1][..i] == es[..i];
        }
        var value := EncodeEntry(es[i].1);
        AppendAssoc(old(preparedValues), vl.pushed, e.pushed);
        n := n + KeyText(es[i].0) + ", ";
        v := v + value + ", ";
        vl := next;
        i := i + 1;
      }
      assert es[..i] == es;
    }

    /** One entry of the second loop of where(): its text, or the value where() returns. */
    method CompileEntry(key: string, val: Entry, op: string, comb: string, extra: Option<string>)
      returns (stop: Option<ClauseValue>, text: string, cw: string)
      modifies this`preparedValues
      ensures var p := CompilePiece(key, val, op, comb, extra, old(prepareActive), escape);
        Produced(p, stop, text, cw) && preparedValues == old(preparedValues) + p.pushed
    {
      var iscondition := Upper(op);
      var combinewith := if Upper(comb) in Combiners || extra.Some? then (if extra.Some? then comb else Upper(comb)) else AND;
      ghost var p := CompilePiece(key, val, op, comb, extra, prepareActive, escape);
      if iscondition !in Operators {
        assert p == Stop(Refused, [NullParam]);
        var count := SetParameters(NullParam);
        return Some(Refused), "", "";
      }
      if iscondition == "BETWEEN" || iscondition == "NOT BETWEEN" {
        var mycombinewith := if Upper(StrOf(extra)) in Combiners then Upper(StrOf(extra)) else AND;
        assert p == BetweenPiece(key, val, iscondition, combinewith, mycombinewith, prepareActive, escape);
        stop, text, cw := BetweenEntry(key, val, iscondition, combinewith, mycombinewith);
      } else if iscondition == "IN" {
        var value := InList(if val.Items? then val.xs else []);
        text := key + " IN ( " + value + " ) " + combinewith + " ";
        InText(key, if val.Items? then val.xs else [], combinewith, prepareActive, escape);
        assert p == InPiece(key, if val.Items? then val.xs else [], combinewith, prepareActive, escape);
        stop, cw := None, combinewith;
      } else if val.Items? {
        AppendEmpty(old(preparedValues));
        return Some(Thrown), "", "";
      } else {
        assert p == ComparePiece(key, val.s, iscondition, combinewith, prepareActive, escape);
        stop, text, cw := CompareEntry(key, val.s, iscondition, combinewith);
      }
    }

    method BetweenEntry(key: string, val: Entry, iscondition: string, combinewith: string, mycombinewith: string)
      returns (stop: Option<ClauseValue>, text: string, cw: string)
      modifies this`preparedValues
      ensures var p := BetweenPiece(key, val, iscondition, combinewith, mycombinewith, old(prepareActive), escape);
        Produced(p, stop, text, cw) && preparedValues == old(preparedValues) + p.pushed
    {
      ghost var p := BetweenPiece(key, val, iscondition, combinewith, mycombinewith, prepareActive, escape);
      var value := escape(combinewith);
      if prepareActive {
        text := key + " " + iscondition + " " + TAG + " AND " + TAG + " " + mycombinewith + " ";
        Shape5(key + " " + iscondition + " ", " AND ", " " + mycombinewith + " ", EntryParam(val), TextParam(combinewith), escape);
        var count := SetParameters(EntryParam(val));
        count := SetParameters(TextParam(combinewith));
        assert old(preparedValues) + [EntryParam(val)] + [TextParam(combinewith)] == old(preparedValues) + p.pushed;
      } else if val.Items? {
        AppendEmpty(old(preparedValues));
        return Some(Thrown), "", "";
      } else {
        text := key + " " + iscondition + " " + Quote(escape(val.s)) + " AND " + Quote(value) + " " + mycombinewith + " ";
        assert p == Emit([Lit(text)], [], mycombinewith);
        Shape1(text, escape);
        AppendEmpty(old(preparedValues));
      }
      stop, cw := None, mycombinewith;
    }

    /** The items of an IN list, each followed by ", ", then right-trimmed of commas and spaces. */
    method InList(xs: seq<Option<string>>) returns (value: string)
      modifies this`preparedValues
      ensures value == Render(InJoined(xs, old(prepareActive), escape))
      ensures preparedValues == old(preparedValues) + if old(prepareActive) then ItemParams(xs) else []
    {
      value := "";
      var i := 0;
      while i < |xs|
        invariant 0 <= i <= |xs|
        invariant value == InItems(xs[..i], prepareActive, escape)
        invariant preparedValues == old(preparedValues) + if prepareActive then ItemParams(xs[..i]) else []
      {
        InItemsStep(xs, i, prepareActive, escape);
        var item := InItem(xs[i]);
        if prepareActive {
          AppendAssoc(old(preparedValues), ItemParams(xs[..i]), [ItemParam(xs[i])]);
        }
        value := value + item + ", ";
        i := i + 1;
      }
      assert xs[..i] == xs;
      InItemsJoined(xs, prepareActive, escape);
      if |xs| > 0 {
        InJoinedLast(xs, prepareActive, escape);
        RTrimAppend(Render(InJoined(xs, prepareActive, escape)), ", ", CharSet(", "));
      }
      value := RTrim(value, CharSet(", "));
    }

    /** One item of an IN list: a placeholder with its value pushed, or the quoted escaped value. */
    method InItem(x: Option<string>) returns (text: string)
      modifies this`preparedValues
      ensures text == TokText(ItemTok(x, old(prepareActive), escape))
      ensures preparedValues == old(preparedValues) + if old(prepareActive) then [ItemParam(x)] else []
    {
      if prepareActive {
        var count := SetParameters(ItemParam(x));
        return TAG;
      } else {
        AppendEmpty(preparedValues);
        return Quote(escape(StrOf(x)));
      }
    }

    method CompareEntry(key: string, v: string, iscondition: string, combinewith: string)
      returns (stop: Option<ClauseValue>, text: string, cw: string)
      modifies this`preparedValues
      ensures var p := ComparePiece(key, v, iscondition, combinewith, old(prepareActive), escape);
        Produced(p, stop, text, cw) && preparedValues == old(preparedValues) + p.pushed
    {
      AppendEmpty(old(preparedValues));
      if Lower(v) == "null" || iscondition == "IS" || iscondition == "IS NOT" {
        var cond := if iscondition == "IS" || iscondition == "IS NOT" then iscondition else "IS";
        text := key + " " + cond + " NULL " + combinewith + " ";
        Shape1(text, escape);
        return None, text, combinewith;
      } else if (iscondition == "LIKE" || iscondition == "NOT LIKE") && !Wildcard(v) {
        return Some(Refused), "", "";
      } else {
        ghost var p := ComparePiece(key, v, iscondition, combinewith, prepareActive, escape);
        assert p == ValuePiece(key, v, iscondition, combinewith, prepareActive, escape);
        text := ValueEntry(key, v, iscondition, combinewith);
        return None, text, combinewith;
      }
    }

    method ValueEntry(key: string, v: string, iscondition: string, combinewith: string) returns (text: string)
      modifies this`preparedValues
      ensures var p := ValuePiece(key, v, iscondition, combinewith, old(prepareActive), escape);
        text == Render(p.toks) && preparedValues == old(preparedValues) + p.pushed
    {
      if prepareActive {
        text := key + " " + iscondition + " " + TAG + " " + combinewith + " ";
        Shape3(key + " " + iscondition + " ", " " + combinewith + " ", TextParam(v), escape);
        AppendAssoc(key + " " + iscondition + " " + TAG, " " + combinewith, " ");
        AppendAssoc(key + " " + iscondition + " " + TAG, " ", combinewith);
        var count := SetParameters(TextParam(v));
      } else {
        text := key + " " + iscondition + " " + Quote(escape(v)) + " " + combinewith + " ";
        Shape1(text, escape);
        AppendEmpty(old(preparedValues));
      }
    }

    /** where(): the clause for the given conditions, or false, or an escaped TypeError. */
    method Where(input: Conditions) returns (r: ClauseValue)
      modifies this
      ensures Clauses(r, State()) == WhereStep(old(State()), escape, input)
    {
      var whereorhaving := if iswhere then "WHERE" else "HAVING";
      iswhere := true;
      ghost var s0 := State();
      AppendEmpty(old(preparedValues));
      var rows: seq<CondRow>;
      match input {
        case Fragments(ts) =>
          if |ts| == 0 {
            return Clause("");
          }
          if Contains(ts[0], "WHERE") || Contains(ts[0], "HAVING") {
            return Clause(ts[0]);
          }
          rows := FragmentRows(ts);
        case Tuples(rs) =>
          if |rs| == 0 {
            return Clause("");
          }
          rows := rs;
      }
      assert WhereClause(old(iswhere), prepareActive, escape, input) == CompileRows(whereorhaving, rows, prepareActive, escape);
      var collected := CollectConditions(rows);
      if collected.None? {
        var count := SetParameters(NullParam);
        return Refused;
      }
      r := CompileConditions(whereorhaving, collected.value);
    }

    /** The second loop of where() and its final trim, over the collected conditions. */
    method CompileConditions(whereorhaving: string, c: Collected) returns (r: ClauseValue)
      requires WellFormed(c)
      modifies this`preparedValues
      ensures var w := CompileCollected(whereorhaving, c, old(prepareActive), escape);
        r == w.value && preparedValues == old(preparedValues) + w.pushed
    {
      if "1" in KeySet(c.entries) {
        AppendEmpty(old(preparedValues));
        return Clause(" ");
      }
      var stop, where, combinewith := CompileLoop(c);
      if stop.Some? {
        return stop.value;
      }
      where := RTrim(where, CharMask(" " + combinewith + " "));
      if prepareActive && |preparedValues| > 0 && !LooseOne(where) {
        r := Clause(" " + whereorhaving + " " + where + " ");
      } else {
        r := if !LooseOne(where) then Clause(" " + whereorhaving + " " + where + " ") else Clause(" ");
      }
      assert r == Finish(whereorhaving, where);
    }

    /** The loop over the entries: the text so far and the last combiner, or the value it returned with. */
    method CompileLoop(c: Collected) returns (stop: Option<ClauseValue>, where: string, combinewith: string)
      requires WellFormed(c)
      modifies this`preparedValues
      ensures var pr := CompileUpTo(c, |c.entries|, old(prepareActive), escape);
        && (pr.Stopped? ==> stop == Some(pr.value))
        && (pr.Running? ==> stop.None? && where == Render(pr.toks) && combinewith == pr.cw)
        && preparedValues == old(preparedValues) + pr.pushed
    {
      AppendEmpty(old(preparedValues));
      where := "";
      combinewith := AND;
      stop := None;
      ghost var ps := Pieces(c, |c.entries|, prepareActive, escape);
      ghost var pr := Running([], [], AND);
      var i := 0;
      while i < |c.entries| && stop.None?
        invariant 0 <= i <= |c.entries|
        invariant pr == Run(ps, i)
        invariant pr.Running? <==> stop.None?
        invariant pr.Stopped? ==> stop == Some(pr.value)
        invariant pr.Running? ==> where == Render(pr.toks) && combinewith == pr.cw
        invariant preparedValues == old(preparedValues) + pr.pushed
      {
        var text, cw;
        stop, text, cw := CompileNext(c, i, ps, pr, old(preparedValues));
        if stop.None? {
          where := where + text;
          combinewith := cw;
        }
        pr := Run(ps, i + 1);
        i := i + 1;
      }
      if stop.Some? {
        RunStopPersists(ps, i, |ps|);
      }
      RunPieces(c, |c.entries|, prepareActive, escape);
    }

    /** One pass of the loop: entry `i` compiled onto what the earlier entries produced. */
    method CompileNext(c: Collected, i: nat, ghost ps: seq<Piece>, ghost pr: Progress, ghost base: seq<Param>)
      returns (stop: Option<ClauseValue>, text: string, cw: string)
      requires WellFormed(c) && i < |c.entries| && ps == Pieces(c, |c.entries|, prepareActive, escape)
      requires pr == Run(ps, i) && pr.Running? && preparedValues == base + pr.pushed
      modifies this`preparedValues
      ensures var nx := Run(ps, i + 1);
        && preparedValues == base + nx.pushed
        && (nx.Running? <==> stop.None?)
        && (nx.Stopped? ==> stop == Some(nx.value))
        && (nx.Running? ==> Render(nx.toks) == Render(pr.toks) + text && cw == nx.cw)
    {
      PiecesAt(c, |c.entries|, i, prepareActive, escape);
      ghost var piece := ps[i];
      stop, text, cw := CompileEntry(c.entries[i].0, c.entries[i].1, c.ops[i], c.combs[i], c.extras[i]);
      AppendAssoc(base, pr.pushed, piece.pushed);
      if stop.None? {
        RenderAppend(pr.toks, piece.toks);
      }
    }

    method Having(input: Conditions) returns (r: ClauseValue)
      modifies this
      ensures Clauses(r, State()) == HavingStep(old(State()), escape, input)
    {
      iswhere := false;
      r := Where(input);
    }

    /** The clause part of selecting(): the fragment scan, or where() on condition tuples. */
    method SelectWhere(args: Conditions) returns (where: ClauseValue)
      modifies this
      ensures Clauses(where, State()) == SelectClauses(old(State()), escape, args)
    {
      if args == Fragments([]) || args == Tuples([]) {
        return Clause("");
      }
      if args.Fragments? {
        var sc := ScanFragments(args.texts);
        if sc.HavingFirst? {
          return Refused;
        } else if sc.skip || sc.grouped || sc.having || sc.ordered {
          return Clause(sc.text);
        }
      }
      where := Where(args);
    }

    method Selecting(table: string, fields: Arg, args: Conditions) returns (o: Outcome)
      modifies this
      ensures Built(o, State()) == Statement.Selecting(old(State()), escape, table, fields, args)
    {
      var getfromtable := fromtable;
      var getselectResult := selectResult;
      var getisinto := isinto;
      fromtable := None;
      selectResult := true;
      isinto := false;
      var count: nat;
      if Empty(table) {
        count := SetParameters(NullParam);
        return Fail;
      }
      var columns := ToString(fields);
      var sql: string;
      if getfromtable.Some? && !getisinto {
        sql := "CREATE TABLE " + table + " AS SELECT " + columns + " FROM " + getfromtable.value;
      } else if getfromtable.Some? && getisinto {
        sql := "SELECT " + columns + " INTO " + table + " FROM " + getfromtable.value;
      } else {
        sql := "SELECT " + columns + " FROM " + table;
      }
      var where := SelectWhere(args);
      if where.Clause? {
        sql := sql + where.text;
        if getselectResult {
          return Fetch(sql, prepareActive && |preparedValues| > 0);
        } else {
          return Sql(sql);
        }
      } else if where == Thrown {
        return Raised;
      } else {
        count := SetParameters(NullParam);
        return Fail;
      }
    }

    method SelectSql(table: string, fields: Arg, args: Conditions) returns (o: Outcome)
      modifies this
      ensures Built(o, State()) == Statement.SelectSql(old(State()), escape, table, fields, args)
    {
      selectResult := false;
      o := Selecting(table, fields, args);
    }

    method CreateSelect(newtable: string, fromcolumns: Arg, oldtable: Option<string>, fromwhere: Conditions) returns (o: Outcome)
      modifies this
      ensures Built(o, State()) == Statement.CreateSelect(old(State()), escape, newtable, fromcolumns, oldtable, fromwhere)
    {
      var count: nat;
      if oldtable.Some? {
        fromtable := oldtable;
      } else {
        count := SetParameters(NullParam);
        return Fail;
      }
      var newtablefromtable := SelectSql(newtable, fromcolumns, fromwhere);
      if newtablefromtable.Sql? {
        return Execute(newtablefromtable.text, prepareActive && |preparedValues| > 0);
      } else if newtablefromtable == Raised {
        return Raised;
      } else {
        count := SetParameters(NullParam);
        return Fail;
      }
    }

    /** select_into(); in prepared mode its call to the missing `getprepared()` raises. */
    method SelectInto(newtable: string, fromcolumns: Arg, oldtable: Option<string>, fromwhere: Conditions) returns (o: Outcome)
      modifies this
      ensures Built(o, State()) == Statement.SelectInto(old(State()), escape, newtable, fromcolumns, oldtable, fromwhere)
    {
      isinto := true;
      var count: nat;
      if oldtable.Some? {
        fromtable := oldtable;
      } else {
        count := SetParameters(NullParam);
        return Fail;
      }
      var newtablefromtable := SelectSql(newtable, fromcolumns, fromwhere);
      if newtablefromtable.Sql? {
        if prepareActive {
          return Raised;
        }
        return Execute(newtablefromtable.text, false);
      } else if newtablefromtable == Raised {
        return Raised;
      } else {
        count := SetParameters(NullParam);
        return Fail;
      }
    }

    method Update(table: string, keyandvalue: Arg, whereKeys: Conditions) returns (o: Outcome)
      modifies this
      ensures Built(o, State()) == Statement.Update(old(State()), escape, table, keyandvalue, whereKeys)
    {
      var count: nat;
      if !keyandvalue.Array? || Empty(table) {
        count := SetParameters(NullParam);
        return Fail;
      }
      var assigns := AssignList(keyandvalue.entries);
      var sql := "UPDATE " + table + " SET " + assigns;
      var where := Where(whereKeys);
      if where.Clause? {
        sql := RTrim(sql, CharSet(", ")) + where.text;
        return Execute(sql, prepareActive && |preparedValues| > 0);
      } else if where == Thrown {
        return Raised;
      } else {
        count := SetParameters(NullParam);
        return Fail;
      }
    }

    method Delete(table: string, whereKeys: Conditions) returns (o: Outcome)
      modifies this
      ensures Built(o, State()) == Statement.Delete(old(State()), escape, table, whereKeys)
    {
      var count: nat;
      if Empty(table) {
        count := SetParameters(NullParam);
        return Fail;
      }
      var sql := "DELETE FROM " + table;
      var where := Where(whereKeys);
      if where.Clause? {
        sql := sql + where.text;
        return Execute(sql, prepareActive && |preparedValues| > 0);
      } else if where == Thrown {
        return Raised;
      } else {
        count := SetParameters(NullParam);
        return Fail;
      }
    }

    /** _query_insert_replace(): the statement to run, or in non-execute mode the INSERT head. */
    method QueryInsertReplace(table: string, keyandvalue: Arg, kind: string, execute: bool) returns (o: Outcome)
      modifies this
      ensures Built(o, State()) == InsertReplace(old(State()), escape, table, keyandvalue, kind, execute)
    {
      var count: nat;
      if (!keyandvalue.Array? && execute) || Empty(table) {
        count := SetParameters(NullParam);
        return Fail;
      }
      if Upper(kind) !in {"REPLACE", "INSERT"} {
        count := SetParameters(NullParam);
        return Fail;
      }
      var sql := kind + " INTO " + table;
      var v := "";
      var n := "";
      if execute {
        n, v := NamesAndValues(keyandvalue.entries);
        sql := sql + "(" + RTrim(n, CharSet(", ")) + ") VALUES (" + RTrim(v, CharSet(", ")) + ");";
        return ExecuteForId(sql, prepareActive && |preparedValues| > 0);
      } else {
        if keyandvalue.Array? {
          if IsList(keyandvalue.entries) {
            n := ListValues(keyandvalue.entries);
            sql := sql + " (" + RTrim(n, CharSet(", ")) + ") ";
          } else {
            return Fail;
          }
        }
        return Sql(sql);
      }
    }

    method Replace(table: string, keyandvalue: Arg) returns (o: Outcome)
      modifies this
      ensures Built(o, State()) == InsertReplace(old(State()), escape, table, keyandvalue, "REPLACE", true)
    {
      o := QueryInsertReplace(table, keyandvalue, "REPLACE", true);
    }

    method Insert(table: string, keyandvalue: Arg) returns (o: Outcome)
      modifies this
      ensures Built(o, State()) == InsertReplace(old(State()), escape, table, keyandvalue, "INSERT", true)
    {
      o := QueryInsertReplace(table, keyandvalue, "INSERT", true);
    }

    method InsertSelect(totable: string, tocolumns: Arg, fromtable: string, fromcolumns: Arg, fromwhere: Conditions)
      returns (o: Outcome)
      modifies this
      ensures Built(o, State()) == Statement.InsertSelect(old(State()), escape, totable, tocolumns, fromtable, fromcolumns, fromwhere)
    {
      var puttotable := QueryInsertReplace(totable, tocolumns, "INSERT", false);
      var getfromtable := SelectSql(fromtable, fromcolumns, fromwhere);
      if puttotable.Sql? && getfromtable.Sql? {
        return Execute(puttotable.text + " " + getfromtable.text, prepareActive && |preparedValues| > 0);
      } else if getfromtable == Raised {
        return Raised;
      } else {
        var count := SetParameters(NullParam);
        return Fail;
      }
    }
  }
}
