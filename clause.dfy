/**
 * The clause compiler behind `where()` and `having()`: condition rows are
 * gathered into a column-keyed map, then each entry is compiled into SQL
 * text, either with placeholders (prepared mode) or with escaped, quoted
 * literals (inline mode).
 *
 * Text is built here as a list of tokens: a literal piece of text or the
 * placeholder tag. Rendering the tokens gives the clause text, and counting
 * the tags gives the number of placeholders, which is what ties the text to
 * the parameters pushed beside it.
 */
module Clause {
  import opened Php

  /** The placeholder the builder writes in prepared mode. */
  const TAG: string := "__ez__"

  /** The default combiner. */
  const AND: string := "AND"

  const Combiners: set<string> := {"AND", "OR", "NOT", "AND NOT"}

  const Operators: set<string> :=
    {"<", ">", "=", "!=", ">=", "<=", "<>", "IN", "LIKE", "NOT LIKE", "BETWEEN", "NOT BETWEEN", "IS", "IS NOT"}

  /** One condition: positions 0..4 are key, operator, value, combiner, extra; a missing or null slot is None. */
  type CondRow = seq<Option<string>>

  function At(r: CondRow, i: nat): Option<string> {
    if i < |r| then r[i] else None
  }

  /** `isset($x) ? $x : $d` */
  function Or(o: Option<string>, d: string): string {
    if o.Some? then o.value else d
  }

  /** The arguments of `where()`: double-space-separated texts, or positional rows. */
  datatype Conditions = Fragments(texts: seq<string>) | Tuples(rows: seq<CondRow>)

  /** A value held under one key: a plain value, or the list sliced from an IN row. */
  datatype Entry = Scalar(s: string) | Items(xs: seq<Option<string>>)

  /** A value appended to the prepared-parameter list. */
  datatype Param = NullParam | TextParam(s: string) | ListParam(xs: seq<Option<string>>)

  datatype Tok = Lit(text: string) | Tag

  /** What `where()` returns: `false`, a string, or an uncaught TypeError. */
  datatype ClauseValue = Refused | Clause(text: string) | Thrown

  function TokText(t: Tok): string {
    if t.Lit? then t.text else TAG
  }

  function Render(ts: seq<Tok>): string {
    if |ts| == 0 then "" else Render(ts[..|ts| - 1]) + TokText(ts[|ts| - 1])
  }

  /** The number of placeholders among the tokens. */
  function Tags(ts: seq<Tok>): nat {
    if |ts| == 0 then 0 else Tags(ts[..|ts| - 1]) + (if ts[|ts| - 1].Tag? then 1 else 0)
  }

  lemma {:induction false} RenderAppend(a: seq<Tok>, b: seq<Tok>)
    ensures Render(a + b) == Render(a) + Render(b)
    decreases |b|
  {
    if |b| == 0 {
      assert a + b == a;
    } else {
      var b' := b[..|b| - 1];
      var t := b[|b| - 1];
      assert (a + b)[..|a + b| - 1] == a + b';
      assert (a + b)[|a + b| - 1] == t;
      RenderAppend(a, b');
      AppendAssoc(Render(a), Render(b'), TokText(t));
    }
  }

  /** One more token adds its text. */
  lemma RenderSnoc(ts: seq<Tok>, t: Tok)
    ensures Render(ts + [t]) == Render(ts) + TokText(t)
  {
    assert (ts + [t])[..|ts|] == ts;
  }

  lemma {:induction false} TagsAppend(a: seq<Tok>, b: seq<Tok>)
    ensures Tags(a + b) == Tags(a) + Tags(b)
    decreases |b|
  {
    if |b| == 0 {
      assert a + b == a;
    } else {
      var b' := b[..|b| - 1];
      assert (a + b)[..|a + b| - 1] == a + b';
      TagsAppend(a, b');
    }
  }

  function Quote(s: string): string {
    "'" + s + "'"
  }

  /** How a parameter reads when it is quoted into the text instead of bound. */
  function InlineOf(p: Param, esc: string -> string): string {
    match p
    case NullParam => Quote(esc(""))
    case TextParam(s) => Quote(esc(s))
    case ListParam(_) => ""
  }

  /** The text with the i-th placeholder replaced by the inline form of the i-th parameter. */
  function Fill(ts: seq<Tok>, ps: seq<Param>, esc: string -> string): string
    requires Tags(ts) == |ps|
  {
    if |ts| == 0 then ""
    else if ts[|ts| - 1].Tag? then Fill(ts[..|ts| - 1], ps[..|ps| - 1], esc) + InlineOf(ps[|ps| - 1], esc)
    else Fill(ts[..|ts| - 1], ps, esc) + ts[|ts| - 1].text
  }

  lemma {:induction false} FillAppend(a: seq<Tok>, pa: seq<Param>, b: seq<Tok>, pb: seq<Param>, esc: string -> string)
    requires Tags(a) == |pa| && Tags(b) == |pb|
    ensures Tags(a + b) == |pa + pb|
    ensures Fill(a + b, pa + pb, esc) == Fill(a, pa, esc) + Fill(b, pb, esc)
    decreases |b|
  {
    TagsAppend(a, b);
    if |b| == 0 {
      assert a + b == a;
      assert pa + pb == pa;
    } else {
      var b' := b[..|b| - 1];
      var t := b[|b| - 1];
      assert (a + b)[..|a + b| - 1] == a + b';
      assert (a + b)[|a + b| - 1] == t;
      if t.Tag? {
        var pb' := pb[..|pb| - 1];
        var p := pb[|pb| - 1];
        assert Tags(b') == |pb'|;
        assert (pa + pb)[..|pa + pb| - 1] == pa + pb';
        assert (pa + pb)[|pa + pb| - 1] == p;
        FillAppend(a, pa, b', pb', esc);
        assert Fill(a + b, pa + pb, esc) == Fill(a + b', pa + pb', esc) + InlineOf(p, esc);
        assert Fill(b, pb, esc) == Fill(b', pb', esc) + InlineOf(p, esc);
        AppendAssoc(Fill(a, pa, esc), Fill(b', pb', esc), InlineOf(p, esc));
      } else {
        FillAppend(a, pa, b', pb, esc);
        assert Fill(a + b, pa + pb, esc) == Fill(a + b', pa + pb, esc) + t.text;
        assert Fill(b, pb, esc) == Fill(b', pb, esc) + t.text;
        AppendAssoc(Fill(a, pa, esc), Fill(b', pb, esc), t.text);
      }
    }
  }

  /** Literal tokens carry no placeholder and fill to their own text. */
  predicate NoTags(ts: seq<Tok>) {
    forall i :: 0 <= i < |ts| ==> ts[i].Lit?
  }

  lemma {:induction false} FillLiterals(ts: seq<Tok>, esc: string -> string)
    requires NoTags(ts)
    ensures Tags(ts) == 0
    ensures Fill(ts, [], esc) == Render(ts)
    decreases |ts|
  {
    if |ts| > 0 {
      FillLiterals(ts[..|ts| - 1], esc);
    }
  }

  // ---------------------------------------------------------------------
  // Phase 1: gathering the rows into a column-keyed map

  /** An insertion-ordered map, as a PHP array keyed by column. */
  type Entries = seq<(string, Entry)>

  function KeySet(es: Entries): set<string> {
    set i | 0 <= i < |es| :: es[i].0
  }

  predicate UniqueKeys(es: Entries) {
    forall i, j :: 0 <= i < j < |es| ==> es[i].0 != es[j].0
  }

  /** `$map[$k] = $v`: overwrite in place when the key exists, else append. */
  function Put(es: Entries, k: string, v: Entry): (r: Entries)
    ensures KeySet(r) == KeySet(es) + {k}
    ensures k in KeySet(es) ==> |r| == |es|
    ensures k !in KeySet(es) ==> r == es + [(k, v)]
    ensures forall i :: 0 <= i < |es| && es[i].0 != k ==> r[i] == es[i]
    ensures forall i :: 0 <= i < |r| && r[i].0 == k ==> r[i].1 == v
    ensures UniqueKeys(es) ==> UniqueKeys(r)
  {
    if k in KeySet(es) then
      var r := seq(|es|, i requires 0 <= i < |es| => if es[i].0 == k then (k, v) else es[i]);
      assert KeySet(r) == KeySet(es) by {
        forall x | x in KeySet(es) ensures x in KeySet(r) {
          var i :| 0 <= i < |es| && es[i].0 == x;
          assert r[i].0 == x;
        }
      }
      r
    else
      var r := es + [(k, v)];
      assert KeySet(r) == KeySet(es) + {k} by {
        assert r[|es|].0 == k;
        forall x | x in KeySet(es) ensures x in KeySet(r) {
          var i :| 0 <= i < |es| && es[i].0 == x;
          assert r[i].0 == x;
        }
        forall x | x in KeySet(r) ensures x in KeySet(es) + {k} {
          var i :| 0 <= i < |r| && r[i].0 == x;
          if i < |es| { assert es[i].0 == x; }
        }
      }
      r
  }

  /** What the first loop of `where()` collects: operators, combiners and extras stay positional. */
  datatype Collected = Collected(ops: seq<string>, combs: seq<string>, extras: seq<Option<string>>, entries: Entries)

  predicate WellFormed(c: Collected) {
    |c.ops| == |c.combs| == |c.extras| && |c.entries| <= |c.ops| && UniqueKeys(c.entries)
  }

  /** One row of the first loop; None when its operator is missing or empty. */
  function CollectRow(c: Collected, row: CondRow): (r: Option<Collected>)
    ensures r.None? <==> EmptyOpt(At(row, 1))
    ensures r.Some? && WellFormed(c) ==> WellFormed(r.value) && |r.value.ops| == |c.ops| + 1
  {
    if EmptyOpt(At(row, 1)) then None
    else
      var op := At(row, 1).value;
      var c' := c.(ops := c.ops + [op], combs := c.combs + [Or(At(row, 3), AND)], extras := c.extras + [At(row, 4)]);
      if Upper(op) == "IN" then
        Some(c'.(entries := Put(c.entries, StrOf(At(row, 0)), Items(row[2..]))))
      else
        Some(c'.(entries := Put(c.entries, Or(At(row, 0), "1"), Scalar(Or(At(row, 2), "")))))
  }

  const NoneCollected := Collected([], [], [], [])

  /** The first loop of `where()` over all rows, as a fold over the prefixes. */
  function Collect(rows: seq<CondRow>): (r: Option<Collected>)
    ensures r.Some? ==> WellFormed(r.value) && |r.value.ops| == |rows|
  {
    if |rows| == 0 then Some(NoneCollected)
    else match Collect(rows[..|rows| - 1])
      case None => None
      case Some(c) => CollectRow(c, rows[|rows| - 1])
  }

  /** Once a row is refused, the whole input is. */
  lemma {:induction false} CollectRefusalPersists(rows: seq<CondRow>, k: nat)
    requires k <= |rows| && Collect(rows[..k]) == None
    ensures Collect(rows) == None
    decreases |rows| - k
  {
    if k < |rows| {
      assert rows[..k + 1][..k] == rows[..k];
      CollectRefusalPersists(rows, k + 1);
    } else {
      assert rows[..k] == rows;
    }
  }

  /** Collect refuses exactly when some row has a missing or empty operator. */
  lemma {:induction false} CollectRefuses(rows: seq<CondRow>)
    ensures Collect(rows).None? <==> exists i :: 0 <= i < |rows| && EmptyOpt(At(rows[i], 1))
    decreases |rows|
  {
    if |rows| > 0 {
      var init := rows[..|rows| - 1];
      CollectRefuses(init);
      if exists i :: 0 <= i < |init| && EmptyOpt(At(init[i], 1)) {
        var i :| 0 <= i < |init| && EmptyOpt(At(init[i], 1));
        assert rows[i] == init[i];
      }
      if exists i :: 0 <= i < |rows| && EmptyOpt(At(rows[i], 1)) {
        var i :| 0 <= i < |rows| && EmptyOpt(At(rows[i], 1));
        if i < |init| { assert init[i] == rows[i]; }
      }
    }
  }

  // ---------------------------------------------------------------------
  // Phase 2: compiling the entries

  /** The combiner used after a condition. */
  function CombineWith(comb: string, extra: Option<string>): (r: string)
    ensures r in Combiners || (extra.Some? && r == comb)
    ensures extra.None? && Upper(comb) !in Combiners ==> r == AND
    ensures extra.None? && Upper(comb) in Combiners ==> r == Upper(comb)
  {
    if Upper(comb) in Combiners || extra.Some? then
      (if extra.Some? then comb else Upper(comb))
    else AND
  }

  /** The combiner a BETWEEN condition passes on: its extra, uppercased when valid. */
  function NextCombiner(extra: Option<string>): (r: string)
    ensures r in Combiners
  {
    if Upper(StrOf(extra)) in Combiners then Upper(StrOf(extra)) else AND
  }

  predicate Wildcard(v: string) {
    '_' in v || '%' in v || '?' in v
  }

  function EntryParam(e: Entry): Param {
    if e.Scalar? then TextParam(e.s) else ListParam(e.xs)
  }

  function ItemParam(x: Option<string>): Param {
    if x.Some? then TextParam(x.value) else NullParam
  }

  function ItemParams(xs: seq<Option<string>>): (r: seq<Param>)
    ensures |r| == |xs|
  {
    seq(|xs|, i requires 0 <= i < |xs| => ItemParam(xs[i]))
  }

  function ItemTok(x: Option<string>, prepare: bool, esc: string -> string): Tok {
    if prepare then Tag else Lit(Quote(esc(StrOf(x))))
  }

  lemma ItemParamsSnoc(ys: seq<Option<string>>, x: Option<string>)
    ensures ItemParams(ys + [x]) == ItemParams(ys) + [ItemParam(x)]
  {
  }

  /** The items of an IN list separated by ", ". */
  function InJoined(xs: seq<Option<string>>, prepare: bool, esc: string -> string): seq<Tok> {
    if |xs| == 0 then []
    else if |xs| == 1 then [ItemTok(xs[0], prepare, esc)]
    else InJoined(xs[..|xs| - 1], prepare, esc) + [Lit(", "), ItemTok(xs[|xs| - 1], prepare, esc)]
  }

  /** What one entry compiles to: tokens, pushed parameters and the combiner, or a stop. */
  datatype Piece = Emit(toks: seq<Tok>, pushed: seq<Param>, cw: string) | Stop(value: ClauseValue, pushed: seq<Param>)

  function CompilePiece(key: string, val: Entry, op: string, comb: string, extra: Option<string>,
                        prepare: bool, esc: string -> string): (r: Piece)
    ensures r.Stop? && r.value == Refused ==> (r.pushed == [NullParam] <==> Upper(op) !in Operators)
    ensures r.Stop? && r.value == Refused && r.pushed == [] ==>
      (Upper(op) == "LIKE" || Upper(op) == "NOT LIKE") && val.Scalar? && !Wildcard(val.s)
    ensures r.Stop? && r.value == Thrown ==> r.pushed == [] && val.Items?
    ensures r.Stop? ==> r.value != Thrown || Upper(op) != "IN"
    ensures r.Stop? ==> !r.value.Clause?
    ensures r.Emit? && !prepare ==> r.pushed == [] && NoTags(r.toks)
  {
    var cond := Upper(op);
    var cw := CombineWith(comb, extra);
    if cond !in Operators then Stop(Refused, [NullParam])
    else if cond == "BETWEEN" || cond == "NOT BETWEEN" then BetweenPiece(key, val, cond, cw, NextCombiner(extra), prepare, esc)
    else if cond == "IN" then InPiece(key, if val.Items? then val.xs else [], cw, prepare, esc)
    else if val.Items? then Stop(Thrown, [])
    else ComparePiece(key, val.s, cond, cw, prepare, esc)
  }

  /** BETWEEN and NOT BETWEEN: the value and the combiner slot are the two bounds. */
  function BetweenPiece(key: string, val: Entry, cond: string, cw: string, my: string, prepare: bool, esc: string -> string): (r: Piece)
    ensures r.Stop? ==> r == Stop(Thrown, []) && val.Items?
    ensures r.Emit? && !prepare ==> r.pushed == [] && NoTags(r.toks)
  {
    if prepare then
      Emit([Lit(key + " " + cond + " "), Tag, Lit(" AND "), Tag, Lit(" " + my + " ")], [EntryParam(val), TextParam(cw)], my)
    else if val.Items? then Stop(Thrown, [])
    else Emit([Lit(key + " " + cond + " " + Quote(esc(val.s)) + " AND " + Quote(esc(cw)) + " " + my + " ")], [], my)
  }

  /** IN: one item per element of the sliced list; a plain value counts as an empty list. */
  function InPiece(key: string, xs: seq<Option<string>>, cw: string, prepare: bool, esc: string -> string): (r: Piece)
    ensures r.Emit? && (!prepare ==> r.pushed == [] && NoTags(r.toks))
  {
    InJoinedLiterals(xs, prepare, esc);
    Emit([Lit(key + " IN ( ")] + InJoined(xs, prepare, esc) + [Lit(" ) " + cw + " ")],
         if prepare then ItemParams(xs) else [], cw)
  }

  /** The remaining operators on a plain value: IS [NOT] NULL, LIKE, and the comparisons. */
  function ComparePiece(key: string, v: string, cond: string, cw: string, prepare: bool, esc: string -> string): (r: Piece)
    ensures r.Stop? ==> r == Stop(Refused, []) && (cond == "LIKE" || cond == "NOT LIKE") && !Wildcard(v)
    ensures r.Emit? && !prepare ==> r.pushed == [] && NoTags(r.toks)
  {
    if Lower(v) == "null" || cond == "IS" || cond == "IS NOT" then
      Emit([Lit(key + " " + (if cond == "IS" || cond == "IS NOT" then cond else "IS") + " NULL " + cw + " ")], [], cw)
    else if (cond == "LIKE" || cond == "NOT LIKE") && !Wildcard(v) then Stop(Refused, [])
    else ValuePiece(key, v, cond, cw, prepare, esc)
  }

  /** A comparison with one value: a placeholder and the value pushed, or the quoted value. */
  function ValuePiece(key: string, v: string, cond: string, cw: string, prepare: bool, esc: string -> string): (r: Piece)
    ensures r.Emit? && (!prepare ==> r.pushed == [] && NoTags(r.toks))
  {
    if prepare then Emit([Lit(key + " " + cond + " "), Tag, Lit(" " + cw + " ")], [TextParam(v)], cw)
    else Emit([Lit(key + " " + cond + " " + Quote(esc(v)) + " " + cw + " ")], [], cw)
  }

  lemma {:induction false} InJoinedLiterals(xs: seq<Option<string>>, prepare: bool, esc: string -> string)
    ensures !prepare ==> NoTags(InJoined(xs, prepare, esc))
    decreases |xs|
  {
    if |xs| > 1 {
      InJoinedLiterals(xs[..|xs| - 1], prepare, esc);
    }
  }

  /** An IN list has one placeholder per item in prepared mode. */
  lemma {:induction false} InJoinedTags(xs: seq<Option<string>>, esc: string -> string)
    ensures Tags(InJoined(xs, true, esc)) == |xs|
    decreases |xs|
  {
    if |xs| > 1 {
      var init := xs[..|xs| - 1];
      InJoinedTags(init, esc);
      var t := [Lit(", "), Tag];
      assert Tags(t) == 1 by { assert t[..1] == [Lit(", ")]; }
      TagsAppend(InJoined(init, true, esc), t);
    }
  }

  /** Adding one item to an IN list adds a separator and that item's text. */
  lemma InJoinedSnoc(ys: seq<Option<string>>, x: Option<string>, prepare: bool, esc: string -> string)
    ensures Render(InJoined(ys + [x], prepare, esc)) ==
      (if |ys| == 0 then "" else Render(InJoined(ys, prepare, esc)) + ", ") + TokText(ItemTok(x, prepare, esc))
  {
    var xs := ys + [x];
    var t := ItemTok(x, prepare, esc);
    if |ys| == 0 {
      assert InJoined(xs, prepare, esc) == [] + [t] by {
        assert xs == [x];
      }
      RenderSnoc([], t);
    } else {
      var j := InJoined(ys, prepare, esc);
      assert InJoined(xs, prepare, esc) == j + [Lit(", ")] + [t] by {
        assert xs[..|xs| - 1] == ys && xs[|xs| - 1] == x;
      }
      RenderSnoc(j, Lit(", "));
      RenderSnoc(j + [Lit(", ")], t);
    }
  }

  /** The IN list as the loop of where() builds it: every item followed by ", ". */
  function InItems(xs: seq<Option<string>>, prepare: bool, esc: string -> string): string {
    if |xs| == 0 then ""
    else InItems(xs[..|xs| - 1], prepare, esc) + TokText(ItemTok(xs[|xs| - 1], prepare, esc)) + ", "
  }

  /** One more item of a prefix: its text and, in prepared mode, its parameter. */
  lemma InItemsStep(xs: seq<Option<string>>, i: nat, prepare: bool, esc: string -> string)
    requires i < |xs|
    ensures InItems(xs[..i + 1], prepare, esc) == InItems(xs[..i], prepare, esc) + TokText(ItemTok(xs[i], prepare, esc)) + ", "
    ensures ItemParams(xs[..i + 1]) == ItemParams(xs[..i]) + [ItemParam(xs[i])]
  {
    assert xs[..i + 1][..i] == xs[..i];
  }

  /** The loop's text is the joined list with one trailing separator. */
  lemma {:induction false} InItemsJoined(xs: seq<Option<string>>, prepare: bool, esc: string -> string)
    ensures InItems(xs, prepare, esc) == if |xs| == 0 then "" else Render(InJoined(xs, prepare, esc)) + ", "
    decreases |xs|
  {
    if |xs| > 0 {
      var init := xs[..|xs| - 1];
      var x := xs[|xs| - 1];
      var t := TokText(ItemTok(x, prepare, esc));
      var j := if |init| == 0 then "" else Render(InJoined(init, prepare, esc)) + ", ";
      assert InItems(init, prepare, esc) == j by {
        InItemsJoined(init, prepare, esc);
      }
      assert Render(InJoined(xs, prepare, esc)) == j + t by {
        assert init + [x] == xs;
        InJoinedSnoc(init, x, prepare, esc);
      }
    }
  }

  /** The text of a non-empty IN list ends in a character that is neither a comma nor a space. */
  lemma {:induction false} InJoinedLast(xs: seq<Option<string>>, prepare: bool, esc: string -> string)
    requires |xs| > 0
    ensures var t := Render(InJoined(xs, prepare, esc)); |t| > 0 && t[|t| - 1] !in CharSet(", ")
  {
    var ys := xs[..|xs| - 1];
    assert ys + [xs[|xs| - 1]] == xs;
    InJoinedSnoc(ys, xs[|xs| - 1], prepare, esc);
  }

  /** The text of an IN piece is its head, the joined items and its tail. */
  lemma InText(key: string, xs: seq<Option<string>>, cw: string, prepare: bool, esc: string -> string)
    ensures Render(InPiece(key, xs, cw, prepare, esc).toks) ==
      key + " IN ( " + Render(InJoined(xs, prepare, esc)) + " ) " + cw + " "
  {
    var head := [Lit(key + " IN ( ")];
    var tail := [Lit(" ) " + cw + " ")];
    Shape1(key + " IN ( ", esc);
    Shape1(" ) " + cw + " ", esc);
    RenderAppend(head, InJoined(xs, prepare, esc));
    RenderAppend(head + InJoined(xs, prepare, esc), tail);
    var x := key + " IN ( " + Render(InJoined(xs, prepare, esc));
    AppendAssoc(x, " ) " + cw, " ");
    AppendAssoc(x, " ) ", cw);
  }

  /** A separator and one placeholder, filled with one parameter. */
  lemma SeparatorFill(p: Param, esc: string -> string)
    ensures Tags([Lit(", "), Tag]) == 1
    ensures Fill([Lit(", "), Tag], [p], esc) == ", " + InlineOf(p, esc)
  {
    var t := [Lit(", "), Tag];
    assert t[..1] == [Lit(", ")];
    assert [p][..0] == [];
    assert [Lit(", ")][..0] == [];
    assert Tags([Lit(", ")]) == 0;
    assert Fill([Lit(", ")], [], esc) == ", ";
    assert Fill(t, [p], esc) == Fill([Lit(", ")], [], esc) + InlineOf(p, esc);
  }

  /** Filling the placeholders of a prepared IN list gives the inline IN list. */
  lemma {:induction false} InJoinedFill(xs: seq<Option<string>>, esc: string -> string)
    ensures Tags(InJoined(xs, true, esc)) == |ItemParams(xs)|
    ensures Fill(InJoined(xs, true, esc), ItemParams(xs), esc) == Render(InJoined(xs, false, esc))
    decreases |xs|
  {
    InJoinedTags(xs, esc);
    if |xs| == 1 {
      assert Fill([Tag], [ItemParam(xs[0])], esc) == InlineOf(ItemParam(xs[0]), esc);
    } else if |xs| > 1 {
      var init := xs[..|xs| - 1];
      var x := xs[|xs| - 1];
      var a := InJoined(init, true, esc);
      var pa := ItemParams(init);
      var p := ItemParam(x);
      assert Tags(a) == |pa| && Fill(a, pa, esc) == Render(InJoined(init, false, esc)) by {
        InJoinedFill(init, esc);
      }
      assert ItemParams(xs) == pa + [p] by {
        assert init + [x] == xs;
        ItemParamsSnoc(init, x);
      }
      assert Fill(InJoined(xs, true, esc), pa + [p], esc) == Fill(a, pa, esc) + (", " + InlineOf(p, esc)) by {
        SeparatorFill(p, esc);
        FillAppend(a, pa, [Lit(", "), Tag], [p], esc);
      }
      assert Render(InJoined(xs, false, esc)) == Render(InJoined(init, false, esc)) + ", " + InlineOf(p, esc) by {
        assert init + [x] == xs;
        InJoinedSnoc(init, x, false, esc);
      }
      AppendAssoc(Fill(a, pa, esc), ", ", InlineOf(p, esc));
    }
  }

  /** One literal token. */
  lemma Shape1(a: string, esc: string -> string)
    ensures Tags([Lit(a)]) == 0 && Render([Lit(a)]) == a && Fill([Lit(a)], [], esc) == a
  {
    assert [Lit(a)][..0] == [];
  }

  /** A literal, a placeholder and a literal. */
  lemma Shape3(a: string, b: string, p: Param, esc: string -> string)
    ensures var t := [Lit(a), Tag, Lit(b)];
      Tags(t) == 1 && Render(t) == a + TAG + b && Fill(t, [p], esc) == a + InlineOf(p, esc) + b
  {
    var t := [Lit(a), Tag, Lit(b)];
    Shape1(a, esc);
    assert t[..2] == [Lit(a), Tag];
    assert t[..2][..1] == [Lit(a)];
    assert [p][..0] == [];
    assert Tags(t[..2]) == 1;
    assert Render(t[..2]) == a + TAG;
    assert Fill(t[..2], [p], esc) == a + InlineOf(p, esc);
  }

  /** A literal, a placeholder, a literal, a placeholder and a literal. */
  lemma Shape5(a: string, b: string, c: string, p: Param, q: Param, esc: string -> string)
    ensures var t := [Lit(a), Tag, Lit(b), Tag, Lit(c)];
      && Tags(t) == 2 && Render(t) == a + TAG + b + TAG + c
      && Fill(t, [p, q], esc) == a + InlineOf(p, esc) + b + InlineOf(q, esc) + c
  {
    var t := [Lit(a), Tag, Lit(b), Tag, Lit(c)];
    Shape3(a, b, p, esc);
    assert t[..4] == [Lit(a), Tag, Lit(b), Tag];
    assert t[..4][..3] == [Lit(a), Tag, Lit(b)];
    assert [p, q][..1] == [p];
    assert Tags(t[..4]) == 2;
    assert Render(t[..4]) == a + TAG + b + TAG;
    assert Fill(t[..4], [p, q], esc) == a + InlineOf(p, esc) + b + InlineOf(q, esc);
  }

  /** Per branch, prepared mode pushes: two values, one per IN item, none for IS [NOT] NULL, one otherwise. */
  lemma PlaceholderCounts(key: string, val: Entry, op: string, comb: string, extra: Option<string>, esc: string -> string)
    ensures var r := CompilePiece(key, val, op, comb, extra, true, esc);
      && (Upper(op) == "BETWEEN" || Upper(op) == "NOT BETWEEN" ==>
            r.Emit? && r.pushed == [EntryParam(val), TextParam(CombineWith(comb, extra))])
      && (Upper(op) == "IN" ==> r.Emit? && r.pushed == ItemParams(if val.Items? then val.xs else []))
      && (r.Emit? && (Upper(op) == "IS" || Upper(op) == "IS NOT") ==> r.pushed == [])
      && (val.Scalar? && Upper(op) in Operators - {"BETWEEN", "NOT BETWEEN", "IN", "IS", "IS NOT"} &&
          Lower(val.s) != "null" && (Wildcard(val.s) || (Upper(op) != "LIKE" && Upper(op) != "NOT LIKE")) ==>
            r.Emit? && r.pushed == [TextParam(val.s)])
  {
  }

  /** In prepared mode a piece carries exactly as many placeholders as it pushes parameters. */
  lemma PieceTags(key: string, val: Entry, op: string, comb: string, extra: Option<string>, esc: string -> string)
    ensures var r := CompilePiece(key, val, op, comb, extra, true, esc);
      r.Emit? ==> Tags(r.toks) == |r.pushed|
  {
    var cond := Upper(op);
    var cw := CombineWith(comb, extra);
    var r := CompilePiece(key, val, op, comb, extra, true, esc);
    if cond !in Operators {
    } else if cond == "BETWEEN" || cond == "NOT BETWEEN" {
      var my := NextCombiner(extra);
      Shape5(key + " " + cond + " ", " AND ", " " + my + " ", EntryParam(val), TextParam(cw), esc);
      assert r.toks == [Lit(key + " " + cond + " "), Tag, Lit(" AND "), Tag, Lit(" " + my + " ")];
    } else if cond == "IN" {
      var xs := if val.Items? then val.xs else [];
      InJoinedTags(xs, esc);
      Shape1(key + " IN ( ", esc);
      Shape1(" ) " + cw + " ", esc);
      TagsAppend([Lit(key + " IN ( ")], InJoined(xs, true, esc));
      TagsAppend([Lit(key + " IN ( ")] + InJoined(xs, true, esc), [Lit(" ) " + cw + " ")]);
    } else if val.Items? {
    } else if Lower(val.s) == "null" || cond == "IS" || cond == "IS NOT" {
      Shape1(key + " " + (if cond == "IS" || cond == "IS NOT" then cond else "IS") + " NULL " + cw + " ", esc);
    } else if (cond == "LIKE" || cond == "NOT LIKE") && !Wildcard(val.s) {
    } else {
      Shape3(key + " " + cond + " ", " " + cw + " ", TextParam(val.s), esc);
      assert r.toks == [Lit(key + " " + cond + " "), Tag, Lit(" " + cw + " ")];
    }
  }

  /** Filling a prepared piece's placeholders with its parameters gives the inline piece. */
  lemma PieceFill(key: string, val: Entry, op: string, comb: string, extra: Option<string>, esc: string -> string)
    requires CompilePiece(key, val, op, comb, extra, false, esc).Emit?
    ensures var p := CompilePiece(key, val, op, comb, extra, true, esc);
      var i := CompilePiece(key, val, op, comb, extra, false, esc);
      && p.Emit? && Tags(p.toks) == |p.pushed| && i.pushed == []
      && Fill(p.toks, p.pushed, esc) == Render(i.toks) && p.cw == i.cw
  {
    PieceTags(key, val, op, comb, extra, esc);
    var cond := Upper(op);
    if cond == "BETWEEN" || cond == "NOT BETWEEN" {
      BetweenFill(key, val.s, cond, CombineWith(comb, extra), NextCombiner(extra), esc);
    } else if cond == "IN" {
      InFill(key, if val.Items? then val.xs else [], CombineWith(comb, extra), esc);
    } else if Lower(val.s) == "null" || cond == "IS" || cond == "IS NOT" {
      Shape1(key + " " + (if cond == "IS" || cond == "IS NOT" then cond else "IS") + " NULL " + CombineWith(comb, extra) + " ", esc);
    } else {
      DefaultFill(key, val.s, cond, CombineWith(comb, extra), esc);
    }
  }

  lemma BetweenFill(key: string, v: string, cond: string, cw: string, my: string, esc: string -> string)
    ensures var t := [Lit(key + " " + cond + " "), Tag, Lit(" AND "), Tag, Lit(" " + my + " ")];
      Tags(t) == 2 &&
      Fill(t, [TextParam(v), TextParam(cw)], esc) == Render([Lit(key + " " + cond + " " + Quote(esc(v)) + " AND " + Quote(esc(cw)) + " " + my + " ")])
  {
    Shape5(key + " " + cond + " ", " AND ", " " + my + " ", TextParam(v), TextParam(cw), esc);
    Shape1(key + " " + cond + " " + Quote(esc(v)) + " AND " + Quote(esc(cw)) + " " + my + " ", esc);
  }

  lemma DefaultFill(key: string, v: string, cond: string, cw: string, esc: string -> string)
    ensures var t := [Lit(key + " " + cond + " "), Tag, Lit(" " + cw + " ")];
      Tags(t) == 1 &&
      Fill(t, [TextParam(v)], esc) == Render([Lit(key + " " + cond + " " + Quote(esc(v)) + " " + cw + " ")])
  {
    Shape3(key + " " + cond + " ", " " + cw + " ", TextParam(v), esc);
    Shape1(key + " " + cond + " " + Quote(esc(v)) + " " + cw + " ", esc);
  }

  lemma InFill(key: string, xs: seq<Option<string>>, cw: string, esc: string -> string)
    ensures var head := [Lit(key + " IN ( ")];
      var tail := [Lit(" ) " + cw + " ")];
      Tags(head + InJoined(xs, true, esc) + tail) == |ItemParams(xs)| &&
      Fill(head + InJoined(xs, true, esc) + tail, ItemParams(xs), esc) == Render(head + InJoined(xs, false, esc) + tail)
  {
    var head := [Lit(key + " IN ( ")];
    var tail := [Lit(" ) " + cw + " ")];
    InJoinedFill(xs, esc);
    Shape1(key + " IN ( ", esc);
    Shape1(" ) " + cw + " ", esc);
    FillAppend(head, [], InJoined(xs, true, esc), ItemParams(xs), esc);
    FillAppend(head + InJoined(xs, true, esc), [] + ItemParams(xs), tail, [], esc);
    assert [] + ItemParams(xs) + [] == ItemParams(xs);
    RenderAppend(head, InJoined(xs, false, esc));
    RenderAppend(head + InJoined(xs, false, esc), tail);
  }

  // ---------------------------------------------------------------------
  // The second loop over the collected entries

  datatype Progress = Running(toks: seq<Tok>, pushed: seq<Param>, cw: string) | Stopped(value: ClauseValue, pushed: seq<Param>)

  function PieceAt(c: Collected, i: nat, prepare: bool, esc: string -> string): Piece
    requires WellFormed(c) && i < |c.entries|
  {
    CompilePiece(c.entries[i].0, c.entries[i].1, c.ops[i], c.combs[i], c.extras[i], prepare, esc)
  }

  /** The second loop of `where()` after its first `n` entries. */
  function CompileUpTo(c: Collected, n: nat, prepare: bool, esc: string -> string): Progress
    requires WellFormed(c) && n <= |c.entries|
  {
    if n == 0 then Running([], [], AND)
    else match CompileUpTo(c, n - 1, prepare, esc)
      case Stopped(v, p) => Stopped(v, p)
      case Running(t, p, _) =>
        match PieceAt(c, n - 1, prepare, esc)
        case Stop(v, q) => Stopped(v, p + q)
        case Emit(u, q, cw) => Running(t + u, p + q, cw)
  }

  /** The pieces of the first `n` entries, in order. */
  function Pieces(c: Collected, n: nat, prepare: bool, esc: string -> string): (ps: seq<Piece>)
    requires WellFormed(c) && n <= |c.entries|
    ensures |ps| == n
  {
    if n == 0 then [] else Pieces(c, n - 1, prepare, esc) + [PieceAt(c, n - 1, prepare, esc)]
  }

  lemma {:induction false} PiecesAt(c: Collected, n: nat, i: nat, prepare: bool, esc: string -> string)
    requires WellFormed(c) && i < n <= |c.entries|
    ensures Pieces(c, n, prepare, esc)[i] == PieceAt(c, i, prepare, esc)
    decreases n
  {
    if i < n - 1 {
      PiecesAt(c, n - 1, i, prepare, esc);
    }
  }

  /** The same loop over pieces compiled beforehand. */
  function Run(ps: seq<Piece>, n: nat): Progress
    requires n <= |ps|
  {
    if n == 0 then Running([], [], AND)
    else match Run(ps, n - 1)
      case Stopped(v, p) => Stopped(v, p)
      case Running(t, p, _) =>
        match ps[n - 1]
        case Stop(v, q) => Stopped(v, p + q)
        case Emit(u, q, cw) => Running(t + u, p + q, cw)
  }

  /** Running the loop over the entries' pieces is compiling the entries. */
  lemma RunPieces(c: Collected, n: nat, prepare: bool, esc: string -> string)
    requires WellFormed(c) && n <= |c.entries|
    ensures Run(Pieces(c, |c.entries|, prepare, esc), n) == CompileUpTo(c, n, prepare, esc)
  {
    PiecesMatch(c, n, prepare, esc);
    RunMatches(c, Pieces(c, |c.entries|, prepare, esc), n, prepare, esc);
  }

  /** The first `n` pieces of `ps` are those of the first `n` entries. */
  predicate Matches(c: Collected, ps: seq<Piece>, n: nat, prepare: bool, esc: string -> string)
    requires WellFormed(c) && n <= |c.entries| && n <= |ps|
  {
    n == 0 || (ps[n - 1] == PieceAt(c, n - 1, prepare, esc) && Matches(c, ps, n - 1, prepare, esc))
  }

  lemma {:induction false} PiecesMatch(c: Collected, n: nat, prepare: bool, esc: string -> string)
    requires WellFormed(c) && n <= |c.entries|
    ensures Matches(c, Pieces(c, |c.entries|, prepare, esc), n, prepare, esc)
  {
    if n > 0 {
      PiecesMatch(c, n - 1, prepare, esc);
      PiecesAt(c, |c.entries|, n - 1, prepare, esc);
    }
  }

  lemma {:induction false} RunMatches(c: Collected, ps: seq<Piece>, n: nat, prepare: bool, esc: string -> string)
    requires WellFormed(c) && n <= |c.entries| && n <= |ps| && Matches(c, ps, n, prepare, esc)
    ensures Run(ps, n) == CompileUpTo(c, n, prepare, esc)
  {
    if n > 0 {
      RunMatches(c, ps, n - 1, prepare, esc);
    }
  }

  lemma {:induction false} RunStopPersists(ps: seq<Piece>, k: nat, n: nat)
    requires k <= n <= |ps| && Run(ps, k).Stopped?
    ensures Run(ps, n) == Run(ps, k)
    decreases n - k
  {
    if k < n {
      RunStopPersists(ps, k, n - 1);
    }
  }

  /** Once a piece stops, the loop has returned. */
  lemma {:induction false} StopPersists(c: Collected, k: nat, n: nat, prepare: bool, esc: string -> string)
    requires WellFormed(c) && k <= n <= |c.entries| && CompileUpTo(c, k, prepare, esc).Stopped?
    ensures CompileUpTo(c, n, prepare, esc) == CompileUpTo(c, k, prepare, esc)
    decreases n - k
  {
    if k < n {
      StopPersists(c, k, n - 1, prepare, esc);
    }
  }

  /** The loop stopped at entry `k`, with what the earlier entries pushed plus what entry `k` pushed. */
  predicate StoppedAt(c: Collected, k: nat, prepare: bool, esc: string -> string, s: Progress)
    requires WellFormed(c) && k < |c.entries|
  {
    && CompileUpTo(c, k, prepare, esc).Running?
    && PieceAt(c, k, prepare, esc).Stop?
    && s == Stopped(PieceAt(c, k, prepare, esc).value, CompileUpTo(c, k, prepare, esc).pushed + PieceAt(c, k, prepare, esc).pushed)
  }

  lemma {:induction false} StopCause(c: Collected, n: nat, prepare: bool, esc: string -> string)
    requires WellFormed(c) && n <= |c.entries| && CompileUpTo(c, n, prepare, esc).Stopped?
    ensures exists k :: 0 <= k < n && StoppedAt(c, k, prepare, esc, CompileUpTo(c, n, prepare, esc))
  {
    if CompileUpTo(c, n - 1, prepare, esc).Stopped? {
      StopCause(c, n - 1, prepare, esc);
      var k :| 0 <= k < n - 1 && StoppedAt(c, k, prepare, esc, CompileUpTo(c, n - 1, prepare, esc));
      assert StoppedAt(c, k, prepare, esc, CompileUpTo(c, n, prepare, esc));
    } else {
      assert StoppedAt(c, n - 1, prepare, esc, CompileUpTo(c, n, prepare, esc));
    }
  }

  /** A prepared compilation that runs to the end has pushed one parameter per placeholder. */
  lemma {:induction false} CompileTags(c: Collected, n: nat, esc: string -> string)
    requires WellFormed(c) && n <= |c.entries| && CompileUpTo(c, n, true, esc).Running?
    ensures Tags(CompileUpTo(c, n, true, esc).toks) == |CompileUpTo(c, n, true, esc).pushed|
  {
    if n > 0 {
      CompileTags(c, n - 1, esc);
      var prev := CompileUpTo(c, n - 1, true, esc);
      var e := c.entries[n - 1];
      PieceTags(e.0, e.1, c.ops[n - 1], c.combs[n - 1], c.extras[n - 1], esc);
      TagsAppend(prev.toks, PieceAt(c, n - 1, true, esc).toks);
    }
  }

  /**
   * Prepared and inline compilation agree: when the inline one runs to the
   * end, so does the prepared one, and filling its placeholders, in order,
   * with the parameters it pushed gives the inline text.
   */
  lemma {:induction false} CompileFill(c: Collected, n: nat, esc: string -> string)
    requires WellFormed(c) && n <= |c.entries| && CompileUpTo(c, n, false, esc).Running?
    ensures var p := CompileUpTo(c, n, true, esc);
      var i := CompileUpTo(c, n, false, esc);
      && p.Running? && Tags(p.toks) == |p.pushed| && i.pushed == []
      && Fill(p.toks, p.pushed, esc) == Render(i.toks) && p.cw == i.cw
  {
    if n == 0 {
      assert Render([]) == "";
    } else {
      CompileFill(c, n - 1, esc);
      var p := CompileUpTo(c, n - 1, true, esc);
      var i := CompileUpTo(c, n - 1, false, esc);
      var e := c.entries[n - 1];
      PieceFill(e.0, e.1, c.ops[n - 1], c.combs[n - 1], c.extras[n - 1], esc);
      var pp := PieceAt(c, n - 1, true, esc);
      var ip := PieceAt(c, n - 1, false, esc);
      FillAppend(p.toks, p.pushed, pp.toks, pp.pushed, esc);
      RenderAppend(i.toks, ip.toks);
    }
  }

  // ---------------------------------------------------------------------
  // The whole of where()

  /**
   * How `where()` ends when every entry compiled: one space when the text is
   * loosely equal to '1' (PHP 8's `!=` reads "01" or "1.0" as 1), otherwise
   * the text wrapped in the clause word and spaces.
   */
  function Finish(word: string, t: string): (r: ClauseValue)
    ensures r.Clause?
    ensures r.text == " " <==> LooseOne(t)
    ensures !LooseOne(t) ==> r.text == " " + word + " " + t + " "
  {
    if LooseOne(t) then Clause(" ") else Clause(" " + word + " " + t + " ")
  }

  /** A text that reads as the number 1 with leading zeros ("01", "001") also ends as one space. */
  lemma FinishLeadingZeros(word: string, z: nat)
    ensures Finish(word, seq(z, _ => '0') + "1") == Clause(" ")
  {
    LooseOneZeros(z, false);
    assert "" + seq(z, _ => '0') + "1" == seq(z, _ => '0') + "1";
  }

  /**
   * A combiner written as a range, such as "A..Z", trims every trailing
   * character of the range, not just the characters it spells.
   */
  lemma RangeCombinerTrim(t: string, lo: char, hi: char)
    requires lo <= hi && lo != '.'
    ensures var r := RTrim(t, CharMask(" " + [lo, '.', '.', hi] + " "));
      r == [] || !(r[|r| - 1] == ' ' || lo <= r[|r| - 1] <= hi)
  {
    assert " " + [lo, '.', '.', hi] + " " == [' ', lo, '.', '.', hi, ' '];
    CharMaskRange(lo, hi);
  }

  datatype Compiled = Compiled(value: ClauseValue, pushed: seq<Param>)

  /** The two loops of `where()` on rows, and the final trim with the last combiner. */
  function CompileRows(word: string, rows: seq<CondRow>, prepare: bool, esc: string -> string): Compiled {
    match Collect(rows)
    case None => Compiled(Refused, [NullParam])
    case Some(c) => CompileCollected(word, c, prepare, esc)
  }

  /** The second loop and the final trim, or one space when some condition had no key. */
  function CompileCollected(word: string, c: Collected, prepare: bool, esc: string -> string): Compiled
    requires WellFormed(c)
  {
    if "1" in KeySet(c.entries) then Compiled(Clause(" "), [])
    else match CompileUpTo(c, |c.entries|, prepare, esc)
      case Stopped(v, p) => Compiled(v, p)
      case Running(t, p, cw) => Compiled(Finish(word, RTrim(Render(t), CharMask(" " + cw + " "))), p)
  }

  /** `explode('  ', $text)` for each text: every slot present. */
  function FragmentRows(ts: seq<string>): (rows: seq<CondRow>)
    ensures |rows| == |ts|
  {
    seq(|ts|, k requires 0 <= k < |ts| =>
      var parts := Explode(ts[k], "  ");
      seq(|parts|, i requires 0 <= i < |parts| => Some(parts[i])))
  }

  function Word(iswhere: bool): string {
    if iswhere then "WHERE" else "HAVING"
  }

  /**
   * `where(...)`: what it returns and what it appends to the prepared
   * parameters, given the `iswhere` flag and the prepare mode on entry.
   */
  function WhereClause(iswhere: bool, prepare: bool, esc: string -> string, input: Conditions): (r: Compiled)
    ensures input == Fragments([]) || input == Tuples([]) ==> r == Compiled(Clause(""), [])
    ensures input.Fragments? && |input.texts| > 0 && (Contains(input.texts[0], "WHERE") || Contains(input.texts[0], "HAVING")) ==>
      r == Compiled(Clause(input.texts[0]), [])
  {
    match input
    case Fragments(ts) =>
      if |ts| == 0 then Compiled(Clause(""), [])
      else if Contains(ts[0], "WHERE") || Contains(ts[0], "HAVING") then Compiled(Clause(ts[0]), [])
      else CompileRows(Word(iswhere), FragmentRows(ts), prepare, esc)
    case Tuples(rows) =>
      if |rows| == 0 then Compiled(Clause(""), [])
      else CompileRows(Word(iswhere), rows, prepare, esc)
  }

}
