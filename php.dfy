/**
 * The few PHP string built-ins the library relies on, written out with the
 * semantics PHP 8 gives them on byte strings (ASCII case mapping, no locale).
 */
module Php {

  datatype Option<+T> = None | Some(value: T)

  /** PHP's `(string)` view of a possibly-null value: null becomes "". */
  function StrOf(o: Option<string>): string {
    if o.Some? then o.value else ""
  }

  /** PHP's `empty()` on a string: "" and "0" are empty. */
  predicate Empty(s: string) {
    s == "" || s == "0"
  }

  /** `empty()` on a value that may be unset or null. */
  predicate EmptyOpt(o: Option<string>) {
    o.None? || Empty(o.value)
  }

  function UpperChar(c: char): char {
    if 'a' <= c <= 'z' then (c as int - 32) as char else c
  }

  function LowerChar(c: char): char {
    if 'A' <= c <= 'Z' then (c as int + 32) as char else c
  }

  /** strtoupper */
  function Upper(s: string): string {
    seq(|s|, i requires 0 <= i < |s| => UpperChar(s[i]))
  }

  /** strtolower */
  function Lower(s: string): string {
    seq(|s|, i requires 0 <= i < |s| => LowerChar(s[i]))
  }

  /** The characters of a string, as the character list of rtrim/trim when it holds no `..` range. */
  function CharSet(s: string): set<char> {
    set c | c in s
  }

  predicate Between(lo: char, c: char, hi: char) {
    lo <= c <= hi
  }

  /** The characters from `lo` to `hi`, both included (the predicate gives the comprehension its trigger). */
  function CharRange(lo: char, hi: char): (r: set<char>)
    ensures forall c :: c in r <==> Between(lo, c, hi)
  {
    set c: char | Between(lo, c, hi) && lo <= c <= hi
  }

  /**
   * The character list of rtrim/trim read from position `i` on, as PHP's
   * `php_charmask` reads it: `a..b` with `a <= b` lists every character
   * from a to b; a '.' that starts a `..` not forming such a range is
   * skipped with a warning; any other character lists itself.
   */
  function MaskFrom(s: string, i: nat): set<char>
    decreases |s| - i
  {
    if i >= |s| then {}
    else if i + 3 < |s| && s[i + 1] == '.' && s[i + 2] == '.' && s[i + 3] >= s[i] then
      CharRange(s[i], s[i + 3]) + MaskFrom(s, i + 4)
    else if i + 1 < |s| && s[i] == '.' && s[i + 1] == '.' then MaskFrom(s, i + 1)
    else {s[i]} + MaskFrom(s, i + 1)
  }

  /** The set of characters a character list given to rtrim/trim stands for. */
  function CharMask(s: string): set<char> {
    MaskFrom(s, 0)
  }

  /** Without a '.' in it, a character list stands for its own characters. */
  lemma {:induction false} MaskFromPlain(s: string, i: nat)
    requires i <= |s|
    requires forall k :: 0 <= k < |s| ==> s[k] != '.'
    ensures MaskFrom(s, i) == CharSet(s[i..])
    decreases |s| - i
  {
    if i < |s| {
      MaskFromPlain(s, i + 1);
      assert s[i..] == [s[i]] + s[i + 1..];
    }
  }

  lemma CharMaskPlain(s: string)
    requires forall k :: 0 <= k < |s| ==> s[k] != '.'
    ensures CharMask(s) == CharSet(s)
  {
    MaskFromPlain(s, 0);
    assert s[0..] == s;
  }

  /** A range in the list stands for every character between its ends: " A..Z " lists the space and A to Z. */
  lemma CharMaskRange(lo: char, hi: char)
    requires lo <= hi && lo != '.'
    ensures CharMask([' ', lo, '.', '.', hi, ' ']) == CharRange(lo, hi) + {' '}
  {
    var s := [' ', lo, '.', '.', hi, ' '];
    assert MaskFrom(s, 5) == {' '};
    assert MaskFrom(s, 1) == CharRange(lo, hi) + {' '};
  }

  predicate OccursAt(s: string, pat: string, i: nat) {
    i + |pat| <= |s| && s[i..i + |pat|] == pat
  }

  /** `strpos($s, $pat) !== false` */
  predicate Contains(s: string, pat: string) {
    exists i: nat :: i <= |s| && OccursAt(s, pat, i)
  }

  /** The first position at or after `from` where `pat` occurs. */
  function FindFrom(s: string, pat: string, from: nat): (r: Option<nat>)
    ensures r.Some? ==> from <= r.value && OccursAt(s, pat, r.value)
    ensures r.Some? ==> forall j: nat :: from <= j < r.value ==> !OccursAt(s, pat, j)
    ensures r.None? ==> forall j: nat :: from <= j ==> !OccursAt(s, pat, j)
    decreases |s| - from
  {
    if from + |pat| > |s| then None
    else if OccursAt(s, pat, from) then Some(from)
    else FindFrom(s, pat, from + 1)
  }

  /** strpos: the leftmost occurrence of `pat`. */
  function Find(s: string, pat: string): (r: Option<nat>)
    ensures r.None? <==> !Contains(s, pat)
    ensures r.Some? ==> OccursAt(s, pat, r.value)
    ensures r.Some? ==> forall j: nat :: j < r.value ==> !OccursAt(s, pat, j)
  {
    FindFrom(s, pat, 0)
  }

  /** explode($sep, $s) for a non-empty separator. */
  function Explode(s: string, sep: string): (parts: seq<string>)
    requires |sep| > 0
    ensures |parts| >= 1
    decreases |s|
  {
    match Find(s, sep)
    case None => [s]
    case Some(i) => [s[..i]] + Explode(s[i + |sep|..], sep)
  }

  /** implode($sep, $parts) */
  function Join(parts: seq<string>, sep: string): string {
    if |parts| == 0 then ""
    else if |parts| == 1 then parts[0]
    else parts[0] + sep + Join(parts[1..], sep)
  }

  /** Gluing the pieces of explode back together gives the original text. */
  lemma {:induction false} ExplodeJoin(s: string, sep: string)
    requires |sep| > 0
    ensures Join(Explode(s, sep), sep) == s
    decreases |s|
  {
    match Find(s, sep)
    case None =>
    case Some(i) =>
      var rest := s[i + |sep|..];
      var tail := Explode(rest, sep);
      ExplodeJoin(rest, sep);
      assert Explode(s, sep) == [s[..i]] + tail;
      assert ([s[..i]] + tail)[1..] == tail;
      assert Join(Explode(s, sep), sep) == s[..i] + sep + Join(tail, sep);
      assert s[i..i + |sep|] == sep;
      assert s == s[..i] + s[i..i + |sep|] + rest;
  }

  /** No piece produced by explode contains the separator. */
  lemma {:induction false} ExplodePiecesFree(s: string, sep: string)
    requires |sep| > 0
    ensures forall p :: p in Explode(s, sep) ==> !Contains(p, sep)
    decreases |s|
  {
    match Find(s, sep)
    case None =>
    case Some(i) =>
      ExplodePiecesFree(s[i + |sep|..], sep);
      var head := s[..i];
      forall j: nat | j <= |head| ensures !OccursAt(head, sep, j) {
        if OccursAt(head, sep, j) {
          assert s[j..j + |sep|] == head[j..j + |sep|];
          assert OccursAt(s, sep, j);
        }
      }
  }

  /** str_replace($pat, $rep, $s): left-to-right, non-overlapping. */
  function StrReplace(s: string, pat: string, rep: string): string
    requires |pat| > 0
    decreases |s|
  {
    match Find(s, pat)
    case None => s
    case Some(i) => s[..i] + rep + StrReplace(s[i + |pat|..], pat, rep)
  }

  /** A text split around a character the pattern lacks holds the pattern only on one side. */
  lemma SplitAround(a: string, c: char, b: string, pat: string)
    requires c !in pat
    ensures Contains(a + [c] + b, pat) ==> Contains(a, pat) || Contains(b, pat)
  {
    var s := a + [c] + b;
    if Contains(s, pat) {
      var i: nat :| i <= |s| && OccursAt(s, pat, i);
      forall k | i <= k < i + |pat| ensures s[k] in pat {
        assert s[k] == s[i..i + |pat|][k - i];
      }
      assert s[|a|] == c;
      assert i + |pat| <= |a| || i > |a|;
      if i + |pat| <= |a| {
        assert a[i..i + |pat|] == s[i..i + |pat|];
        assert OccursAt(a, pat, i);
      } else if i > |a| {
        var k: nat := i - |a| - 1;
        assert b[k..k + |pat|] == s[i..i + |pat|];
        assert OccursAt(b, pat, k);
      }
    }
  }

  /**
   * Replacing every occurrence of a pattern by a one-character text that is
   * foreign to the pattern leaves no occurrence behind.
   */
  lemma {:induction false} StrReplaceRemovesAll(s: string, pat: string, c: char)
    requires |pat| > 0 && c !in pat
    ensures !Contains(StrReplace(s, pat, [c]), pat)
    decreases |s|
  {
    match Find(s, pat)
    case None =>
    case Some(i) =>
      var rest := s[i + |pat|..];
      StrReplaceRemovesAll(rest, pat, c);
      BeforeFirstIsFree(s, pat, i);
      SplitAround(s[..i], c, StrReplace(rest, pat, [c]), pat);
  }

  /** The text before the leftmost occurrence does not hold the pattern. */
  lemma BeforeFirstIsFree(s: string, pat: string, i: nat)
    requires |pat| > 0 && i <= |s|
    requires forall j: nat :: j < i ==> !OccursAt(s, pat, j)
    ensures !Contains(s[..i], pat)
  {
    var head := s[..i];
    forall j: nat | j <= |head| ensures !OccursAt(head, pat, j) {
      if OccursAt(head, pat, j) {
        assert s[j..j + |pat|] == head[j..j + |pat|];
        assert OccursAt(s, pat, j);
      }
    }
  }

  lemma AppendAssoc<T>(a: seq<T>, b: seq<T>, c: seq<T>)
    ensures a + b + c == a + (b + c)
  {
  }

  lemma AppendEmpty<T>(a: seq<T>)
    ensures a + [] == a
  {
  }

  /** rtrim($s, $chars): drop trailing characters that belong to `cs`. */
  function RTrim(s: string, cs: set<char>): (r: string)
    ensures r <= s
    ensures r == [] || r[|r| - 1] !in cs
    ensures forall i :: |r| <= i < |s| ==> s[i] in cs
    decreases |s|
  {
    if |s| > 0 && s[|s| - 1] in cs then RTrim(s[..|s| - 1], cs) else s
  }

  /** ltrim($s, $chars) */
  function LTrim(s: string, cs: set<char>): (r: string)
    ensures |r| <= |s| && r == s[|s| - |r|..]
    ensures r == [] || r[0] !in cs
    ensures forall i :: 0 <= i < |s| - |r| ==> s[i] in cs
    decreases |s|
  {
    if |s| > 0 && s[0] in cs then LTrim(s[1..], cs) else s
  }

  /** The characters trim() removes by default. */
  const TrimChars: set<char> := {' ', '\t', '\n', '\r', '\0', '\U{0B}'}

  /** trim($s) */
  function Trim(s: string): string {
    RTrim(LTrim(s, TrimChars), TrimChars)
  }

  /** Trimming a text whose tail is made of trimmed characters stops where the tail begins. */
  lemma RTrimAppend(a: string, t: string, cs: set<char>)
    requires a != [] && a[|a| - 1] !in cs
    requires forall i :: 0 <= i < |t| ==> t[i] in cs
    ensures RTrim(a + t, cs) == a
  {
    var s := a + t;
    var r := RTrim(s, cs);
    assert s[|a| - 1] !in cs;
    assert |r| >= |a|;
    assert r == s[..|r|] == a;
  }

  function DigitChar(d: nat): char
    requires d < 10
  {
    ('0' as int + d) as char
  }

  function NatToString(n: nat): string
    decreases n
  {
    if n < 10 then [DigitChar(n)] else NatToString(n / 10) + [DigitChar(n % 10)]
  }

  /** PHP's string form of an integer. */
  function IntToString(n: int): string {
    if n < 0 then "-" + NatToString(-n) else NatToString(n)
  }

  predicate IsDigit(c: char) {
    '0' <= c <= '9'
  }

  /** The value of the longest run of decimal digits at the start of `s`. */
  function LeadingDigits(s: string, acc: nat): nat
    decreases |s|
  {
    if |s| > 0 && IsDigit(s[0]) then LeadingDigits(s[1..], acc * 10 + (s[0] as int - '0' as int))
    else acc
  }

  /** The characters PHP skips before a numeric string: space, tab, LF, CR, vertical tab, form feed. */
  const NumericSpace: set<char> := {' ', '\t', '\n', '\r', '\U{B}', '\U{C}'}

  /** The range of a 64-bit PHP integer. */
  const PhpIntMax: int := 0x7FFF_FFFF_FFFF_FFFF
  const PhpIntMin: int := -0x8000_0000_0000_0000

  /** A value brought into the integer range, as the cast caps a number too large for it. */
  function Saturate(v: int): (r: int)
    ensures PhpIntMin <= r <= PhpIntMax
    ensures PhpIntMin <= v <= PhpIntMax ==> r == v
    ensures v > PhpIntMax ==> r == PhpIntMax
    ensures v < PhpIntMin ==> r == PhpIntMin
  {
    if v > PhpIntMax then PhpIntMax else if v < PhpIntMin then PhpIntMin else v
  }

  /** The length of the run of decimal digits at the start of `s`. */
  function DigitRun(s: string): (n: nat)
    ensures n <= |s|
    ensures forall i :: 0 <= i < n ==> IsDigit(s[i])
    ensures n == |s| || !IsDigit(s[n])
    decreases |s|
  {
    if |s| > 0 && IsDigit(s[0]) then 1 + DigitRun(s[1..]) else 0
  }

  /** `m` times ten to the power `e`, truncated toward zero when `e` is negative. */
  function Scaled(m: nat, e: int): nat
    decreases if e < 0 then -e else e
  {
    if e == 0 then m
    else if e > 0 then Scaled(m * 10, e - 1)
    else Scaled(m / 10, e + 1)
  }

  function Pow10(e: nat): (r: nat)
    ensures r >= 1
  {
    if e == 0 then 1 else 10 * Pow10(e - 1)
  }

  /** A non-negative exponent multiplies by a power of ten. */
  lemma {:induction false} ScaledUp(m: nat, e: nat)
    ensures Scaled(m, e) == m * Pow10(e)
    decreases e
  {
    if e > 0 {
      ScaledUp(m * 10, e - 1);
      assert (m * 10) * Pow10(e - 1) == m * (10 * Pow10(e - 1));
    }
  }

  /** The exponent `e`/`E`, an optional sign and at least one digit at the start of `s`; 0 when there is none. */
  function Exponent(s: string): int {
    if |s| >= 2 && (s[0] == 'e' || s[0] == 'E') then
      if IsDigit(s[1]) then LeadingDigits(s[1..], 0)
      else if |s| >= 3 && s[1] == '-' && IsDigit(s[2]) then 0 - LeadingDigits(s[2..], 0) as int
      else if |s| >= 3 && s[1] == '+' && IsDigit(s[2]) then LeadingDigits(s[2..], 0)
      else 0
    else 0
  }

  /**
   * The unsigned numeric prefix of `t`, truncated toward zero: digits, then
   * optionally a '.' and more digits (one of the two runs non-empty), then
   * optionally an exponent; 0 when `t` does not start with a number.
   */
  function Magnitude(t: string): nat {
    var k := DigitRun(t);
    if k < |t| && t[k] == '.' then
      var f := t[k + 1..];
      var j := DigitRun(f);
      if k == 0 && j == 0 then 0
      else Scaled(Scaled(LeadingDigits(t, 0), j) + LeadingDigits(f, 0), Exponent(f[j..]) - j)
    else if k == 0 then 0
    else Scaled(LeadingDigits(t, 0), Exponent(t[k..]))
  }

  /**
   * The `(int)` cast of a string: leading white space skipped, an optional
   * sign, the numeric prefix truncated toward zero and capped to the
   * integer range; 0 when no number follows.
   */
  function IntVal(s: string): (r: int)
    ensures PhpIntMin <= r <= PhpIntMax
  {
    var t := LTrim(s, NumericSpace);
    if |t| > 0 && t[0] == '-' then Saturate(0 - Magnitude(t[1..]) as int)
    else if |t| > 0 && t[0] == '+' then Saturate(Magnitude(t[1..]))
    else Saturate(Magnitude(t))
  }

  /** A decimal number read exactly: `digits` times ten to the power `scale`, negated when `negative`. */
  datatype Decimal = Decimal(negative: bool, digits: nat, scale: int)

  /** An exponent that runs to the end of `s`: `e` or `E`, an optional sign and at least one digit. */
  predicate WholeExponent(s: string) {
    |s| >= 2 && (s[0] == 'e' || s[0] == 'E') &&
    var d := if s[1] == '+' || s[1] == '-' then s[2..] else s[1..];
    |d| > 0 && DigitRun(d) == |d|
  }

  /** An unsigned number that is the whole of `t`: digits, an optional '.' and digits (one run non-empty), an optional exponent. */
  function UnsignedNumber(t: string): Option<Decimal> {
    var k := DigitRun(t);
    if k < |t| && t[k] == '.' then
      var f := t[k + 1..];
      var j := DigitRun(f);
      Number(LeadingDigits(t, 0) * Pow10(j) + LeadingDigits(f, 0), j, k + j, f[j..])
    else Number(LeadingDigits(t, 0), 0, k, t[k..])
  }

  /** The digits read, the fraction's length, the length of both digit runs, and what follows them. */
  function Number(digits: nat, j: nat, runs: nat, rest: string): Option<Decimal> {
    if runs == 0 || (rest != [] && !WholeExponent(rest)) then None
    else Some(Decimal(false, digits, Exponent(rest) - j))
  }

  /**
   * The number a whole string is when PHP 8 calls it numeric: white space
   * before and after, an optional sign, then an unsigned number; None when
   * the string is not numeric.
   */
  function NumericString(s: string): Option<Decimal> {
    var t := RTrim(LTrim(s, NumericSpace), NumericSpace);
    var signed := |t| > 0 && (t[0] == '-' || t[0] == '+');
    match UnsignedNumber(if signed then t[1..] else t)
    case None => None
    case Some(d) => Some(d.(negative := signed && t[0] == '-'))
  }

  /** The value of a decimal is exactly 1. */
  predicate IsOne(d: Decimal) {
    !d.negative && if d.scale >= 0 then d.digits * Pow10(d.scale) == 1 else d.digits == Pow10(-d.scale)
  }

  /**
   * PHP 8's loose `$t == '1'` between strings: both numeric strings compare
   * as numbers, so "01", "+1", "1.0" and "10e-1" equal '1'.
   */
  predicate LooseOne(t: string) {
    t == "1" || (NumericString(t).Some? && IsOne(NumericString(t).value))
  }

  /** Leading zeros and a plus sign keep the number 1: "001" and "+01" are loosely '1'. */
  lemma LooseOneZeros(z: nat, plus: bool)
    ensures LooseOne((if plus then "+" else "") + seq(z, _ => '0') + "1")
  {
    var a := seq(z, _ => '0') + "1";
    DigitsOne(a, z);
    assert IsOne(Decimal(false, 1, 0));
    if plus {
      assert "+" + seq(z, _ => '0') + "1" == "+" + a;
      PlusNumber(a);
    } else {
      assert "" + seq(z, _ => '0') + "1" == a;
      PlainNumber(a);
    }
  }

  /** A text with no white space at its ends and no sign is read as an unsigned number. */
  lemma PlainNumber(a: string)
    requires |a| > 0 && a[0] !in NumericSpace && a[|a| - 1] !in NumericSpace && a[0] != '-' && a[0] != '+'
    ensures NumericString(a) == UnsignedNumber(a)
  {
    assert LTrim(a, NumericSpace) == a;
    assert RTrim(a, NumericSpace) == a;
    match UnsignedNumber(a)
    case None =>
    case Some(d) => assert d.negative == false by { UnsignedPositive(a); }
  }

  /** A '+' before such a text reads as the same unsigned number. */
  lemma PlusNumber(a: string)
    requires |a| > 0 && a[|a| - 1] !in NumericSpace
    ensures NumericString("+" + a) == UnsignedNumber(a)
  {
    var s := "+" + a;
    assert s[0] !in NumericSpace && s[|s| - 1] == a[|a| - 1];
    assert LTrim(s, NumericSpace) == s;
    assert RTrim(s, NumericSpace) == s;
    assert s[1..] == a;
    match UnsignedNumber(a)
    case None =>
    case Some(d) => assert d.negative == false by { UnsignedPositive(a); }
  }

  lemma UnsignedPositive(t: string)
    ensures UnsignedNumber(t).Some? ==> !UnsignedNumber(t).value.negative
  {
  }

  /** Zeros then a 1 read as the unsigned number 1. */
  lemma DigitsOne(a: string, z: nat)
    requires a == seq(z, _ => '0') + "1"
    ensures UnsignedNumber(a) == Some(Decimal(false, 1, 0))
  {
    assert forall i :: 0 <= i < |a| ==> IsDigit(a[i]);
    DigitsThenRest(a, "");
    assert a + "" == a;
    ZerosThenOne(z);
    assert a[|a|..] == [];
    assert UnsignedNumber(a) == Number(1, 0, |a|, []);
  }

  lemma {:induction false} ZerosThenOne(z: nat)
    ensures LeadingDigits(seq(z, _ => '0') + "1", 0) == 1
    decreases z
  {
    if z > 0 {
      assert (seq(z, _ => '0') + "1")[1..] == seq(z - 1, _ => '0') + "1";
      ZerosThenOne(z - 1);
    }
  }

  /** A minus sign makes the text not loosely '1', whatever follows it. */
  lemma NegativeNotOne(x: string)
    ensures !LooseOne("-" + x)
  {
    var s := "-" + x;
    assert s[0] !in NumericSpace;
    assert LTrim(s, NumericSpace) == s;
    var t := RTrim(s, NumericSpace);
    assert |t| > 0 && t[0] == '-';
  }

  /** The cast reads back every integer that PHP prints, and caps one beyond the range. */
  lemma IntValOfIntToString(n: int)
    ensures IntVal(IntToString(n)) == Saturate(n)
    ensures PhpIntMin <= n <= PhpIntMax ==> IntVal(IntToString(n)) == n
  {
    var m: nat := if n < 0 then -n else n;
    var a := NatToString(m);
    NatToStringDigits(m);
    MagnitudeOfNat(m);
    var t := IntToString(n);
    assert t[0] !in NumericSpace;
    assert LTrim(t, NumericSpace) == t;
    if n < 0 {
      assert t[1..] == a;
      assert IntVal(t) == Saturate(0 - Magnitude(a) as int);
    } else {
      assert t == a && t[0] != '-' && t[0] != '+';
      assert IntVal(t) == Saturate(Magnitude(a));
    }
  }

  /** The magnitude of a printed natural number is that number. */
  lemma MagnitudeOfNat(m: nat)
    ensures Magnitude(NatToString(m)) == m
  {
    var a := NatToString(m);
    NatToStringDigits(m);
    MagnitudeOfDigits(a, "");
    assert a + "" == a;
    NatDigitsRoundTrip(m);
  }

  /** White space before the number does not change the cast. */
  lemma IntValSkipsSpace(c: char, s: string)
    requires c in NumericSpace
    ensures IntVal([c] + s) == IntVal(s)
  {
    assert ([c] + s)[1..] == s;
    assert LTrim([c] + s, NumericSpace) == LTrim(s, NumericSpace);
  }

  /** A number written with an exponent is scaled by it: "15e2" reads as 1500. */
  lemma IntValOfExponent(m: nat, e: nat)
    ensures IntVal(NatToString(m) + "e" + NatToString(e)) == Saturate(m * Pow10(e))
  {
    var a := NatToString(m);
    var b := NatToString(e);
    NatToStringDigits(m);
    var s := a + "e" + b;
    assert s == a + ("e" + b);
    UnsignedIntVal(s);
    MagnitudeOfDigits(a, "e" + b);
    NatDigitsRoundTrip(m);
    ExponentOfNat(e);
    ScaledUp(m, e);
  }

  lemma ExponentOfNat(e: nat)
    ensures Exponent("e" + NatToString(e)) == e
  {
    var b := NatToString(e);
    NatToStringDigits(e);
    NatDigitsRoundTrip(e);
    assert ("e" + b)[1..] == b;
  }

  /** A text that starts with a digit is cast without skipping or sign. */
  lemma UnsignedIntVal(s: string)
    requires |s| > 0 && IsDigit(s[0])
    ensures IntVal(s) == Saturate(Magnitude(s))
  {
    assert s[0] !in NumericSpace;
    var t := LTrim(s, NumericSpace);
    assert t == s;
    assert t[0] != '-' && t[0] != '+';
  }

  /** Digits followed by a text that does not continue the number: the magnitude is the digits' value, scaled by an exponent in `rest`. */
  lemma MagnitudeOfDigits(a: string, rest: string)
    requires |a| > 0 && forall i :: 0 <= i < |a| ==> IsDigit(a[i])
    requires rest == [] || (!IsDigit(rest[0]) && rest[0] != '.')
    ensures Magnitude(a + rest) == Scaled(LeadingDigits(a, 0), Exponent(rest))
  {
    DigitsThenRest(a, rest);
    assert (a + rest)[|a|..] == rest;
  }

  lemma {:induction false} DigitsThenRest(a: string, rest: string)
    requires forall i :: 0 <= i < |a| ==> IsDigit(a[i])
    requires rest == [] || !IsDigit(rest[0])
    ensures DigitRun(a + rest) == |a|
    ensures forall acc: nat :: LeadingDigits(a + rest, acc) == LeadingDigits(a, acc)
    decreases |a|
  {
    if |a| == 0 {
      assert a + rest == rest;
    } else {
      assert (a + rest)[1..] == a[1..] + rest;
      DigitsThenRest(a[1..], rest);
    }
  }

  lemma {:induction false} NatToStringDigits(n: nat)
    ensures |NatToString(n)| > 0
    ensures forall i :: 0 <= i < |NatToString(n)| ==> IsDigit(NatToString(n)[i])
    decreases n
  {
    if n >= 10 { NatToStringDigits(n / 10); }
  }

  lemma {:induction false} LeadingDigitsAppend(s: string, c: char, acc: nat)
    requires forall i :: 0 <= i < |s| ==> IsDigit(s[i])
    requires IsDigit(c)
    ensures LeadingDigits(s + [c], acc) == LeadingDigits(s, acc) * 10 + (c as int - '0' as int)
    decreases |s|
  {
    if |s| == 0 {
      assert s + [c] == [c];
    } else {
      assert (s + [c])[1..] == s[1..] + [c];
      LeadingDigitsAppend(s[1..], c, acc * 10 + (s[0] as int - '0' as int));
    }
  }

  lemma {:induction false} NatDigitsRoundTrip(n: nat)
    ensures LeadingDigits(NatToString(n), 0) == n
    decreases n
  {
    if n >= 10 {
      NatDigitsRoundTrip(n / 10);
      NatToStringDigits(n / 10);
      LeadingDigitsAppend(NatToString(n / 10), DigitChar(n % 10), 0);
    }
  }
}
