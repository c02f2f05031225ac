/** Character-level string helpers shared by the backend (Python) and the
    front end (TypeScript) models: the two languages' whitespace classes,
    strip/trim, `"sep".join`, `str.split`, substring search, Python's `int()`
    on strings and the truthiness of optional strings. */
module Text {
  import opened Wrappers

  /** Python `str.isspace()` for one character. */
  predicate PyIsSpace(c: char) {
    ('\U{9}' <= c <= '\U{D}') || ('\U{1C}' <= c <= '\U{20}') || c == '\U{85}' || c == '\U{A0}'
    || c == '\U{1680}' || ('\U{2000}' <= c <= '\U{200A}') || c == '\U{2028}' || c == '\U{2029}'
    || c == '\U{202F}' || c == '\U{205F}' || c == '\U{3000}'
  }

  /** The whitespace `int()` skips around the digits. An ASCII character
      counts only when C's `isspace` accepts it (tab to carriage return, and
      space); every other character `str.isspace` accepts counts too, being
      mapped to a space first. So the separators U+001C to U+001F, which
      `str.strip` removes, make `int()` fail. */
  predicate IntIsSpace(c: char) {
    PyIsSpace(c) && !('\U{1C}' <= c <= '\U{1F}')
  }

  /** ECMAScript WhiteSpace and LineTerminator: the class `\s` of a regular
      expression and what `String.prototype.trim` removes. */
  predicate JsIsSpace(c: char) {
    ('\U{9}' <= c <= '\U{D}') || c == ' ' || c == '\U{A0}' || c == '\U{1680}'
    || ('\U{2000}' <= c <= '\U{200A}') || c == '\U{2028}' || c == '\U{2029}'
    || c == '\U{202F}' || c == '\U{205F}' || c == '\U{3000}' || c == '\U{FEFF}'
  }

  predicate AllSpace(s: string, sp: char -> bool) {
    forall k :: 0 <= k < |s| ==> sp(s[k])
  }

  /** `s` has no leading and no trailing character of class `sp`. */
  predicate Unpadded(s: string, sp: char -> bool) {
    s == [] || (!sp(s[0]) && !sp(s[|s| - 1]))
  }

  function DropLeading(s: string, sp: char -> bool): (r: string)
    ensures |r| <= |s| && r == s[|s| - |r|..]
    ensures AllSpace(s[..|s| - |r|], sp)
    ensures r != [] ==> !sp(r[0])
  {
    if s != [] && sp(s[0]) then DropLeading(s[1..], sp) else s
  }

  function DropTrailing(s: string, sp: char -> bool): (r: string)
    ensures |r| <= |s| && r == s[..|r|]
    ensures AllSpace(s[|r|..], sp)
    ensures r != [] ==> !sp(r[|r| - 1])
  {
    if s != [] && sp(s[|s| - 1]) then DropTrailing(s[..|s| - 1], sp) else s
  }

  /** Remove the surrounding characters of class `sp`, as `str.strip()` and
      `String.prototype.trim()` do for their own classes. */
  function Strip(s: string, sp: char -> bool): (r: string)
    ensures |r| <= |s|
    ensures Unpadded(r, sp)
    ensures r == [] <==> AllSpace(s, sp)
    ensures Unpadded(s, sp) ==> r == s
  {
    var t := DropLeading(s, sp);
    var r := DropTrailing(t, sp);
    r
  }

  function PyStrip(s: string): (r: string)
    ensures |r| <= |s| && Unpadded(r, PyIsSpace)
    ensures r == [] <==> AllSpace(s, PyIsSpace)
  {
    Strip(s, PyIsSpace)
  }

  /** The surrounding whitespace `int()` ignores, removed. */
  function IntStrip(s: string): (r: string)
    ensures |r| <= |s| && Unpadded(r, IntIsSpace)
    ensures r == [] <==> AllSpace(s, IntIsSpace)
  {
    Strip(s, IntIsSpace)
  }

  function JsTrim(s: string): (r: string)
    ensures |r| <= |s| && Unpadded(r, JsIsSpace)
    ensures r == [] <==> AllSpace(s, JsIsSpace)
  {
    Strip(s, JsIsSpace)
  }

  lemma PyStripUnpadded(s: string)
    requires Unpadded(s, PyIsSpace)
    ensures PyStrip(s) == s
  {
  }

  lemma {:induction false} StripIdempotent(s: string, sp: char -> bool)
    ensures Strip(Strip(s, sp), sp) == Strip(s, sp)
  {
  }

  /** Python truthiness of an optional string: present and non-empty. */
  predicate Truthy(o: Option<string>) {
    o.Some? && o.value != ""
  }

  /** Python's `o or fallback` for an optional string. */
  function OrElse(o: Option<string>, fallback: string): (r: string)
    ensures Truthy(o) ==> r == o.value
    ensures !Truthy(o) ==> r == fallback
  {
    if Truthy(o) then o.value else fallback
  }

  /** `sep.join(parts)`. */
  function Join(parts: seq<string>, sep: string): string
  {
    if |parts| == 0 then "" else if |parts| == 1 then parts[0]
    else parts[0] + sep + Join(parts[1..], sep)
  }

  lemma {:induction false} JoinAppend(parts: seq<string>, x: string, sep: string)
    requires |parts| >= 1
    ensures Join(parts + [x], sep) == Join(parts, sep) + sep + x
  {
    if |parts| == 1 {
      assert parts + [x] == [parts[0], x];
    } else {
      assert (parts + [x])[1..] == parts[1..] + [x];
      JoinAppend(parts[1..], x, sep);
    }
  }

  lemma {:induction false} JoinCons(x: string, parts: seq<string>, sep: string)
    requires |parts| >= 1
    ensures Join([x] + parts, sep) == x + sep + Join(parts, sep)
  {
    assert ([x] + parts)[1..] == parts;
  }

  predicate NoChar(s: string, c: char) {
    forall k :: 0 <= k < |s| ==> s[k] != c
  }

  /** `s.split(c)` for a one-character separator: never empty; the pieces
      hold no separator and joining them back gives `s`. */
  function Split(s: string, c: char): (r: seq<string>)
    ensures |r| >= 1
    ensures forall i :: 0 <= i < |r| ==> NoChar(r[i], c)
    ensures Join(r, [c]) == s
  {
    if s == [] then [""]
    else
      var rest := Split(s[1..], c);
      if s[0] == c then
        JoinCons("", rest, [c]);
        [""] + rest
      else
        var r := [[s[0]] + rest[0]] + rest[1..];
        assert Join(r, [c]) == s by {
          if |rest| == 1 { assert r == [[s[0]] + rest[0]]; }
          else { JoinCons([s[0]] + rest[0], rest[1..], [c]); JoinCons(rest[0], rest[1..], [c]); }
        }
        r
  }

  /** The converse round trip: splitting the join of separator-free pieces
      gives the pieces back. */
  lemma {:induction false} SplitJoin(parts: seq<string>, c: char)
    requires |parts| >= 1
    requires forall i :: 0 <= i < |parts| ==> NoChar(parts[i], c)
    ensures Split(Join(parts, [c]), c) == parts
  {
    if |parts| == 1 {
      SplitPiece(parts[0], c);
    } else {
      SplitJoin(parts[1..], c);
      SplitPrefix(parts[0], Join(parts[1..], [c]), c);
    }
  }

  lemma {:induction false} SplitPiece(p: string, c: char)
    requires NoChar(p, c)
    ensures Split(p, c) == [p]
    decreases |p|
  {
    if p != [] {
      SplitPiece(p[1..], c);
      assert [p[0]] + p[1..] == p;
    }
  }

  lemma {:induction false} SplitPrefix(p: string, rest: string, c: char)
    requires NoChar(p, c)
    ensures Split(p + [c] + rest, c) == [p] + Split(rest, c)
    decreases |p|
  {
    if p == [] {
      assert p + [c] + rest == [c] + rest;
      assert ([c] + rest)[1..] == rest;
    } else {
      assert (p + [c] + rest)[1..] == p[1..] + [c] + rest;
      SplitPrefix(p[1..], rest, c);
      assert [p[0]] + p[1..] == p;
    }
  }

  /** `"".join(xs)`. */
  function Concat(xs: seq<string>): string
  {
    if xs == [] then "" else Concat(xs[..|xs| - 1]) + xs[|xs| - 1]
  }

  lemma {:induction false} ConcatCons(x: string, xs: seq<string>)
    ensures Concat([x] + xs) == x + Concat(xs)
  {
    if xs != [] {
      assert ([x] + xs)[..|xs|] == [x] + xs[..|xs| - 1];
      ConcatCons(x, xs[..|xs| - 1]);
    } else {
      assert [x][..0] == [];
    }
  }

  lemma {:induction false} ConcatAppend(xs: seq<string>, ys: seq<string>)
    ensures Concat(xs + ys) == Concat(xs) + Concat(ys)
    decreases |ys|
  {
    if ys == [] {
      assert xs + ys == xs;
    } else {
      var init := ys[..|ys| - 1];
      assert (xs + ys)[..|xs + ys| - 1] == xs + init;
      assert (xs + ys)[|xs + ys| - 1] == ys[|ys| - 1];
      assert Concat(xs + ys) == Concat(xs + init) + ys[|ys| - 1];
      ConcatAppend(xs, init);
      assert Concat(ys) == Concat(init) + ys[|ys| - 1];
    }
  }

  lemma ConcatPair(a: string, b: string)
    ensures Concat([a, b]) == a + b
  {
    assert [a, b][..1] == [a];
    assert [a][..0] == [];
    assert Concat([a]) == Concat([]) + a;
  }

  /** Python's `sub in s`. */
  predicate Contains(s: string, sub: string)
  {
    sub <= s || (s != [] && Contains(s[1..], sub))
  }

  lemma {:induction false} ContainsAt(s: string, sub: string, i: nat)
    requires i + |sub| <= |s| && s[i..i + |sub|] == sub
    ensures Contains(s, sub)
  {
    if i > 0 {
      assert s[1..][i - 1..i - 1 + |sub|] == s[i..i + |sub|];
      ContainsAt(s[1..], sub, i - 1);
    } else {
      assert sub == s[..|sub|];
    }
  }

  lemma {:induction false} ContainsInfix(s: string, sub: string, pre: string, post: string)
    requires s == pre + sub + post
    ensures Contains(s, sub)
  {
    assert s[|pre|..|pre| + |sub|] == sub;
    ContainsAt(s, sub, |pre|);
  }

  predicate IsDigit(c: char) { '0' <= c <= '9' }

  /** A digit run as Python's `int()` accepts it: digits, with single
      underscores allowed between two digits. */
  predicate DigitRun(t: string) {
    |t| > 0 && IsDigit(t[0]) && IsDigit(t[|t| - 1])
    && forall i :: 0 <= i < |t| - 1 ==> IsDigit(t[i]) || (t[i] == '_' && IsDigit(t[i + 1]))
  }

  function DigitRunValue(t: string): nat
  {
    if t == [] then 0
    else if t[|t| - 1] == '_' then DigitRunValue(t[..|t| - 1])
    else DigitRunValue(t[..|t| - 1]) * 10 + ((t[|t| - 1] as int - '0' as int) % 10)
  }

  /** Python's default `sys.get_int_max_str_digits()`: `int()` raises
      ValueError on decimal text with more digits than this. */
  const MaxStrDigits: nat := 4300

  /** The number of digits of a run; underscores do not count. */
  function DigitCount(t: string): nat
  {
    if t == [] then 0 else DigitCount(t[..|t| - 1]) + (if t[|t| - 1] == '_' then 0 else 1)
  }

  /** The text after an optional leading sign. */
  function Unsigned(t: string): string
  {
    if |t| > 0 && (t[0] == '+' || t[0] == '-') then t[1..] else t
  }

  /** `int()` on text already stripped of whitespace. */
  function ParseStripped(t: string): Option<int>
  {
    var run := Unsigned(t);
    if DigitRun(run) && DigitCount(run) <= MaxStrDigits then
      var v: int := DigitRunValue(run);
      Some(if |t| > 0 && t[0] == '-' then -v else v)
    else None
  }

  /** Python's `int(s)` on a string: `None` where it raises ValueError.
      Accepted exactly when, after the whitespace of `IntIsSpace` is
      stripped and an optional sign dropped, a digit run of at most 4300
      digits is left; only a leading `-` gives a negative value. */
  function ParsePyInt(s: string): (r: Option<int>)
    ensures var run := Unsigned(IntStrip(s));
      r.Some? <==> DigitRun(run) && DigitCount(run) <= MaxStrDigits
    ensures r.Some? && r.value < 0 ==> IntStrip(s)[0] == '-'
  {
    ParseStripped(IntStrip(s))
  }

  function DigitChar(d: nat): char
    requires d < 10
  {
    ('0' as int + d) as char
  }

  /** Python's `str(n)` on an int. */
  function NatToDecimal(n: nat): (r: string)
    ensures |r| >= 1 && forall i :: 0 <= i < |r| ==> IsDigit(r[i])
  {
    if n < 10 then [DigitChar(n)] else NatToDecimal(n / 10) + [DigitChar(n % 10)]
  }

  function IntToDecimal(n: int): string
  {
    if n < 0 then "-" + NatToDecimal(-n) else NatToDecimal(n)
  }

  lemma {:induction false} DecimalValue(n: nat)
    ensures DigitRun(NatToDecimal(n)) && DigitRunValue(NatToDecimal(n)) == n
    ensures DigitCount(NatToDecimal(n)) == |NatToDecimal(n)|
  {
    var r := NatToDecimal(n);
    if n >= 10 {
      DecimalValue(n / 10);
      assert r[..|r| - 1] == NatToDecimal(n / 10);
    }
  }

  function Pow10(k: nat): (r: nat)
    ensures r >= 1
  {
    if k == 0 then 1 else 10 * Pow10(k - 1)
  }

  /** A number below 10^k has at most k decimal digits. */
  lemma {:induction false} DecimalLength(n: nat, k: nat)
    requires k >= 1 && n < Pow10(k)
    ensures |NatToDecimal(n)| <= k
  {
    if n >= 10 {
      assert n / 10 < Pow10(k - 1);
      assert Pow10(k - 1) > 1;
      DecimalLength(n / 10, k - 1);
    }
  }

  /** Every character of an all-digit string counts as a digit. */
  lemma {:induction false} AllDigitsCount(d: string)
    requires forall i :: 0 <= i < |d| ==> IsDigit(d[i])
    ensures DigitCount(d) == |d|
  {
    if d != [] {
      AllDigitsCount(d[..|d| - 1]);
    }
  }

  lemma DecimalUnpadded(d: string)
    requires forall i :: 0 <= i < |d| ==> IsDigit(d[i])
    ensures Unpadded(d, IntIsSpace) && Unpadded("-" + d, IntIsSpace)
  {
  }

  /** On text without surrounding whitespace, `int()` parses it as it is. */
  lemma ParseUnpadded(s: string)
    requires Unpadded(s, IntIsSpace)
    ensures ParsePyInt(s) == ParseStripped(s)
  {
    assert IntStrip(s) == s;
  }

  /** A digit run of at most 4300 digits, with or without a leading `-`,
      parses to its value. */
  lemma ParseDigits(d: string, negative: bool)
    requires DigitRun(d) && DigitCount(d) <= MaxStrDigits
    requires IsDigit(d[0])
    ensures ParseStripped(if negative then "-" + d else d)
         == Some(if negative then -(DigitRunValue(d) as int) else DigitRunValue(d))
  {
    var s := if negative then "-" + d else d;
    if negative {
      assert s[1..] == d;
    }
    assert Unsigned(s) == d;
  }

  /** `int(str(n)) == n` for every integer of at most 4300 digits: parsing
      inverts Python's decimal rendering. */
  lemma ParseIntOfDecimal(n: int)
    requires -(Pow10(MaxStrDigits) as int) < n < Pow10(MaxStrDigits)
    ensures ParsePyInt(IntToDecimal(n)) == Some(n)
  {
    var m: nat := if n < 0 then -n else n;
    var d := NatToDecimal(m);
    DecimalValue(m);
    DecimalLength(m, MaxStrDigits);
    ParseDigits(d, n < 0);
    DecimalUnpadded(d);
    var s := IntToDecimal(n);
    assert s == (if n < 0 then "-" + d else d);
    ParseUnpadded(s);
  }

  /** Decimal text of more than 4300 digits is refused: `int()` raises
      ValueError on it, however well-formed it is. */
  lemma ParseIntPastDigitLimit(d: string)
    requires |d| > MaxStrDigits
    requires forall i :: 0 <= i < |d| ==> IsDigit(d[i])
    ensures ParsePyInt(d) == None
  {
    AllDigitsCount(d);
    DecimalUnpadded(d);
    ParseUnpadded(d);
    assert Unsigned(d) == d;
  }

  /** `str.strip` removes a leading U+001C (a separator `isspace` accepts)
      from digits. */
  lemma StripRemovesSeparator(d: string)
    requires d != [] && forall i :: 0 <= i < |d| ==> IsDigit(d[i])
    ensures PyStrip("\U{1C}" + d) == d
  {
    var s := "\U{1C}" + d;
    assert PyIsSpace(s[0]);
    assert s[1..] == d;
    DecimalUnpadded(d);
    assert !PyIsSpace(d[0]) && !PyIsSpace(d[|d| - 1]);
    assert DropLeading(s, PyIsSpace) == DropLeading(d, PyIsSpace) == d;
  }

  /** `int()` does not skip a leading U+001C: digits after it are refused. */
  lemma ParseRefusesSeparator(d: string)
    requires d != [] && forall i :: 0 <= i < |d| ==> IsDigit(d[i])
    ensures ParsePyInt("\U{1C}" + d) == None
  {
    var s := "\U{1C}" + d;
    assert !IntIsSpace(s[0]) && s[|s| - 1] == d[|d| - 1];
    ParseUnpadded(s);
    assert Unsigned(s) == s;
  }
}
