/** The chat envelope framer `json_stream_wrapper` of backend/app/utils.py.
    The wrapped generator is given as the parts it yields, in order, and
    whether it raises after the last of them; a part is `None` for a falsy
    value other than the empty string. The output is the sequence of chunks
    the wrapper yields. */
module JsonStream {
  import opened Wrappers
  import opened Text

  const OpenBrace: string := "{"
  const DataOpen: string := "\"data\":\""
  const EmptyData: string := "\"data\":\"\""
  const CloseData: string := "\"}"

  /** `s.replace("\\", "\\\\")`. */
  function DoubleBackslashes(s: string): string
  {
    if s == [] then [] else (if s[0] == '\\' then "\\\\" else [s[0]]) + DoubleBackslashes(s[1..])
  }

  /** `s.replace("\"", "\\\"")`. */
  function EscapeQuotes(s: string): string
  {
    if s == [] then [] else (if s[0] == '"' then "\\\"" else [s[0]]) + EscapeQuotes(s[1..])
  }

  /** The escaping of one part: backslashes are doubled first, then quotes
      are escaped. No other character is escaped. */
  function Escape(s: string): string
  {
    EscapeQuotes(DoubleBackslashes(s))
  }

  function EscapeChar(c: char): string
  {
    if c == '\\' then "\\\\" else if c == '"' then "\\\"" else [c]
  }

  lemma {:induction false} EscapeQuotesAppend(a: string, b: string)
    ensures EscapeQuotes(a + b) == EscapeQuotes(a) + EscapeQuotes(b)
  {
    if a != [] {
      assert (a + b)[1..] == a[1..] + b;
      EscapeQuotesAppend(a[1..], b);
    } else {
      assert a + b == b;
    }
  }

  /** The two replacements together act character by character: a backslash
      becomes two, a quote becomes backslash-quote, and every other
      character, newlines and control characters included, is kept. */
  lemma EscapeCons(c: char, t: string)
    ensures Escape([c] + t) == EscapeChar(c) + Escape(t)
  {
    var s := [c] + t;
    assert s[1..] == t;
    assert DoubleBackslashes(s) == (if c == '\\' then "\\\\" else [c]) + DoubleBackslashes(t);
    EscapeQuotesAppend(if c == '\\' then "\\\\" else [c], DoubleBackslashes(t));
  }

  lemma {:induction false} EscapeAppend(a: string, b: string)
    ensures Escape(a + b) == Escape(a) + Escape(b)
  {
    if a == [] {
      assert a + b == b;
    } else {
      assert a + b == [a[0]] + (a[1..] + b);
      EscapeCons(a[0], a[1..] + b);
      EscapeAppend(a[1..], b);
      EscapeCons(a[0], a[1..]);
      assert [a[0]] + a[1..] == a;
    }
  }

  /** Reading an escaped string back: `\\` is a backslash, `\"` a quote;
      any other backslash sequence is not something `Escape` produces. */
  function Unescape(s: string): Option<string>
  {
    if s == [] then Some([])
    else if s[0] == '\\' then
      if |s| >= 2 && (s[1] == '\\' || s[1] == '"') then
        match Unescape(s[2..])
        case Some(t) => Some([s[1]] + t)
        case None => None
      else None
    else if s[0] == '"' then None
    else
      match Unescape(s[1..])
      case Some(t) => Some([s[0]] + t)
      case None => None
  }

  /** Unescaping recovers the part: the escaping is lossless. */
  lemma {:induction false} UnescapeEscape(s: string)
    ensures Unescape(Escape(s)) == Some(s)
  {
    if s != [] {
      UnescapeEscape(s[1..]);
      EscapeCons(s[0], s[1..]);
      assert [s[0]] + s[1..] == s;
      var e := Escape(s);
      if s[0] == '\\' || s[0] == '"' {
        assert e[2..] == Escape(s[1..]);
      } else {
        assert e[1..] == Escape(s[1..]);
      }
    }
  }

  /** The parts that `if part:` lets through, in order. */
  function NonEmpty(parts: seq<Option<string>>): (r: seq<string>)
  {
    if parts == [] then []
    else NonEmpty(parts[..|parts| - 1]) + (if Truthy(parts[|parts| - 1]) then [parts[|parts| - 1].value] else [])
  }

  function EscapeAll(xs: seq<string>): (r: seq<string>)
    ensures |r| == |xs|
  {
    if xs == [] then [] else EscapeAll(xs[..|xs| - 1]) + [Escape(xs[|xs| - 1])]
  }

  /** The chunks the wrapper yields for `parts`: the opening brace, then the
      field opener just before the first non-empty part, then each non-empty
      part escaped, then the closing quote and brace; with no non-empty part
      the `finally` block yields `"data":""` followed by the same closing. */
  function Frames(parts: seq<Option<string>>): (r: seq<string>)
    ensures |r| == |NonEmpty(parts)| + 3
    ensures r[0] == OpenBrace && r[|r| - 1] == CloseData
  {
    var xs := NonEmpty(parts);
    if xs == [] then [OpenBrace, EmptyData, CloseData]
    else [OpenBrace, DataOpen] + EscapeAll(xs) + [CloseData]
  }

  /** The wrapper's loop over the generator, with its `first` flag. The
      closing chunks are yielded whether or not the generator raises, and
      an exception of the generator is raised again after them. */
  method Wrap(parts: seq<Option<string>>, generatorRaises: bool) returns (out: seq<string>, raised: bool)
    ensures out == Frames(parts)
    ensures raised == generatorRaises
  {
    out := [OpenBrace];
    var first := true;
    var i := 0;
    ghost var seen: seq<string> := [];
    while i < |parts|
      invariant 0 <= i <= |parts|
      invariant seen == NonEmpty(parts[..i])
      invariant first <==> seen == []
      invariant first ==> out == [OpenBrace]
      invariant !first ==> out == [OpenBrace, DataOpen] + EscapeAll(seen)
    {
      var part := parts[i];
      NonEmptyStep(parts, i);
      if part.Some? && part.value != "" {
        EscapeAllStep(seen, part.value);
        if first {
          out := out + [DataOpen];
          first := false;
        }
        out := out + [Escape(part.value)];
        seen := seen + [part.value];
      }
      i := i + 1;
    }
    assert parts[..i] == parts;
    if first {
      out := out + [EmptyData];
    }
    out := out + [CloseData];
    raised := generatorRaises;
  }

  lemma NonEmptyStep(parts: seq<Option<string>>, i: nat)
    requires i < |parts|
    ensures NonEmpty(parts[..i + 1]) == NonEmpty(parts[..i]) + (if Truthy(parts[i]) then [parts[i].value] else [])
  {
    assert parts[..i + 1][..i] == parts[..i];
  }

  lemma EscapeAllStep(xs: seq<string>, x: string)
    ensures EscapeAll(xs + [x]) == EscapeAll(xs) + [Escape(x)]
    ensures xs == [] ==> EscapeAll(xs + [x]) == [Escape(x)]
  {
    assert (xs + [x])[..|xs|] == xs;
  }

  lemma {:induction false} ConcatEscapeAll(xs: seq<string>)
    ensures Concat(EscapeAll(xs)) == Escape(Concat(xs))
  {
    if xs != [] {
      var init := xs[..|xs| - 1];
      ConcatEscapeAll(init);
      assert EscapeAll(xs)[..|xs| - 1] == EscapeAll(init);
      EscapeAppend(Concat(init), xs[|xs| - 1]);
    }
  }

  lemma {:induction false} EscapeAllAt(xs: seq<string>, i: nat)
    requires i < |xs|
    ensures EscapeAll(xs)[i] == Escape(xs[i])
    decreases |xs|
  {
    if i < |xs| - 1 {
      EscapeAllAt(xs[..|xs| - 1], i);
    }
  }

  /** With no non-empty part the body is `{"data":"""}`: three quotes, not
      the `{"data":""}` a JSON parser would accept. */
  lemma EmptyEnvelope(parts: seq<Option<string>>)
    requires NonEmpty(parts) == []
    ensures Concat(Frames(parts)) == "{\"data\":\"\"\"}"
  {
    var f := [OpenBrace, EmptyData, CloseData];
    assert f[..2] == [OpenBrace, EmptyData];
    ConcatPair(OpenBrace, EmptyData);
  }

  /** With at least one non-empty part the body is `{"data":"` + the
      escaped concatenation of the non-empty parts + `"}`, and unescaping
      the field gives back exactly those parts, concatenated in order. */
  lemma Envelope(parts: seq<Option<string>>)
    requires NonEmpty(parts) != []
    ensures Concat(Frames(parts)) == "{\"data\":\"" + Escape(Concat(NonEmpty(parts))) + "\"}"
    ensures Unescape(Escape(Concat(NonEmpty(parts)))) == Some(Concat(NonEmpty(parts)))
  {
    var xs := NonEmpty(parts);
    assert Frames(parts) == [OpenBrace, DataOpen] + EscapeAll(xs) + [CloseData];
    FramedConcat(EscapeAll(xs));
    ConcatEscapeAll(xs);
    OpenerSpelled();
    UnescapeEscape(Concat(xs));
  }

  lemma OpenerSpelled()
    ensures OpenBrace + DataOpen == "{\"data\":\""
  {
  }

  lemma {:induction false} FramedConcat(e: seq<string>)
    ensures Concat([OpenBrace, DataOpen] + e + [CloseData]) == OpenBrace + DataOpen + Concat(e) + CloseData
  {
    ConcatAppend([OpenBrace, DataOpen] + e, [CloseData]);
    ConcatAppend([OpenBrace, DataOpen], e);
    ConcatPair(OpenBrace, DataOpen);
    ConcatCons(CloseData, []);
    assert [CloseData] + [] == [CloseData];
  }

  /** The field opener is yielded exactly once, right after the brace,
      and every other chunk before the closing one is an escaped part. */
  lemma DataOpenedOnce(parts: seq<Option<string>>)
    requires NonEmpty(parts) != []
    ensures var f := Frames(parts);
      && f[0] == OpenBrace && f[1] == DataOpen && f[|f| - 1] == CloseData
      && (forall i :: 2 <= i < |f| - 1 ==> f[i] == Escape(NonEmpty(parts)[i - 2]))
      && (forall i :: 0 <= i < |f| && i != 1 ==> f[i] != DataOpen)
  {
    var f := Frames(parts);
    var xs := NonEmpty(parts);
    forall i | 2 <= i < |f| - 1 ensures f[i] == Escape(xs[i - 2]) && f[i] != DataOpen {
      EscapeAllAt(xs, i - 2);
      EscapedNotDataOpen(xs[i - 2]);
    }
  }

  /** An escaped part never equals the field opener `"data":"`: a quote in
      the output of `Escape` always follows a backslash. */
  lemma EscapedNotDataOpen(s: string)
    ensures Escape(s) != DataOpen
  {
    if s != [] {
      EscapeCons(s[0], s[1..]);
      assert [s[0]] + s[1..] == s;
      assert Escape(s)[0] == EscapeChar(s[0])[0];
      assert DataOpen[0] == '"';
    }
  }

  /** A falsy part never shows up in the output. */
  lemma FalsyPartsIgnored(parts: seq<Option<string>>, k: nat)
    requires k < |parts| && !Truthy(parts[k])
    ensures Frames(parts[..k] + parts[k + 1..]) == Frames(parts)
  {
    NonEmptyDrop(parts, k);
  }

  lemma {:induction false} NonEmptyDrop(parts: seq<Option<string>>, k: nat)
    requires k < |parts| && !Truthy(parts[k])
    ensures NonEmpty(parts[..k] + parts[k + 1..]) == NonEmpty(parts)
    decreases |parts|
  {
    var q := parts[..k] + parts[k + 1..];
    if k == |parts| - 1 {
      assert q == parts[..|parts| - 1];
    } else {
      var init := parts[..|parts| - 1];
      NonEmptyDrop(init, k);
      assert q[..|q| - 1] == init[..k] + init[k + 1..];
      assert q[|q| - 1] == parts[|parts| - 1];
    }
  }
}
