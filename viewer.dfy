/** The front end's document title (frontend/src/components/Viewer.tsx):
    `extractTitleFromMarkdown`, the first match of the multiline regular
    expression `^#\s+(.+)$` with its capture trimmed, and the chain that
    picks the page title. The scan below is proved to return exactly the
    leftmost match, with the backtracking choice ECMAScript makes. */
module Viewer {
  import opened Wrappers
  import opened Text

  const DefaultPageTitle: string := "AI Contract Generator"

  /** ECMAScript LineTerminator: where `^` and `$` match under the `m` flag
      and what `.` does not match. */
  predicate IsLineTerminator(c: char) {
    c == '\n' || c == '\r' || c == '\U{2028}' || c == '\U{2029}'
  }

  /** `^` under the `m` flag. */
  predicate LineStart(md: string, p: nat)
    requires p <= |md|
  {
    p == 0 || IsLineTerminator(md[p - 1])
  }

  /** With `#` at `p`, `\s+` can take `md[p+1..x]` and `(.+)` can then start
      at `x`. */
  predicate CaptureFrom(md: string, p: nat, x: nat) {
    && p + 2 <= x < |md|
    && (forall k :: p + 1 <= k < x ==> JsIsSpace(md[k]))
    && !IsLineTerminator(md[x])
  }

  /** A match of the whole expression starts at `p`. */
  ghost predicate HeadingAt(md: string, p: nat) {
    p < |md| && LineStart(md, p) && md[p] == '#' && exists x: nat :: CaptureFrom(md, p, x)
  }

  /** The match the engine reports: the leftmost start `p`, and since `\s+`
      is greedy and gives characters back one at a time, the largest capture
      start `x`. */
  ghost predicate FirstMatch(md: string, p: nat, x: nat) {
    && HeadingAt(md, p)
    && (forall q :: 0 <= q < p ==> !HeadingAt(md, q))
    && CaptureFrom(md, p, x)
    && (forall y: nat :: CaptureFrom(md, p, y) ==> y <= x)
  }

  /** Where the line holding `x` ends: `.+` is greedy and `$` only matches
      before a line terminator or at the end. */
  function LineEnd(md: string, x: nat): (e: nat)
    requires x <= |md|
    ensures x <= e <= |md|
    ensures e < |md| ==> IsLineTerminator(md[e])
    ensures forall k :: x <= k < e ==> !IsLineTerminator(md[k])
    decreases |md| - x
  {
    if x == |md| || IsLineTerminator(md[x]) then x else LineEnd(md, x + 1)
  }

  /** The end of the run of `\s` characters starting at `i`. */
  function SpaceRunEnd(md: string, i: nat): (q: nat)
    requires i <= |md|
    ensures i <= q <= |md|
    ensures forall k :: i <= k < q ==> JsIsSpace(md[k])
    ensures q < |md| ==> !JsIsSpace(md[q])
    decreases |md| - i
  {
    if i == |md| || !JsIsSpace(md[i]) then i else SpaceRunEnd(md, i + 1)
  }

  /** Giving back whitespace from `x` downwards until `(.+)` can start. */
  function GiveBack(md: string, p: nat, x: int): (r: Option<nat>)
    requires x < |md|
    requires forall k :: p + 1 <= k < x ==> JsIsSpace(md[k])
    ensures r.Some? ==> CaptureFrom(md, p, r.value) && r.value <= x
    ensures r.Some? ==> forall y: nat :: CaptureFrom(md, p, y) && y <= x ==> y <= r.value
    ensures r.None? ==> forall y: nat :: CaptureFrom(md, p, y) ==> y > x
    decreases x
  {
    if x < p + 2 then None
    else if !IsLineTerminator(md[x]) then Some(x)
    else GiveBack(md, p, x - 1)
  }

  /** The capture start of a match at `p`, if the expression matches there. */
  function CaptureStart(md: string, p: nat): (r: Option<nat>)
    requires p < |md|
    ensures r.Some? ==> CaptureFrom(md, p, r.value) && forall y: nat :: CaptureFrom(md, p, y) ==> y <= r.value
    ensures r.None? ==> forall y :: !CaptureFrom(md, p, y)
  {
    var q := SpaceRunEnd(md, p + 1);
    var r := GiveBack(md, p, if q < |md| then q else |md| - 1);
    r
  }

  /** The scan for the leftmost match from `p` on. */
  function Scan(md: string, p: nat): (r: Option<(nat, nat)>)
    requires p <= |md|
    ensures r.Some? ==> (
      && p <= r.value.0 && HeadingAt(md, r.value.0)
      && (forall q :: p <= q < r.value.0 ==> !HeadingAt(md, q))
      && CaptureFrom(md, r.value.0, r.value.1)
      && (forall y: nat :: CaptureFrom(md, r.value.0, y) ==> y <= r.value.1))
    ensures r.None? ==> forall q :: p <= q < |md| ==> !HeadingAt(md, q)
    decreases |md| - p
  {
    if p == |md| then None
    else if LineStart(md, p) && md[p] == '#' && CaptureStart(md, p).Some? then Some((p, CaptureStart(md, p).value))
    else Scan(md, p + 1)
  }

  /** `extractTitleFromMarkdown`: `null` exactly when no line matches;
      otherwise the capture of the leftmost match, trimmed. */
  function ExtractTitleFromMarkdown(md: string): (r: Option<string>)
    ensures r.None? <==> forall p :: 0 <= p < |md| ==> !HeadingAt(md, p)
    ensures r.Some? ==> exists p: nat, x: nat :: FirstMatch(md, p, x) && r.value == JsTrim(md[x..LineEnd(md, x)])
  {
    match Scan(md, 0)
    case None => None
    case Some((p, x)) =>
      assert FirstMatch(md, p, x);
      Some(JsTrim(md[x..LineEnd(md, x)]))
  }

  /** A line starting with `##` is not a match: `#` must be followed by
      whitespace. */
  lemma DoubleHashIsNoHeading(md: string, p: nat)
    requires p + 1 < |md| && md[p] == '#' && md[p + 1] == '#'
    ensures !HeadingAt(md, p)
  {
  }

  /** Whatever the leftmost match is, it matches on the first line when the
      document starts with "# " and a title. */
  lemma {:induction false} LeadingHeading(title: string, rest: string)
    requires title != [] && !IsLineTerminator(title[0]) && !JsIsSpace(title[0])
    requires forall k :: 0 <= k < |title| ==> !IsLineTerminator(title[k])
    ensures ExtractTitleFromMarkdown("# " + title + rest) ==
            Some(JsTrim(("# " + title + rest)[2..LineEnd("# " + title + rest, 2)]))
  {
    var md := "# " + title + rest;
    assert md[0] == '#' && md[1] == ' ' && md[2] == title[0];
    assert CaptureFrom(md, 0, 2);
    assert HeadingAt(md, 0);
    assert SpaceRunEnd(md, 1) == 2 by {
      assert JsIsSpace(md[1]) && !JsIsSpace(md[2]);
      assert SpaceRunEnd(md, 2) == 2;
    }
  }

  /** A lone `#` line followed by a text line yields that text: `\s+` runs
      over the newline. */
  lemma HashThenTextLine(text: string)
    requires text != [] && !JsIsSpace(text[0]) && NoLineTerminator(text)
    ensures ExtractTitleFromMarkdown("#\n" + text) == Some(JsTrim(text))
  {
    var md := "#\n" + text;
    assert md[2] == text[0];
    assert CaptureFrom(md, 0, 2);
    assert SpaceRunEnd(md, 1) == 2 by {
      assert JsIsSpace(md[1]) && !JsIsSpace(md[2]);
      assert SpaceRunEnd(md, 2) == 2;
    }
    assert CaptureStart(md, 0) == Some(2);
    assert Scan(md, 0) == Some((0, 2));
    assert md[2..] == text;
    LineEndOfPlain(md, 2);
    assert md[2..LineEnd(md, 2)] == text;
    assert ExtractTitleFromMarkdown(md) == Some(JsTrim(md[2..LineEnd(md, 2)]));
  }

  predicate NoLineTerminator(s: string) {
    forall k :: 0 <= k < |s| ==> !IsLineTerminator(s[k])
  }

  lemma {:induction false} LineEndOfPlain(md: string, x: nat)
    requires x <= |md| && NoLineTerminator(md[x..])
    ensures LineEnd(md, x) == |md|
    decreases |md| - x
  {
    if x < |md| {
      assert md[x] == md[x..][0];
      assert md[x + 1..] == md[x..][1..];
      LineEndOfPlain(md, x + 1);
    }
  }

  /** `#` followed only by spaces gives the empty title, not `null`: `\s+`
      gives back one space for `(.+)`. */
  lemma HashThenSpaces()
    ensures ExtractTitleFromMarkdown("#   ") == Some("")
  {
    var md := "#   ";
    assert CaptureFrom(md, 0, 3);
    assert HeadingAt(md, 0);
  }

  /** `#` and a single space at the end is no match. */
  lemma HashThenOneSpace()
    ensures ExtractTitleFromMarkdown("# ") == None
  {
  }

  /** The page title: the session's title if non-empty, else the extracted
      title if non-empty, else the application's name; it is never empty. */
  function PageTitle(documentTitle: Option<string>, md: string): (t: string)
    ensures Truthy(documentTitle) ==> t == documentTitle.value
    ensures !Truthy(documentTitle) && Truthy(ExtractTitleFromMarkdown(md)) ==> t == ExtractTitleFromMarkdown(md).value
    ensures !Truthy(documentTitle) && !Truthy(ExtractTitleFromMarkdown(md)) ==> t == DefaultPageTitle
    ensures t != ""
  {
    OrElse(documentTitle, OrElse(ExtractTitleFromMarkdown(md), DefaultPageTitle))
  }
}
