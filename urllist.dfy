/**
 * The URL list of a batch: the text box's contents trimmed with
 * `string.Trim()`, split on `Environment.NewLine` (carriage return plus line
 * feed on Windows) with `StringSplitOptions.RemoveEmptyEntries`. Lines are
 * not trimmed one by one.
 */
module UrlList {
  import opened Wrappers
  import opened Strings

  /** `Environment.NewLine` on Windows, the only platform WPF runs on. */
  const NewLine: string := "\r\n"

  /** `char.IsWhiteSpace`: the separator categories of Unicode plus the control characters U+0009 to U+000D and U+0085. */
  predicate IsWhiteSpace(c: char)
  {
    || '\U{0009}' <= c <= '\U{000D}'
    || c == '\U{0020}' || c == '\U{0085}' || c == '\U{00A0}' || c == '\U{1680}'
    || '\U{2000}' <= c <= '\U{200A}'
    || c == '\U{2028}' || c == '\U{2029}' || c == '\U{202F}' || c == '\U{205F}'
    || c == '\U{3000}'
  }

  /** The first position at or after `i` that does not hold white space. */
  function SkipLeading(s: string, i: nat): (j: nat)
    requires i <= |s|
    ensures i <= j <= |s|
    ensures forall m :: i <= m < j ==> IsWhiteSpace(s[m])
    ensures j < |s| ==> !IsWhiteSpace(s[j])
    decreases |s| - i
  {
    if i == |s| || !IsWhiteSpace(s[i]) then i else SkipLeading(s, i + 1)
  }

  /** The end of `s[lo..hi]` once trailing white space is dropped. */
  function SkipTrailing(s: string, lo: nat, hi: nat): (j: nat)
    requires lo <= hi <= |s|
    ensures lo <= j <= hi
    ensures forall m :: j <= m < hi ==> IsWhiteSpace(s[m])
    ensures lo < j ==> !IsWhiteSpace(s[j - 1])
    decreases hi
  {
    if hi == lo || !IsWhiteSpace(s[hi - 1]) then hi else SkipTrailing(s, lo, hi - 1)
  }

  /**
   * `string.Trim()`: the result sits in `s` between a run of leading and a
   * run of trailing white space, and neither of its ends is white space.
   */
  function Trim(s: string): (r: string)
    ensures exists lo ::
              && OccursAt(s, r, lo)
              && (forall m :: 0 <= m < lo ==> IsWhiteSpace(s[m]))
              && (forall m :: lo + |r| <= m < |s| ==> IsWhiteSpace(s[m]))
    ensures r != [] ==> !IsWhiteSpace(r[0]) && !IsWhiteSpace(r[|r| - 1])
    ensures r == [] <==> forall m :: 0 <= m < |s| ==> IsWhiteSpace(s[m])
  {
    var lo := SkipLeading(s, 0);
    var hi := SkipTrailing(s, lo, |s|);
    assert OccursAt(s, s[lo..hi], lo);
    s[lo..hi]
  }

  /** `s.IndexOf(sep, from)` with ordinal comparison: the leftmost occurrence at or after `from`. */
  function IndexOf(s: string, sep: string, from: nat): (r: Option<nat>)
    requires from <= |s|
    ensures r.Some? ==> from <= r.value && OccursAt(s, sep, r.value)
    ensures r.Some? ==> forall j :: from <= j < r.value ==> !OccursAt(s, sep, j)
    ensures r.None? ==> forall j :: from <= j ==> !OccursAt(s, sep, j)
    decreases |s| - from
  {
    if from + |sep| > |s| then None
    else if s[from..from + |sep|] == sep then Some(from)
    else IndexOf(s, sep, from + 1)
  }

  /** `string.Join(sep, parts)`. */
  function Join(parts: seq<string>, sep: string): string
  {
    if |parts| == 0 then ""
    else if |parts| == 1 then parts[0]
    else parts[0] + sep + Join(parts[1..], sep)
  }

  /**
   * `s.Split(new[] { sep }, StringSplitOptions.None)`: cut at the successive
   * leftmost occurrences of `sep`. Joining the pieces with `sep` gives `s`
   * back, and no piece contains `sep`.
   */
  function Split(s: string, sep: string): (parts: seq<string>)
    requires sep != []
    ensures |parts| >= 1
    ensures Join(parts, sep) == s
    ensures forall k :: 0 <= k < |parts| ==> !Contains(parts[k], sep)
    decreases |s|
  {
    match IndexOf(s, sep, 0)
    case None =>
      assert forall j :: !OccursAt(s, sep, j);
      [s]
    case Some(i) =>
      var head, rest := s[..i], Split(s[i + |sep|..], sep);
      forall j
        ensures !OccursAt(head, sep, j)
      {
        if 0 <= j && j + |sep| <= |head| {
          assert head[j..j + |sep|] == s[j..j + |sep|];
          assert !OccursAt(s, sep, j);
        }
      }
      assert ([head] + rest)[1..] == rest;
      assert head + sep + s[i + |sep|..] == s;
      [head] + rest
  }

  /** The `StringSplitOptions.RemoveEmptyEntries` filter: drop the empty pieces, keep the rest in order. */
  function RemoveEmpty(parts: seq<string>): (r: seq<string>)
    ensures "" !in r
    ensures forall x :: x in r <==> x in parts && x != ""
  {
    if parts == [] then []
    else if parts[0] == "" then RemoveEmpty(parts[1..])
    else [parts[0]] + RemoveEmpty(parts[1..])
  }

  /** The URL list `btnDownload_Click` iterates over. */
  function SplitUrls(text: string): (urls: seq<string>)
    ensures "" !in urls
    ensures forall k :: 0 <= k < |urls| ==> urls[k] in Split(Trim(text), NewLine)
    ensures forall k :: 0 <= k < |urls| ==> !Contains(urls[k], NewLine)
  {
    var parts := Split(Trim(text), NewLine);
    var urls := RemoveEmpty(parts);
    assert forall k :: 0 <= k < |urls| ==> urls[k] in parts;
    urls
  }

  /** Removing empty pieces commutes with concatenation, so the order of what is kept is the input order. */
  lemma {:induction false} RemoveEmptyAppend(xs: seq<string>, ys: seq<string>)
    ensures RemoveEmpty(xs + ys) == RemoveEmpty(xs) + RemoveEmpty(ys)
    decreases |xs|
  {
    if xs == [] {
      assert xs + ys == ys;
    } else {
      assert (xs + ys)[1..] == xs[1..] + ys;
      RemoveEmptyAppend(xs[1..], ys);
    }
  }

  /** Each non-empty piece is kept exactly as often as it occurs; the empty piece is never kept. */
  lemma {:induction false} RemoveEmptyCounts(parts: seq<string>, x: string)
    ensures multiset(RemoveEmpty(parts))[x] == if x == "" then 0 else multiset(parts)[x]
    decreases |parts|
  {
    if parts != [] {
      RemoveEmptyCounts(parts[1..], x);
      assert parts == [parts[0]] + parts[1..];
    }
  }

  /** The pieces of a trimmed, non-blank text begin with a non-empty one. */
  lemma FirstPieceNonEmpty(t: string)
    requires t != [] && !IsWhiteSpace(t[0])
    ensures Split(t, NewLine)[0] != ""
  {
    assert !OccursAt(t, NewLine, 0);
  }

  /** A text that is not blank after trimming yields at least one URL, and the first one begins the trimmed text. */
  lemma NonBlankInputHasUrls(text: string)
    requires Trim(text) != ""
    ensures |SplitUrls(text)| >= 1
    ensures SplitUrls(text)[0] == Split(Trim(text), NewLine)[0]
  {
    var parts := Split(Trim(text), NewLine);
    FirstPieceNonEmpty(Trim(text));
    assert parts == [parts[0]] + parts[1..];
    RemoveEmptyAppend([parts[0]], parts[1..]);
  }

  /** Blank lines and the trailing line break vanish; the order of the links is kept. */
  lemma ExampleBlankLinesDropped()
    ensures SplitUrls("a\r\n\r\nb\r\n") == ["a", "b"]
  {
    TrimDropsTrailingBreak();
    SplitAtBlankLine();
    RemoveEmptyDropsBlank();
  }

  /** A line made only of spaces is not empty, so it survives as a URL of its own. */
  lemma ExampleSpacesKept()
    ensures SplitUrls("a\r\n \r\nb") == ["a", " ", "b"]
  {
    TrimKeepsInnerSpaces();
    SplitAtSpaceLine();
    RemoveEmptyKeepsSpaces();
  }

  /** A text without the separator is one piece. */
  lemma SplitWithoutSeparator(s: string, sep: string)
    requires sep != [] && !Contains(s, sep)
    ensures Split(s, sep) == [s]
  {
  }

  /**
   * Only the two-character line break separates links: two links on lines
   * ended by a bare line feed stay one URL, line feed included.
   */
  lemma ExampleLoneLineFeedKept()
    ensures SplitUrls("a\nb") == ["a\nb"]
  {
    var text := "a\nb";
    assert SkipLeading(text, 0) == 0;
    assert SkipTrailing(text, 0, 3) == 3;
    assert text[0..3] == text;
    assert Trim(text) == text;
    MissingCharNotContains(text, NewLine, '\r');
    SplitWithoutSeparator(text, NewLine);
    assert [text][1..] == [];
    assert RemoveEmpty([text]) == [text];
  }

  /** Two links on two lines give two URLs, in order. */
  lemma ExampleTwoLinks()
    ensures SplitUrls("a\r\nb") == ["a", "b"]
  {
    TrimKeepsTwoLinks();
    SplitTwoLinks();
    RemoveEmptyKeepsTwoLinks();
  }

  lemma TrimKeepsTwoLinks()
    ensures Trim("a\r\nb") == "a\r\nb"
  {
    var text := "a\r\nb";
    assert SkipLeading(text, 0) == 0;
    assert SkipTrailing(text, 0, 4) == 4;
    assert text[0..4] == text;
  }

  lemma SplitTwoLinks()
    ensures Split("a\r\nb", NewLine) == ["a", "b"]
  {
    var t := "a\r\nb";
    assert t[0..2][0] != NewLine[0] && t[1..3] == NewLine;
    assert IndexOf(t, NewLine, 0) == Some(1);
    assert t[..1] == "a" && t[3..] == "b";
    SplitLastPiece();
  }

  lemma RemoveEmptyKeepsTwoLinks()
    ensures RemoveEmpty(["a", "b"]) == ["a", "b"]
  {
    assert ["a", "b"][1..] == ["b"];
    assert ["b"][1..] == [];
  }

  lemma TrimDropsTrailingBreak()
    ensures Trim("a\r\n\r\nb\r\n") == "a\r\n\r\nb"
  {
    var text := "a\r\n\r\nb\r\n";
    assert SkipLeading(text, 0) == 0;
    assert SkipTrailing(text, 0, 8) == 6;
    assert text[0..6] == "a\r\n\r\nb";
  }

  lemma SplitLastPiece()
    ensures Split("b", NewLine) == ["b"]
  {
    assert IndexOf("b", NewLine, 0) == None;
  }

  lemma SplitAtBlankLine()
    ensures Split("a\r\n\r\nb", NewLine) == ["a", "", "b"]
  {
    var t := "a\r\n\r\nb";
    assert t[0..2][0] != NewLine[0] && t[1..3] == NewLine;
    assert IndexOf(t, NewLine, 0) == Some(1);
    assert t[..1] == "a" && t[3..] == "\r\nb";
    SplitBlankThenLast();
  }

  lemma SplitBlankThenLast()
    ensures Split("\r\nb", NewLine) == ["", "b"]
  {
    assert IndexOf("\r\nb", NewLine, 0) == Some(0);
    assert "\r\nb"[..0] == "" && "\r\nb"[2..] == "b";
    SplitLastPiece();
  }

  lemma RemoveEmptyDropsBlank()
    ensures RemoveEmpty(["a", "", "b"]) == ["a", "b"]
  {
    assert ["a", "", "b"][1..] == ["", "b"];
    assert ["", "b"][1..] == ["b"];
    assert ["b"][1..] == [];
  }

  lemma TrimKeepsInnerSpaces()
    ensures Trim("a\r\n \r\nb") == "a\r\n \r\nb"
  {
    var text := "a\r\n \r\nb";
    assert SkipLeading(text, 0) == 0;
    assert SkipTrailing(text, 0, 7) == 7;
    assert text[0..7] == text;
  }

  lemma SplitAtSpaceLine()
    ensures Split("a\r\n \r\nb", NewLine) == ["a", " ", "b"]
  {
    var t := "a\r\n \r\nb";
    assert t[0..2][0] != NewLine[0] && t[1..3] == NewLine;
    assert IndexOf(t, NewLine, 0) == Some(1);
    assert t[..1] == "a" && t[3..] == " \r\nb";
    var u := " \r\nb";
    assert u[0..2][0] != NewLine[0] && u[1..3] == NewLine;
    assert IndexOf(u, NewLine, 0) == Some(1);
    assert u[..1] == " " && u[3..] == "b";
    SplitLastPiece();
  }

  lemma RemoveEmptyKeepsSpaces()
    ensures RemoveEmpty(["a", " ", "b"]) == ["a", " ", "b"]
  {
    assert ["a", " ", "b"][1..] == [" ", "b"];
    assert [" ", "b"][1..] == ["b"];
    assert ["b"][1..] == [];
  }
}
