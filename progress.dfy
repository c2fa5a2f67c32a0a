/**
 * The progress extractor of the download runner's stdout handler: the
 * leftmost match of the regular expression `(\d{1,3}\.\d)%` in one output
 * line, read as a number and capped at 100.
 *
 * Percentages are fixed-point tenths: "45.2%" reads as 452 and the cap of
 * 100 becomes 1000. The digit class is the ASCII digits.
 */
module Progress {
  import opened Wrappers

  /** The progress bar's maximum, 100.0, in tenths. */
  const Full: nat := 1000

  predicate IsDigit(c: char)
  {
    '0' <= c <= '9'
  }

  /** Every character of `s` in positions `lo` up to `hi` (exclusive) is a digit. */
  predicate DigitsIn(s: string, lo: nat, hi: nat)
    requires lo <= hi <= |s|
  {
    forall m :: lo <= m < hi ==> IsDigit(s[m])
  }

  function DigitValue(c: char): (d: nat)
    requires IsDigit(c)
    ensures d <= 9
  {
    (c as int) - ('0' as int)
  }

  function Pow10(n: nat): (p: nat)
    ensures p >= 1
  {
    if n == 0 then 1 else 10 * Pow10(n - 1)
  }

  /** The decimal value of the digit run `s[lo..hi]`, most significant digit first. */
  function DecimalValue(s: string, lo: nat, hi: nat): (n: nat)
    requires lo <= hi <= |s| && DigitsIn(s, lo, hi)
    ensures n < Pow10(hi - lo)
    decreases hi
  {
    if hi == lo then 0
    else DecimalValue(s, lo, hi - 1) * 10 + DigitValue(s[hi - 1])
  }

  /** The digit character for `d`. */
  function DigitChar(d: nat): (c: char)
    requires d <= 9
    ensures IsDigit(c) && DigitValue(c) == d
  {
    ('0' as int + d) as char
  }

  /** `n` printed in exactly `k` decimal digits, zero-padded on the left. */
  function Padded(n: nat, k: nat): (s: string)
    requires n < Pow10(k)
    ensures |s| == k && DigitsIn(s, 0, k)
  {
    if k == 0 then ""
    else
      SplitLastDigit(n, k);
      Padded(n / 10, k - 1) + [DigitChar(n % 10)]
  }

  /** The value of a digit run depends only on its characters, wherever it sits. */
  lemma {:induction false} DecimalValueShift(s: string, t: string, lo: nat, hi: nat, off: nat)
    requires lo <= hi <= |s| && DigitsIn(s, lo, hi)
    requires off + hi <= |t| && forall m :: lo <= m < hi ==> t[off + m] == s[m]
    ensures DigitsIn(t, off + lo, off + hi)
    ensures DecimalValue(t, off + lo, off + hi) == DecimalValue(s, lo, hi)
    decreases hi
  {
    assert forall m :: off + lo <= m < off + hi ==> t[m] == s[m - off];
    if hi > lo {
      DecimalValueShift(s, t, lo, hi - 1, off);
    }
  }

  /** A `k`-digit number is its last digit after a `k - 1`-digit number. */
  lemma SplitLastDigit(n: nat, k: nat)
    requires k >= 1 && n < Pow10(k)
    ensures n == n / 10 * 10 + n % 10 && n / 10 < Pow10(k - 1)
  {
  }

  /** Reading a number printed in `k` digits gives the number back. */
  lemma {:induction false} PaddedReadsBack(n: nat, k: nat)
    requires n < Pow10(k)
    ensures DecimalValue(Padded(n, k), 0, k) == n
  {
    if k > 0 {
      var q, r := n / 10, n % 10;
      SplitLastDigit(n, k);
      var s, front := Padded(n, k), Padded(q, k - 1);
      assert s == front + [DigitChar(r)];
      PaddedReadsBack(q, k - 1);
      assert forall m :: 0 <= m < k - 1 ==> s[m] == front[m];
      DecimalValueShift(front, s, 0, k - 1, 0);
      assert DecimalValue(s, 0, k - 1) == q;
      assert DigitValue(s[k - 1]) == r;
      assert DecimalValue(s, 0, k) == q * 10 + r;
    }
  }

  /** Printing the value of a run of `k` digits in `k` digits gives the run back. */
  lemma {:induction false} DigitsPrintBack(s: string, k: nat)
    requires |s| == k && DigitsIn(s, 0, k)
    ensures Padded(DecimalValue(s, 0, k), k) == s
  {
    if k > 0 {
      var front := s[..k - 1];
      DigitsPrintBack(front, k - 1);
      DecimalValueShift(front, s, 0, k - 1, 0);
      var n, a, d := DecimalValue(s, 0, k), DecimalValue(front, 0, k - 1), DigitValue(s[k - 1]);
      assert n == a * 10 + d;
      assert n / 10 == a && n % 10 == d;
      assert DigitChar(d) == s[k - 1];
      assert s == front + [s[k - 1]];
    }
  }

  /**
   * The pattern `(\d{1,3}\.\d)%` matches at position `i` with exactly `k`
   * digits before the point.
   */
  predicate PatternAt(s: string, i: nat, k: nat)
  {
    && 1 <= k <= 3
    && i + k + 3 <= |s|
    && DigitsIn(s, i, i + k)
    && s[i + k] == '.'
    && IsDigit(s[i + k + 1])
    && s[i + k + 2] == '%'
  }

  /** The match at `i` with `k` digits is the leftmost one in `s`. */
  ghost predicate IsLeftmostMatch(s: string, i: nat, k: nat)
  {
    PatternAt(s, i, k) && forall j: nat, k': nat :: j < i ==> !PatternAt(s, j, k')
  }

  /** At a given start position at most one digit count lets the pattern match. */
  lemma WidthUnique(s: string, i: nat, k1: nat, k2: nat)
    requires PatternAt(s, i, k1) && PatternAt(s, i, k2)
    ensures k1 == k2
  {
  }

  /** The matched number `<digits>.<digit>` as tenths. */
  function Tenths(s: string, i: nat, k: nat): (n: nat)
    requires PatternAt(s, i, k)
    ensures n <= 9999
  {
    assert Pow10(k) <= Pow10(3) == 1000;
    DecimalValue(s, i, i + k) * 10 + DigitValue(s[i + k + 1])
  }

  /** `Math.Min(100, value)` in tenths. */
  function Clamp(n: nat): (r: nat)
    ensures r <= Full && r <= n
    ensures r == n || r == Full
  {
    if n < Full then n else Full
  }

  /** One leftmost regex match: its start and the number of integer digits. */
  datatype Match = Match(start: nat, width: nat)

  /**
   * The regex engine's attempt at one start position: `\d{1,3}` is greedy
   * and backtracks, so three, two, then one digit are tried in turn.
   */
  function MatchAt(s: string, i: nat): (r: Option<nat>)
    ensures r.Some? ==> PatternAt(s, i, r.value)
    ensures r.None? ==> forall k: nat :: !PatternAt(s, i, k)
  {
    if PatternAt(s, i, 3) then Some(3)
    else if PatternAt(s, i, 2) then Some(2)
    else if PatternAt(s, i, 1) then Some(1)
    else None
  }

  /** The scan over start positions `from`, `from + 1`, ... that finds the leftmost match. */
  function FindFrom(s: string, from: nat): (r: Option<Match>)
    ensures r.Some? ==> from <= r.value.start && PatternAt(s, r.value.start, r.value.width)
    ensures r.Some? ==> forall j: nat, k: nat :: from <= j < r.value.start ==> !PatternAt(s, j, k)
    ensures r.None? ==> forall j: nat, k: nat :: from <= j ==> !PatternAt(s, j, k)
    decreases |s| - from
  {
    if from >= |s| then None
    else
      match MatchAt(s, from)
      case Some(k) => Some(Match(from, k))
      case None => FindFrom(s, from + 1)
  }

  /** `Regex.Match(line, @"(\d{1,3}\.\d)%")`. */
  function FindMatch(line: string): (r: Option<Match>)
    ensures r.Some? ==> IsLeftmostMatch(line, r.value.start, r.value.width)
    ensures r.None? <==> forall i: nat, k: nat :: !PatternAt(line, i, k)
  {
    FindFrom(line, 0)
  }

  /**
   * The progress value the stdout handler takes from one line: the leftmost
   * match's number capped at 100, or None when the line has no match.
   */
  function Extract(line: string): (r: Option<nat>)
    ensures r.Some? ==> r.value <= Full
    ensures r.None? <==> forall i: nat, k: nat :: !PatternAt(line, i, k)
  {
    match FindMatch(line)
    case Some(m) => Some(Clamp(Tenths(line, m.start, m.width)))
    case None => None
  }

  /**
   * Extraction yields `v` exactly when the leftmost match's number, capped at
   * 100, is `v`.
   */
  lemma ExtractIsLeftmostClamped(line: string, v: nat)
    ensures Extract(line) == Some(v) <==>
      exists i: nat, k: nat :: IsLeftmostMatch(line, i, k) && v == Clamp(Tenths(line, i, k))
  {
    var m := FindMatch(line);
    if Extract(line) == Some(v) {
      assert IsLeftmostMatch(line, m.value.start, m.value.width);
    }
    if i: nat, k: nat :| IsLeftmostMatch(line, i, k) && v == Clamp(Tenths(line, i, k)) {
      assert m.Some?;
      var i', k' := m.value.start, m.value.width;
      assert !(i < i') && !(i' < i);
      WidthUnique(line, i, k, k');
    }
  }

  /** A percentage printed at position `i` matches there and reads as its value in tenths. */
  lemma PaddedPercentAt(line: string, i: nat, whole: nat, k: nat, tenth: nat)
    requires 1 <= k <= 3 && whole < Pow10(k) && tenth <= 9
    requires i + k + 3 <= |line| && line[i..i + k] == Padded(whole, k)
    requires line[i + k] == '.' && line[i + k + 1] == DigitChar(tenth) && line[i + k + 2] == '%'
    ensures PatternAt(line, i, k) && Tenths(line, i, k) == whole * 10 + tenth
  {
    var digits := Padded(whole, k);
    assert forall m :: 0 <= m < k ==> line[i + m] == digits[m];
    DecimalValueShift(digits, line, 0, k, i);
    PaddedReadsBack(whole, k);
  }

  /**
   * A line whose first digit begins a percentage printed with one to three
   * integer digits reads as that percentage in tenths, capped at 100,
   * whatever follows it.
   */
  lemma ExtractReadsFirstPercent(prefix: string, whole: nat, k: nat, tenth: nat, rest: string)
    requires 1 <= k <= 3 && whole < Pow10(k) && tenth <= 9
    requires forall m :: 0 <= m < |prefix| ==> !IsDigit(prefix[m])
    ensures Extract(prefix + Padded(whole, k) + ['.', DigitChar(tenth), '%'] + rest) == Some(Clamp(whole * 10 + tenth))
  {
    var digits := Padded(whole, k);
    var line := prefix + digits + ['.', DigitChar(tenth), '%'] + rest;
    var i := |prefix|;
    assert line[i..i + k] == digits;
    assert line[i + k] == '.' && line[i + k + 1] == DigitChar(tenth) && line[i + k + 2] == '%';
    PaddedPercentAt(line, i, whole, k, tenth);
    forall j: nat, k': nat | j < i
      ensures !PatternAt(line, j, k')
    {
      assert line[j] == prefix[j];
    }
    ExtractIsLeftmostClamped(line, Clamp(whole * 10 + tenth));
  }

  /** Worked example: a yt-dlp progress line, whatever the size, speed and time that follow. */
  lemma ExampleDownloadLine(rest: string)
    ensures Extract("[download]  45.2%" + rest) == Some(452)
  {
    var prefix := "[download]  ";
    DownloadTagHasNoDigit(prefix);
    ExtractReadsFirstPercent(prefix, 45, 2, 2, rest);
    PrintedFortyFiveTwo(prefix);
  }

  lemma DownloadTagHasNoDigit(prefix: string)
    requires prefix == "[download]  "
    ensures forall m :: 0 <= m < |prefix| ==> !IsDigit(prefix[m])
  {
  }

  lemma PrintedFortyFiveTwo(prefix: string)
    requires prefix == "[download]  "
    ensures prefix + Padded(45, 2) + ['.', DigitChar(2), '%'] == "[download]  45.2%"
  {
    assert Padded(4, 1) == [DigitChar(4)] == "4";
    assert Padded(45, 2) == Padded(4, 1) + [DigitChar(5)] == "45";
  }

  /** Worked example: in "1234.5%" the digit run must end at the point, so "234.5" matches and is capped. */
  lemma ExampleFourDigits()
    ensures FindMatch("1234.5%") == Some(Match(1, 3))
    ensures Extract("1234.5%") == Some(Full)
  {
    var s := "1234.5%";
    assert !PatternAt(s, 0, 1) && !PatternAt(s, 0, 2) && !PatternAt(s, 0, 3);
    assert PatternAt(s, 1, 3);
    assert MatchAt(s, 0) == None;
    assert MatchAt(s, 1) == Some(3);
    assert DecimalValue(s, 1, 4) == 234;
  }

  /** Worked example: of two percentages on one line the first one wins. */
  lemma ExampleLeftmostWins()
    ensures Extract("a 45.2% b 60.0%") == Some(452)
  {
    var s := "a 45.2% b 60.0%";
    assert !IsDigit(s[0]) && !IsDigit(s[1]);
    assert MatchAt(s, 0) == None;
    assert MatchAt(s, 1) == None;
    assert PatternAt(s, 2, 2);
    assert MatchAt(s, 2) == Some(2);
    assert DecimalValue(s, 2, 4) == 45;
  }
}
