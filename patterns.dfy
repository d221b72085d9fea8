/**
 * The regular expressions of elevator.py over ASCII text.
 *
 * `re.match(p + '$', t)` asks whether all of t has the shape p; it is modelled
 * by a scanner. `re.search(p, t)` returns the leftmost, greedy match of p
 * inside t, or None; it is modelled by position arithmetic.
 */
module Patterns {

  import opened Wrappers
  import opened PyText

  /**
   * A two-state scanner for `\d+(?:,\d+)*`, anchored at both ends.
   * `inRun` holds when the last character read was a digit; a comma is allowed
   * only then, and the text must end in that state.
   */
  predicate ScanDigitList(s: string, inRun: bool)
    decreases |s|
  {
    if s == [] then inRun
    else if IsDigit(s[0]) then ScanDigitList(s[1..], true)
    else s[0] == ',' && inRun && ScanDigitList(s[1..], false)
  }

  /** All of t has the shape `start=` followed by one or more digits. */
  predicate MatchesStartPattern(t: string) {
    |t| >= 6 && t[..6] == "start=" && IsDigitRun(t[6..])
  }

  /** All of t has the shape `floor=` followed by digit runs separated by single commas. */
  predicate MatchesFloorPattern(t: string) {
    |t| >= 6 && t[..6] == "floor=" && ScanDigitList(t[6..], false)
  }

  /**
   * The comma-separated pieces of s are all digit runs, except that the first
   * may be empty when a digit was read just before s.
   */
  predicate PiecesAreRuns(s: string, inRun: bool) {
    && AllDigits(Split(s)[0])
    && (inRun || |Split(s)[0]| > 0)
    && (forall k :: 1 <= k < |Split(s)| ==> IsDigitRun(Split(s)[k]))
  }

  /**
   * The scanner accepts exactly the texts whose comma-separated pieces are all
   * non-empty digit runs. Stated for either start state.
   */
  lemma {:induction false} ScanDigitListBySplit(s: string, inRun: bool)
    ensures ScanDigitList(s, inRun) <==> PiecesAreRuns(s, inRun)
  {
    if s != [] {
      if IsDigit(s[0]) {
        ScanDigitListBySplit(s[1..], true);
        PiecesAfterDigit(s, inRun);
      } else if s[0] == ',' {
        ScanDigitListBySplit(s[1..], false);
        PiecesAfterComma(s, inRun);
      } else {
        assert Split(s)[0][0] == s[0];
      }
    }
  }

  /** A leading digit joins the first piece of the rest. */
  lemma PiecesAfterDigit(s: string, inRun: bool)
    requires s != [] && IsDigit(s[0])
    ensures PiecesAreRuns(s, inRun) <==> PiecesAreRuns(s[1..], true)
  {
    var rest := Split(s[1..]);
    assert Split(s) == [[s[0]] + rest[0]] + rest[1..];
    assert forall k :: 0 <= k < |rest[0]| ==> Split(s)[0][k + 1] == rest[0][k];
    assert forall k :: 1 <= k < |Split(s)| ==> Split(s)[k] == rest[k];
  }

  /** A leading comma closes an empty first piece; the rest must then be all runs. */
  lemma PiecesAfterComma(s: string, inRun: bool)
    requires s != [] && s[0] == ','
    ensures PiecesAreRuns(s, inRun) <==> inRun && PiecesAreRuns(s[1..], false)
  {
    var rest := Split(s[1..]);
    assert Split(s) == [""] + rest;
    if forall k :: 0 <= k < |rest| ==> IsDigitRun(rest[k]) {
      forall k | 1 <= k < |Split(s)| ensures IsDigitRun(Split(s)[k]) {
        assert Split(s)[k] == rest[k - 1];
      }
    }
    if forall k :: 1 <= k < |Split(s)| ==> IsDigitRun(Split(s)[k]) {
      forall k | 0 <= k < |rest| ensures IsDigitRun(rest[k]) {
        assert rest[k] == Split(s)[k + 1];
      }
    }
  }

  /** `\d+(?:,\d+)*` matches all of s exactly when every piece of `s.split(',')` is a digit run. */
  lemma DigitListBySplit(s: string)
    ensures ScanDigitList(s, false) <==> forall k :: 0 <= k < |Split(s)| ==> IsDigitRun(Split(s)[k])
  {
    ScanDigitListBySplit(s, false);
    var pieces := Split(s);
    if ScanDigitList(s, false) {
      assert IsDigitRun(pieces[0]);
    } else if IsDigitRun(pieces[0]) {
      var k :| 1 <= k < |pieces| && !IsDigitRun(pieces[k]);
      assert !IsDigitRun(Split(s)[k]);
    } else {
      assert !IsDigitRun(Split(s)[0]);
    }
  }

  /** The end of the run of digits that starts at i. */
  function DigitRunEnd(s: string, i: nat): (j: nat)
    requires i <= |s|
    ensures i <= j <= |s|
    ensures forall k :: i <= k < j ==> IsDigit(s[k])
    ensures j < |s| ==> !IsDigit(s[j])
    decreases |s| - i
  {
    if i < |s| && IsDigit(s[i]) then DigitRunEnd(s, i + 1) else i
  }

  /** The position of the first digit at or after i, or |s| when there is none. */
  function FirstDigit(s: string, i: nat): (j: nat)
    requires i <= |s|
    ensures i <= j <= |s|
    ensures forall k :: i <= k < j ==> !IsDigit(s[k])
    ensures j < |s| ==> IsDigit(s[j])
    decreases |s| - i
  {
    if i == |s| || IsDigit(s[i]) then i else FirstDigit(s, i + 1)
  }

  /**
   * Where the greedy `(?:,\d+)*` stops when it starts at j: it takes a comma
   * only when a digit follows it, and then the whole run of digits.
   */
  function ListMatchEnd(s: string, j: nat): (e: nat)
    requires j <= |s|
    ensures j <= e <= |s|
    ensures e == j || (e < |s| ==> !IsDigit(s[e]))
    ensures !(e + 1 < |s| && s[e] == ',' && IsDigit(s[e + 1]))
    decreases |s| - j
  {
    if j + 1 < |s| && s[j] == ',' && IsDigit(s[j + 1]) then ListMatchEnd(s, DigitRunEnd(s, j + 1))
    else j
  }

  /**
   * Searching s for `\d+`: the first run of digits, taken whole. The run found
   * starts after a stretch without digits and is not followed by a digit.
   */
  function SearchDigitRun(s: string): (m: Option<string>)
    ensures m.None? <==> AllNonDigits(s)
    ensures m.Some? ==> IsDigitRun(m.value)
    ensures m.Some? ==>
              exists i ::
                && 0 <= i <= |s| - |m.value|
                && AllNonDigits(s[..i])
                && s[i..i + |m.value|] == m.value
                && (i + |m.value| < |s| ==> !IsDigit(s[i + |m.value|]))
  {
    var i := FirstDigit(s, 0);
    if i == |s| then None
    else
      var e := DigitRunEnd(s, i);
      assert AllNonDigits(s[..i]) && s[i..e][0] == s[i];
      Some(s[i..e])
  }

  /**
   * Searching s for `\d+(?:,\d+)*`: the leftmost match, as long as greed makes
   * it. The text found is a list of digit runs, it starts after a stretch
   * without digits, and the character after it neither is a digit nor starts
   * a further `,\d`.
   */
  function SearchDigitList(s: string): (m: Option<string>)
    ensures m.None? <==> AllNonDigits(s)
    ensures m.Some? ==> ScanDigitList(m.value, false)
    ensures m.Some? ==>
              exists i ::
                && 0 <= i <= |s| - |m.value|
                && AllNonDigits(s[..i])
                && s[i..i + |m.value|] == m.value
                && (i + |m.value| < |s| ==> !IsDigit(s[i + |m.value|]))
                && !(i + |m.value| + 1 < |s| && s[i + |m.value|] == ',' && IsDigit(s[i + |m.value| + 1]))
  {
    var i := FirstDigit(s, 0);
    if i == |s| then None
    else
      var d := DigitRunEnd(s, i);
      var e := ListMatchEnd(s, d);
      ListMatchScans(s, i, d, e);
      assert AllNonDigits(s[..i]) && |s[i..e]| == e - i;
      Some(s[i..e])
  }

  /** The text the list search takes from i is accepted by the list scanner. */
  lemma ListMatchScans(s: string, i: nat, d: nat, e: nat)
    requires i < d <= |s| && d == DigitRunEnd(s, i)
    requires e == ListMatchEnd(s, d)
    ensures ScanDigitList(s[i..e], false)
  {
    var t := s[i..e];
    ListTailScans(s, d);
    ScanSkipsDigits(t, 0, d - i, false);
    assert t[0..] == t && t[d - i..] == s[d..e];
  }

  /** Each `,\d+` the greedy list match takes after j leaves the scanner in the digit state. */
  lemma {:induction false} ListTailScans(s: string, j: nat)
    requires j <= |s|
    ensures ScanDigitList(s[j..ListMatchEnd(s, j)], true)
    decreases |s| - j
  {
    var e := ListMatchEnd(s, j);
    if j + 1 < |s| && s[j] == ',' && IsDigit(s[j + 1]) {
      var d := DigitRunEnd(s, j + 1);
      ListTailScans(s, d);
      var t := s[j + 1..e];
      ScanSkipsDigits(t, 0, d - j - 1, false);
      assert t[0..] == t && t[d - j - 1..] == s[d..e];
      assert s[j..e] == [','] + t;
      assert s[j..e][1..] == t;
    }
  }

  predicate AllNonDigits(s: string) {
    forall k :: 0 <= k < |s| ==> !IsDigit(s[k])
  }

  /** On a digit run that starts at a, the scanner skips to the run's end b in the digit state. */
  lemma {:induction false} ScanSkipsDigits(s: string, a: nat, b: nat, inRun: bool)
    requires a < b <= |s|
    requires forall k :: a <= k < b ==> IsDigit(s[k])
    ensures ScanDigitList(s[a..], inRun) == ScanDigitList(s[b..], true)
    decreases b - a
  {
    assert s[a..][1..] == s[a + 1..];
    if a + 1 < b {
      ScanSkipsDigits(s, a + 1, b, true);
    }
  }

  /** When the rest of the text is a well-formed list tail, the greedy match takes all of it. */
  lemma {:induction false} ListMatchEndReachesEnd(s: string, j: nat)
    requires j <= |s|
    requires j < |s| ==> !IsDigit(s[j])
    requires ScanDigitList(s[j..], true)
    ensures ListMatchEnd(s, j) == |s|
    decreases |s| - j
  {
    if j < |s| {
      assert s[j..][1..] == s[j + 1..];
      assert s[j] == ',' && ScanDigitList(s[j + 1..], false);
      var r := s[j + 1..];
      assert r != [] && IsDigit(r[0]);
      assert r[0] == s[j + 1];
      var e := DigitRunEnd(s, j + 1);
      ScanSkipsDigits(s, j + 1, e, false);
      ListMatchEndReachesEnd(s, e);
    }
  }

  /** On a token accepted by `start=\d+$`, the search for `\d+` returns exactly the digits after `start=`. */
  lemma SearchStartToken(t: string)
    requires MatchesStartPattern(t)
    ensures SearchDigitRun(t) == Some(t[6..])
  {
    assert forall k :: 0 <= k < 6 ==> t[k] == "start="[k];
    assert forall k :: 0 <= k < 6 ==> !IsDigit(t[k]);
    assert IsDigit(t[6]) by {
      assert t[6..][0] == t[6];
    }
    assert FirstDigit(t, 0) == 6;
    assert forall k :: 6 <= k < |t| ==> IsDigit(t[k]) by {
      forall k | 6 <= k < |t| ensures IsDigit(t[k]) {
        assert t[k] == t[6..][k - 6];
      }
    }
    var e := DigitRunEnd(t, 6);
    assert e == |t|;
    assert SearchDigitRun(t) == Some(t[6..e]);
    assert t[6..e] == t[6..];
  }

  /** On a token accepted by `floor=\d+(?:,\d+)*$`, the search returns exactly the list after `floor=`. */
  lemma SearchFloorToken(t: string)
    requires MatchesFloorPattern(t)
    ensures SearchDigitList(t) == Some(t[6..])
  {
    assert forall k :: 0 <= k < 6 ==> t[k] == "floor="[k];
    assert forall k :: 0 <= k < 6 ==> !IsDigit(t[k]);
    var r := t[6..];
    assert r != [] && IsDigit(r[0]);
    assert r[0] == t[6];
    assert FirstDigit(t, 0) == 6;
    var e := DigitRunEnd(t, 6);
    ScanSkipsDigits(t, 6, e, false);
    ListMatchEndReachesEnd(t, e);
    assert SearchDigitList(t) == Some(t[6..ListMatchEnd(t, e)]);
    assert t[6..|t|] == t[6..];
  }

  /** A digit run followed by a comma hands the scanner the rest of the text in the start state. */
  lemma ScanDigitListCons(d: string, rest: string, inRun: bool)
    requires IsDigitRun(d)
    ensures ScanDigitList(d + "," + rest, inRun) == ScanDigitList(rest, false)
  {
    var s := d + "," + rest;
    ScanSkipsDigits(s, 0, |d|, inRun);
    assert s[0..] == s;
    assert s[|d|..][1..] == rest;
  }

  /** A lone digit run is a list of one floor. */
  lemma ScanDigitListRun(d: string, inRun: bool)
    requires IsDigitRun(d)
    ensures ScanDigitList(d, inRun)
  {
    ScanSkipsDigits(d, 0, |d|, inRun);
    assert d[0..] == d;
  }

  /** A character that is neither a digit nor a comma rejects the whole list (`a`, `-`). */
  lemma {:induction false} ScanRejectsForeignChar(s: string, i: nat, inRun: bool)
    requires i < |s| && !IsDigit(s[i]) && s[i] != ','
    ensures !ScanDigitList(s, inRun)
  {
    if i > 0 {
      ScanRejectsForeignChar(s[1..], i - 1, IsDigit(s[0]));
    }
  }

  /** Two commas in a row, that is an empty entry, reject the whole list. */
  lemma {:induction false} ScanRejectsEmptyEntry(s: string, i: nat, inRun: bool)
    requires i + 1 < |s| && s[i] == ',' && s[i + 1] == ','
    ensures !ScanDigitList(s, inRun)
  {
    if i > 0 {
      ScanRejectsEmptyEntry(s[1..], i - 1, IsDigit(s[0]));
    } else {
      assert s[1..][0] == ',';
    }
  }
}
