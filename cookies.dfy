/** The high-score cookie: `readScore` and what `saveScore` stores (js/04_main.js). */
module Cookies {

  /** The name under which the high score is stored. */
  const KEY: string := "tTotASG-score="

  /** A JavaScript number as far as the score goes: a whole value or NaN. */
  datatype Number = Num(value: nat) | NaN

  /* ------------------------------------------------------- string helpers */

  /** `s.split(sep)`: the maximal separator-free pieces, in order, always at least one. */
  function Split(s: string, sep: char): (parts: seq<string>)
    ensures |parts| >= 1
    ensures forall k :: 0 <= k < |parts| ==> sep !in parts[k]
    ensures Join(parts, sep) == s
    decreases |s|
  {
    if |s| == 0 then [""]
    else
      var rest := Split(s[1..], sep);
      if s[0] == sep then [""] + rest
      else
        assert Join(rest, sep) == s[1..];
        JoinHead(rest, sep, s[0]);
        [[s[0]] + rest[0]] + rest[1..]
  }

  /** The inverse of Split: the pieces with one separator between neighbours. */
  function Join(parts: seq<string>, sep: char): string
    requires |parts| >= 1
    decreases |parts|
  {
    if |parts| == 1 then parts[0] else parts[0] + [sep] + Join(parts[1..], sep)
  }

  lemma JoinHead(parts: seq<string>, sep: char, c: char)
    requires |parts| >= 1
    ensures Join([[c] + parts[0]] + parts[1..], sep) == [c] + Join(parts, sep)
  {
    var q := [[c] + parts[0]] + parts[1..];
    assert q[1..] == parts[1..];
  }

  /** A string without the separator splits into itself. */
  lemma {:induction false} SplitWithoutSeparator(s: string, sep: char)
    requires sep !in s
    ensures Split(s, sep) == [s]
    decreases |s|
  {
    if |s| > 0 {
      assert sep !in s[1..] by {
        forall k | 0 <= k < |s[1..]| ensures s[1..][k] != sep { assert s[1..][k] == s[k + 1]; }
      }
      SplitWithoutSeparator(s[1..], sep);
      assert [s[0]] + s[1..] == s;
    }
  }

  predicate OccursAt(s: string, key: string, k: int) {
    0 <= k && k + |key| <= |s| && s[k..k + |key|] == key
  }

  /** `s.indexOf(key)`: the first position of `key` in `s`, or -1. */
  function IndexOf(s: string, key: string): (r: int)
    ensures r == -1 || OccursAt(s, key, r)
    ensures r == -1 <==> forall k :: !OccursAt(s, key, k)
    ensures forall k :: 0 <= k < r ==> !OccursAt(s, key, k)
  {
    IndexFrom(s, key, 0)
  }

  function IndexFrom(s: string, key: string, from: nat): (r: int)
    ensures r == -1 || (from <= r && OccursAt(s, key, r))
    ensures r == -1 <==> forall k :: from <= k ==> !OccursAt(s, key, k)
    ensures forall k :: from <= k < r ==> !OccursAt(s, key, k)
    decreases |s| - from
  {
    if from + |key| > |s| then -1
    else if s[from..from + |key|] == key then from
    else IndexFrom(s, key, from + 1)
  }

  /* ---------------------------------------------------------------- numbers */

  predicate IsDigit(c: char) {
    '0' <= c <= '9'
  }

  predicate AllDigits(s: string) {
    forall k :: 0 <= k < |s| ==> IsDigit(s[k])
  }

  /** The decimal value of a digit string (0 for the empty string). */
  function DigitsValue(s: string): nat
    requires AllDigits(s)
    decreases |s|
  {
    if |s| == 0 then 0 else DigitsValue(s[..|s| - 1]) * 10 + (s[|s| - 1] - '0') as nat
  }

  /** `s * 1` restricted to digit strings: their value, and NaN for anything else. */
  function ToNumber(s: string): (n: Number)
    ensures AllDigits(s) <==> n.Num?
    ensures s == "" ==> n == Num(0)
  {
    if AllDigits(s) then Num(DigitsValue(s)) else NaN
  }

  /** `n + ''` for a whole non-negative number: its decimal digits, most significant first. */
  function NumberToString(n: nat): (s: string)
    ensures |s| >= 1 && AllDigits(s)
    decreases n
  {
    var d := ['0' + (n % 10) as char];
    if n < 10 then d else NumberToString(n / 10) + d
  }

  /** Printing a score and reading it back gives the score. */
  lemma {:induction false} NumberRoundTrip(n: nat)
    ensures ToNumber(NumberToString(n)) == Num(n)
    decreases n
  {
    var s := NumberToString(n);
    var last := '0' + (n % 10) as char;
    assert (last - '0') as nat == n % 10;
    if n >= 10 {
      NumberRoundTrip(n / 10);
      assert s[..|s| - 1] == NumberToString(n / 10);
      assert DigitsValue(s) == DigitsValue(NumberToString(n / 10)) * 10 + n % 10;
    } else {
      assert s[..|s| - 1] == "";
      assert DigitsValue(s) == n % 10;
    }
  }

  /* ------------------------------------------------------------ readScore */

  /** The score held by the first segment that contains KEY, or 0 when none does. */
  function FirstScore(segments: seq<string>): Number
    decreases |segments|
  {
    if |segments| == 0 then Num(0)
    else
      var index := IndexOf(segments[0], KEY);
      if index > -1 then ToNumber(segments[0][index + |KEY|..]) else FirstScore(segments[1..])
  }

  /** What `readScore` returns for the cookie string `cookie`. */
  function CookieScore(cookie: string): Number {
    FirstScore(Split(cookie, ';'))
  }

  /** No segment holds the key: the score is 0. */
  lemma {:induction false} NoKeyMeansZero(segments: seq<string>)
    requires forall k :: 0 <= k < |segments| ==> IndexOf(segments[k], KEY) == -1
    ensures FirstScore(segments) == Num(0)
    decreases |segments|
  {
    if |segments| > 0 {
      NoKeyMeansZero(segments[1..]);
    }
  }

  /** The first segment holding the key decides: its text after the key, as a number. */
  lemma {:induction false} FirstKeyDecides(segments: seq<string>, k: nat)
    requires k < |segments| && IndexOf(segments[k], KEY) > -1
    requires forall m :: 0 <= m < k ==> IndexOf(segments[m], KEY) == -1
    ensures FirstScore(segments) == ToNumber(segments[k][IndexOf(segments[k], KEY) + |KEY|..])
    decreases k
  {
    if k > 0 {
      FirstKeyDecides(segments[1..], k - 1);
    }
  }

  /** `readScore`: scans the ';'-separated segments and returns at the first one holding KEY. */
  method ReadScore(cookie: string) returns (score: Number)
    ensures score == CookieScore(cookie)
  {
    var cookies := Split(cookie, ';');
    var i := 0;
    while i < |cookies|
      invariant 0 <= i <= |cookies|
      invariant FirstScore(cookies[i..]) == FirstScore(cookies)
    {
      var segment := cookies[i];
      var index := IndexOf(segment, KEY);
      ghost var tail := cookies[i..];
      assert tail[0] == segment && tail[1..] == cookies[i + 1..];
      if index > -1 {
        assert FirstScore(tail) == ToNumber(segment[index + |KEY|..]);
        assert segment[index + |KEY|..|segment|] == segment[index + |KEY|..];
        return ToNumber(segment[index + |KEY|..|segment|]);
      }
      assert FirstScore(tail) == FirstScore(tail[1..]);
      i := i + 1;
    }
    return Num(0);
  }

  /** The cookie a save leaves behind: the key and the score's digits. */
  function SavedCookie(score: nat): string {
    KEY + NumberToString(score)
  }

  /** Reading back a saved score gives that score. */
  lemma SaveThenRead(score: nat)
    ensures CookieScore(SavedCookie(score)) == Num(score)
  {
    var s := SavedCookie(score);
    var digits := NumberToString(score);
    assert ';' !in s by {
      forall k | 0 <= k < |s| ensures s[k] != ';' {
        if k >= |KEY| { assert s[k] == digits[k - |KEY|]; assert IsDigit(digits[k - |KEY|]); }
      }
    }
    SplitWithoutSeparator(s, ';');
    assert OccursAt(s, KEY, 0) by { assert s[0..|KEY|] == KEY; }
    assert IndexOf(s, KEY) == 0;
    assert s[|KEY|..] == digits;
    NumberRoundTrip(score);
  }

  /** The page's cookie storage, holding this game's cookie only. */
  class CookieJar {
    var cookie: string

    constructor (cookie: string)
      ensures this.cookie == cookie
    {
      this.cookie := cookie;
    }

    /** `saveScore`: stores the score under KEY (expiry and path are not modelled). */
    method SaveScore(score: nat)
      modifies this
      ensures cookie == SavedCookie(score)
      ensures CookieScore(cookie) == Num(score)
    {
      cookie := SavedCookie(score);
      SaveThenRead(score);
    }
  }
}
