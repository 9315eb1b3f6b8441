/** The parts of ECMAScript string semantics the frontend relies on:
    `String.prototype.trim`, `String.prototype.slice` and truthiness. */
module JsText {
  import opened Wrappers

  /** ECMAScript WhiteSpace and LineTerminator code points, the set `trim` removes. */
  predicate IsWhitespace(c: char) {
    || c == '\t' || c == '\n' || c == '\U{000B}' || c == '\U{000C}' || c == '\r'
    || c == ' ' || c == '\U{00A0}' || c == '\U{1680}'
    || ('\U{2000}' <= c <= '\U{200A}')
    || c == '\U{2028}' || c == '\U{2029}' || c == '\U{202F}' || c == '\U{205F}'
    || c == '\U{3000}' || c == '\U{FEFF}'
  }

  predicate AllWhitespace(s: string) {
    forall k :: 0 <= k < |s| ==> IsWhitespace(s[k])
  }

  /** Neither end of `s` is whitespace (vacuously true of the empty string). */
  predicate Trimmed(s: string) {
    s == [] || (!IsWhitespace(s[0]) && !IsWhitespace(s[|s| - 1]))
  }

  /** The number of whitespace characters `s` starts with. */
  function Leading(s: string): (n: nat)
    ensures n <= |s|
  {
    if s == [] || !IsWhitespace(s[0]) then 0 else 1 + Leading(s[1..])
  }

  /** The number of whitespace characters `s` ends with. */
  function Trailing(s: string): (n: nat)
    ensures n <= |s|
  {
    if s == [] || !IsWhitespace(s[|s| - 1]) then 0 else 1 + Trailing(s[..|s| - 1])
  }

  /** `Leading` counts exactly the whitespace run at the start. */
  lemma {:induction false} LeadingIsMaximal(s: string)
    ensures AllWhitespace(s[..Leading(s)])
    ensures Leading(s) < |s| ==> !IsWhitespace(s[Leading(s)])
  {
    if s != [] && IsWhitespace(s[0]) {
      LeadingIsMaximal(s[1..]);
      var n := Leading(s);
      assert s[1..][..n - 1] == s[1..n];
      assert forall k :: 1 <= k < n ==> s[..n][k] == s[1..][..n - 1][k - 1];
    }
  }

  /** `Trailing` counts exactly the whitespace run at the end. */
  lemma {:induction false} TrailingIsMaximal(s: string)
    ensures AllWhitespace(s[|s| - Trailing(s)..])
    ensures Trailing(s) < |s| ==> !IsWhitespace(s[|s| - 1 - Trailing(s)])
  {
    if s != [] && IsWhitespace(s[|s| - 1]) {
      var front := s[..|s| - 1];
      TrailingIsMaximal(front);
      var m := Trailing(s);
      var tail, frontTail := s[|s| - m..], front[|front| - (m - 1)..];
      forall k | 0 <= k < m - 1 ensures tail[k] == frontTail[k] { }
    }
  }

  /** `s.trim()`: `s` without its leading and trailing whitespace. */
  function Trim(s: string): (r: string)
    ensures Trimmed(r)
    ensures |r| <= |s|
    ensures r == [] <==> AllWhitespace(s)
  {
    var i := Leading(s);
    var t := s[i..];
    var r := t[..|t| - Trailing(t)];
    LeadingIsMaximal(s);
    TrailingIsMaximal(t);
    r
  }

  /** `Trim(s)` is an infix of `s` with only whitespace on either side of it. */
  lemma TrimIsInfix(s: string)
    ensures Leading(s) + |Trim(s)| <= |s|
    ensures Trim(s) == s[Leading(s)..Leading(s) + |Trim(s)|]
    ensures AllWhitespace(s[..Leading(s)]) && AllWhitespace(s[Leading(s) + |Trim(s)|..])
  {
    var i := Leading(s);
    var t := s[i..];
    LeadingIsMaximal(s);
    TrailingIsMaximal(t);
    assert s[i + |Trim(s)|..] == t[|t| - Trailing(t)..];
  }

  /** Whitespace put in front adds to the leading run. */
  lemma {:induction false} LeadingPrefix(w: string, s: string)
    requires AllWhitespace(w)
    ensures Leading(w + s) == |w| + Leading(s)
  {
    if w == [] {
      assert w + s == s;
    } else {
      assert (w + s)[1..] == w[1..] + s;
      assert (w + s)[0] == w[0];
      LeadingPrefix(w[1..], s);
    }
  }

  /** Whitespace put behind adds to the trailing run. */
  lemma {:induction false} TrailingSuffix(s: string, w: string)
    requires AllWhitespace(w)
    ensures Trailing(s + w) == Trailing(s) + |w|
  {
    if w == [] {
      assert s + w == s;
    } else {
      var n := |w|;
      assert (s + w)[..|s + w| - 1] == s + w[..n - 1];
      assert (s + w)[|s + w| - 1] == w[n - 1];
      TrailingSuffix(s, w[..n - 1]);
    }
  }

  /** Text appended after a string that is not all whitespace does not change
      its leading run. */
  lemma {:induction false} LeadingAppend(s: string, x: string)
    requires !AllWhitespace(s)
    ensures Leading(s + x) == Leading(s)
  {
    assert (s + x)[0] == s[0];
    if IsWhitespace(s[0]) {
      assert (s + x)[1..] == s[1..] + x;
      LeadingAppend(s[1..], x);
    }
  }

  /** Whitespace padding on either side does not change what `trim` returns. */
  lemma TrimPadded(text: string, left: string, right: string)
    requires AllWhitespace(left) && AllWhitespace(right)
    ensures Trim(left + text + right) == Trim(text)
  {
    var s := left + text + right;
    assert s == left + (text + right);
    if AllWhitespace(text) {
      assert AllWhitespace(s);
    } else {
      LeadingPrefix(left, text + right);
      LeadingAppend(text, right);
      var i := Leading(text);
      assert s[|left| + i..] == text[i..] + right;
      TrailingSuffix(text[i..], right);
    }
  }

  /** A string whose ends are not whitespace is left as it is by `trim`. */
  lemma TrimmedIsFixed(s: string)
    requires Trimmed(s)
    ensures Trim(s) == s
  {
  }

  /** Trimming twice is trimming once. */
  lemma TrimIdempotent(s: string)
    ensures Trim(Trim(s)) == Trim(s)
  {
    TrimmedIsFixed(Trim(s));
  }

  /** JavaScript truthiness of a `string | null` value: present and non-empty. */
  predicate Truthy(s: Option<string>) {
    s.Some? && s.value != ""
  }

  /** ECMAScript's clamping of a relative position into `[0, len]`: a negative
      position counts from the end. */
  function RelativeIndex(pos: int, len: nat): (k: nat)
    ensures k <= len
    ensures pos >= 0 ==> k == if pos <= len then pos else len
    ensures pos < 0 ==> k == if len + pos >= 0 then len + pos else 0
  {
    if pos < 0 then (if len + pos < 0 then 0 else len + pos)
    else if pos > len then len else pos
  }

  /** `s.slice(start, end)`; an absent `end` means the length of `s`. */
  function Slice(s: string, start: int, end: Option<int>): (r: string)
    ensures |r| <= |s|
    ensures var from, to := RelativeIndex(start, |s|), RelativeIndex(end.GetOr(|s|), |s|);
      (from < to ==> r == s[from..to]) && (to <= from ==> r == [])
  {
    var from := RelativeIndex(start, |s|);
    var to := RelativeIndex(end.GetOr(|s|), |s|);
    if from < to then s[from..to] else ""
  }
}
