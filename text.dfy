/**
 * String facts the result formatters rely on: Python's `str.strip()` with no
 * argument, and prefix, suffix and substring relations.
 */
module Text {

  /** The characters for which Python's `str.isspace()` holds. */
  predicate IsSpace(c: char) {
    || ('\t' <= c <= '\r')              // tab, line feed, vertical tab, form feed, carriage return
    || ('\U{1C}' <= c <= '\U{1F}')      // file, group, record and unit separators
    || c == ' '
    || c == '\U{85}'                    // next line
    || c == '\U{A0}'                    // no-break space
    || c == '\U{1680}'                  // ogham space mark
    || ('\U{2000}' <= c <= '\U{200A}')  // en quad through hair space
    || c == '\U{2028}' || c == '\U{2029}' // line and paragraph separators
    || c == '\U{202F}' || c == '\U{205F}' // narrow no-break and medium mathematical spaces
    || c == '\U{3000}'                  // ideographic space
  }

  predicate AllSpace(s: string) {
    forall i :: 0 <= i < |s| ==> IsSpace(s[i])
  }

  /** Neither end of `s` is whitespace (vacuously so for the empty string). */
  predicate Trimmed(s: string) {
    s == [] || (!IsSpace(s[0]) && !IsSpace(s[|s| - 1]))
  }

  /** `s` with its leading whitespace removed. */
  function TrimStart(s: string): (r: string)
    ensures |r| <= |s| && r == s[|s| - |r|..]
    ensures AllSpace(s[..|s| - |r|])
    ensures r == [] || !IsSpace(r[0])
    decreases |s|
  {
    if s != [] && IsSpace(s[0]) then
      var r := TrimStart(s[1..]);
      assert s[..|s| - |r|] == [s[0]] + s[1..][..|s[1..]| - |r|];
      r
    else s
  }

  /** `s` with its trailing whitespace removed. */
  function TrimEnd(s: string): (r: string)
    ensures |r| <= |s| && r == s[..|r|]
    ensures AllSpace(s[|r|..])
    ensures r == [] || !IsSpace(r[|r| - 1])
    decreases |s|
  {
    if s != [] && IsSpace(s[|s| - 1]) then
      var r := TrimEnd(s[..|s| - 1]);
      assert s[|r|..] == s[..|s| - 1][|r|..] + [s[|s| - 1]];
      r
    else s
  }

  /**
   * Python's `s.strip()`: `s` is the result surrounded by whitespace only,
   * and the result neither begins nor ends with whitespace.
   */
  function Strip(s: string): (r: string)
    ensures Trimmed(r)
    ensures exists a, b :: AllSpace(a) && AllSpace(b) && s == a + r + b
  {
    StripTrimmed(s);
    StripSurround(s);
    TrimEnd(TrimStart(s))
  }

  lemma StripTrimmed(s: string)
    ensures Trimmed(TrimEnd(TrimStart(s)))
  {
    var t := TrimStart(s);
    var r := TrimEnd(t);
    assert r != [] ==> r[0] == t[0];
  }

  lemma StripSurround(s: string)
    ensures exists a, b :: AllSpace(a) && AllSpace(b) && s == a + TrimEnd(TrimStart(s)) + b
  {
    var t := TrimStart(s);
    var r := TrimEnd(t);
    var a, b := s[..|s| - |t|], t[|r|..];
    Rejoin(s, |s| - |t|);
    Rejoin(t, |r|);
    Regroup(a, r, b);
  }

  lemma Rejoin<T>(s: seq<T>, k: nat)
    requires k <= |s|
    ensures s[..k] + s[k..] == s
  {
  }

  lemma Regroup(a: string, r: string, b: string)
    ensures a + (r + b) == a + r + b
  {
  }

  lemma {:induction false} TrimStartSpaces(a: string, t: string)
    requires AllSpace(a) && (t == [] || !IsSpace(t[0]))
    ensures TrimStart(a + t) == t
    decreases |a|
  {
    if a != [] {
      assert (a + t)[1..] == a[1..] + t;
      TrimStartSpaces(a[1..], t);
    }
  }

  lemma {:induction false} TrimEndSpaces(t: string, b: string)
    requires AllSpace(b) && (t == [] || !IsSpace(t[|t| - 1]))
    ensures TrimEnd(t + b) == t
    decreases |b|
  {
    if b != [] {
      assert (t + b)[..|t + b| - 1] == t + b[..|b| - 1];
      TrimEndSpaces(t, b[..|b| - 1]);
    }
  }

  /**
   * The characterisation of `Strip` is complete: any way of writing `s` as
   * whitespace, a trimmed middle and whitespace has `Strip(s)` as its middle.
   */
  lemma StripUnique(a: string, m: string, b: string)
    requires AllSpace(a) && AllSpace(b) && Trimmed(m)
    ensures Strip(a + m + b) == m
  {
    if m == [] {
      assert a + m + b == (a + b) + [];
      TrimStartSpaces(a + b, []);
    } else {
      assert a + m + b == a + (m + b);
      TrimStartSpaces(a, m + b);
      TrimEndSpaces(m, b);
    }
  }

  /** Stripping twice is stripping once. */
  lemma StripIdempotent(s: string)
    ensures Strip(Strip(s)) == Strip(s)
  {
    var r := Strip(s);
    assert [] + r + [] == r;
    StripUnique([], r, []);
  }

  predicate StartsWith(s: string, p: string) {
    |p| <= |s| && s[..|p|] == p
  }

  predicate EndsWith(s: string, q: string) {
    |q| <= |s| && s[|s| - |q|..] == q
  }

  predicate Contains(s: string, t: string) {
    exists i :: 0 <= i <= |s| && StartsWith(s[i..], t)
  }

  lemma StartsWithTrans(s: string, p: string, q: string)
    requires StartsWith(s, p) && StartsWith(p, q)
    ensures StartsWith(s, q)
  {
    assert s[..|q|] == s[..|p|][..|q|];
  }

  /** The three pieces of a concatenation are where one expects them. */
  lemma Pieces(a: string, t: string, b: string)
    ensures StartsWith(a + t + b, a)
    ensures Contains(a + t + b, t)
    ensures EndsWith(a + t + b, b)
  {
    var s := a + t + b;
    assert s[|a|..][..|t|] == t;
    assert s[..|a|] == a;
    assert s[|s| - |b|..] == b;
  }
}

/**
 * The message convention of every result formatter: a success report
 * begins with a check mark, a failure report with a cross mark.
 */
module Report {
  import opened Text

  const SuccessMark: char := '\U{2705}'  // check mark button
  const FailureMark: char := '\U{274C}'  // cross mark

  /** How every failure report begins. */
  const FailedPrefix: string := [FailureMark] + " Failed"

  predicate ReportsSuccess(msg: string) {
    |msg| > 0 && msg[0] == SuccessMark
  }

  predicate ReportsFailure(msg: string) {
    |msg| > 0 && msg[0] == FailureMark
  }

  /**
   * The layout every formatter uses: a headline, a blank line, then an
   * identifying detail, a separator and the body.
   */
  function Compose(headline: string, detail: string, sep: string, body: string): (msg: string)
    ensures StartsWith(msg, headline) && Contains(msg, detail) && EndsWith(msg, body)
    ensures |headline| > 0 ==> msg[0] == headline[0]
  {
    var msg := headline + "\n\n" + detail + sep + body;
    LayoutStarts(headline, detail, sep, body);
    LayoutContains(headline, detail, sep, body);
    LayoutEnds(headline, detail, sep, body);
    msg
  }

  lemma LayoutStarts(headline: string, detail: string, sep: string, body: string)
    ensures StartsWith(headline + "\n\n" + detail + sep + body, headline)
  {
    var msg := headline + "\n\n" + detail + sep + body;
    assert msg[..|headline|] == headline;
  }

  lemma LayoutContains(headline: string, detail: string, sep: string, body: string)
    ensures Contains(headline + "\n\n" + detail + sep + body, detail)
  {
    var msg := headline + "\n\n" + detail + sep + body;
    assert msg == (headline + "\n\n") + detail + (sep + body);
    Pieces(headline + "\n\n", detail, sep + body);
  }

  lemma LayoutEnds(headline: string, detail: string, sep: string, body: string)
    ensures EndsWith(headline + "\n\n" + detail + sep + body, body)
  {
    var msg := headline + "\n\n" + detail + sep + body;
    assert msg[|msg| - |body|..] == body;
  }

  /** A headline built on `FailedPrefix` begins a message with it. */
  lemma FailureHeadline(rest: string, msg: string)
    requires StartsWith(msg, FailedPrefix + rest)
    ensures StartsWith(msg, FailedPrefix) && ReportsFailure(msg)
  {
    Pieces(FailedPrefix, rest, "");
    assert FailedPrefix + rest + "" == FailedPrefix + rest;
    StartsWithTrans(msg, FailedPrefix + rest, FailedPrefix);
  }
}
