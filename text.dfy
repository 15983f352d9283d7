/** The .NET string operations the importer relies on: Trim, ToUpper, Replace, the `Right`
    extension and comma-joining. */
module Text {

  /** `char.IsWhiteSpace` of .NET, which `String.Trim()` strips: the Unicode space separators,
      U+0009..U+000D, U+0085, and the line and paragraph separators. */
  predicate IsWhiteSpace(c: char) {
    ('\t' <= c <= '\r') || c == ' ' || c == '\U{0085}' || c == '\U{00A0}' || c == '\U{1680}'
    || ('\U{2000}' <= c <= '\U{200A}') || c == '\U{2028}' || c == '\U{2029}' || c == '\U{202F}'
    || c == '\U{205F}' || c == '\U{3000}'
  }

  predicate AllWhiteSpace(s: string) {
    forall i :: 0 <= i < |s| ==> IsWhiteSpace(s[i])
  }

  /** `String.TrimStart()`: drops white space from the front. */
  function TrimStart(s: string): string
    decreases |s|
  {
    if s != [] && IsWhiteSpace(s[0]) then TrimStart(s[1..]) else s
  }

  /** `String.TrimEnd()`: drops white space from the back. */
  function TrimEnd(s: string): string
    decreases |s|
  {
    if s != [] && IsWhiteSpace(s[|s| - 1]) then TrimEnd(s[..|s| - 1]) else s
  }

  /** `String.Trim()`: leading and trailing white space removed. */
  function Trim(s: string): string {
    TrimEnd(TrimStart(s))
  }

  /** Upper-casing of one character; only the ASCII letters are mapped. */
  function UpperChar(c: char): char {
    if 'a' <= c <= 'z' then (c as int - 32) as char else c
  }

  /** `String.ToUpper()`, restricted to ASCII letters. */
  function ToUpper(s: string): (r: string)
    ensures |r| == |s| && forall i :: 0 <= i < |s| ==> r[i] == UpperChar(s[i])
  {
    seq(|s|, i requires 0 <= i < |s| => UpperChar(s[i]))
  }

  /** `Replace("/", "_")`. */
  function ReplaceSlash(s: string): string {
    seq(|s|, i requires 0 <= i < |s| => if s[i] == '/' then '_' else s[i])
  }

  /** The `Right` extension: the last `n` characters of `s`, or all of `s` when it is shorter
      (dropping leading characters until at most `n` are left). */
  function Right(s: string, n: nat): string
    decreases |s|
  {
    if |s| <= n then s else Right(s[1..], n)
  }

  /** Replace keeps the length, turns every `/` into `_` and leaves every other character. */
  lemma ReplaceSlashMeaning(s: string)
    ensures |ReplaceSlash(s)| == |s|
    ensures forall i :: 0 <= i < |s| ==> ReplaceSlash(s)[i] == if s[i] == '/' then '_' else s[i]
    ensures forall i :: 0 <= i < |s| ==> ReplaceSlash(s)[i] != '/'
  {
  }

  /** Right saturates: it is the suffix of length min(n, |s|). */
  lemma {:induction false} RightMeaning(s: string, n: nat)
    ensures |Right(s, n)| == if n < |s| then n else |s|
    ensures Right(s, n) == s[|s| - |Right(s, n)|..]
    decreases |s|
  {
    if n < |s| {
      RightMeaning(s[1..], n);
      assert s[1..][|s| - 1 - |Right(s, n)|..] == s[|s| - |Right(s, n)|..];
    }
  }

  /** `parts` separated by `sep`. */
  function Join(parts: seq<string>, sep: string): string
    decreases |parts|
  {
    if parts == [] then ""
    else if |parts| == 1 then parts[0]
    else parts[0] + sep + Join(parts[1..], sep)
  }

  /** Joining two non-empty lists is joining each, with one separator between. */
  lemma {:induction false} JoinSplit(a: seq<string>, b: seq<string>, sep: string)
    requires a != [] && b != []
    ensures Join(a + b, sep) == Join(a, sep) + sep + Join(b, sep)
    decreases |a|
  {
    assert (a + b)[0] == a[0] && (a + b)[1..] == a[1..] + b;
    if |a| > 1 {
      JoinSplit(a[1..], b, sep);
      assert Join(a + b, sep) == a[0] + sep + (Join(a[1..], sep) + sep + Join(b, sep));
    }
  }

  /** Part `k` of a joined list, between the parts before it and the parts after it. */
  lemma JoinAround(parts: seq<string>, sep: string, k: nat)
    requires k < |parts|
    ensures Join(parts, sep)
      == (if k == 0 then "" else Join(parts[..k], sep) + sep)
         + parts[k]
         + (if k + 1 < |parts| then sep + Join(parts[k + 1..], sep) else "")
  {
    var tail := parts[k..];
    assert tail[0] == parts[k] && tail[1..] == parts[k + 1..];
    assert Join(tail, sep) == parts[k] + (if k + 1 < |parts| then sep + Join(parts[k + 1..], sep) else "");
    if k > 0 {
      assert parts == parts[..k] + tail;
      JoinSplit(parts[..k], tail, sep);
    } else {
      assert parts == tail;
    }
  }

  /** `JoinAround` inside a text that wraps the joined parts. */
  lemma JoinAroundWithin(pre: string, parts: seq<string>, sep: string, close: string, k: nat)
    requires k < |parts|
    ensures pre + Join(parts, sep) + close
      == pre
         + (if k == 0 then "" else Join(parts[..k], sep) + sep)
         + parts[k]
         + (if k + 1 < |parts| then sep + Join(parts[k + 1..], sep) else "")
         + close
  {
    JoinAround(parts, sep, k);
  }

  predicate EndsWith(s: string, t: string) {
    |t| <= |s| && s[|s| - |t|..] == t
  }

  /** A text a longer text ends with stays at its end when something comes before. */
  lemma EndsWithAfter(pre: string, s: string, t: string)
    requires EndsWith(s, t)
    ensures EndsWith(pre + s, t)
  {
    assert (pre + s)[|pre + s| - |t|..] == s[|s| - |t|..];
  }

  /** `s` ending with `t`, `s + u` ends with `t + u`. */
  lemma EndsWithBoth(s: string, t: string, u: string)
    requires EndsWith(s, t)
    ensures EndsWith(s + u, t + u)
  {
    assert (s + u)[|s + u| - |t + u|..] == s[|s| - |t|..] + u;
  }

  lemma EndsWithTransitive(s: string, t: string, u: string)
    requires EndsWith(s, t) && EndsWith(t, u)
    ensures EndsWith(s, u)
  {
    assert s[|s| - |u|..] == s[|s| - |t|..][|t| - |u|..];
  }

  // ---------------------------------------------------------------------------
  // Properties of Trim and ToUpper used by column addressing.

  lemma {:induction false} TrimStartOfWhite(w: string, x: string)
    requires AllWhiteSpace(w)
    ensures TrimStart(w + x) == TrimStart(x)
    decreases |w|
  {
    if w == [] {
      assert w + x == x;
    } else {
      assert (w + x)[0] == w[0] && (w + x)[1..] == w[1..] + x;
      TrimStartOfWhite(w[1..], x);
    }
  }

  lemma {:induction false} TrimEndOfWhite(x: string, w: string)
    requires AllWhiteSpace(w)
    ensures TrimEnd(x + w) == TrimEnd(x)
    decreases |w|
  {
    if w == [] {
      assert x + w == x;
    } else {
      assert (x + w)[|x + w| - 1] == w[|w| - 1];
      assert (x + w)[..|x + w| - 1] == x + w[..|w| - 1];
      TrimEndOfWhite(x, w[..|w| - 1]);
    }
  }

  lemma {:induction false} TrimStartAppend(s: string, w: string)
    requires !AllWhiteSpace(s)
    ensures TrimStart(s + w) == TrimStart(s) + w
    decreases |s|
  {
    assert (s + w)[0] == s[0];
    if IsWhiteSpace(s[0]) {
      assert (s + w)[1..] == s[1..] + w;
      TrimStartAppend(s[1..], w);
    }
  }

  lemma {:induction false} WhiteTrimsToEmpty(s: string)
    requires AllWhiteSpace(s)
    ensures TrimStart(s) == []
    decreases |s|
  {
    if s != [] {
      assert s[1..] == s[1..];
      WhiteTrimsToEmpty(s[1..]);
    }
  }

  /** TrimStart leaves a suffix of `s` ... */
  lemma {:induction false} TrimStartIsSuffix(s: string)
    ensures |TrimStart(s)| <= |s| && TrimStart(s) == s[|s| - |TrimStart(s)|..]
    decreases |s|
  {
    if s != [] && IsWhiteSpace(s[0]) {
      var r := TrimStart(s[1..]);
      TrimStartIsSuffix(s[1..]);
      assert s[1..][|s| - 1 - |r|..] == s[|s| - |r|..];
    }
  }

  /** ... which starts with a character that is not white space ... */
  lemma {:induction false} TrimStartStartsWithText(s: string)
    ensures TrimStart(s) == [] || !IsWhiteSpace(TrimStart(s)[0])
    decreases |s|
  {
    if s != [] && IsWhiteSpace(s[0]) {
      TrimStartStartsWithText(s[1..]);
    }
  }

  /** ... after a prefix that is all white space. */
  lemma {:induction false} TrimStartDropsWhite(s: string)
    ensures |TrimStart(s)| <= |s| && AllWhiteSpace(s[..|s| - |TrimStart(s)|])
    decreases |s|
  {
    if s != [] && IsWhiteSpace(s[0]) {
      var r := TrimStart(s[1..]);
      TrimStartDropsWhite(s[1..]);
      var w := s[..|s| - |r|];
      assert w[1..] == s[1..][..|s| - 1 - |r|];
      assert forall i | 1 <= i < |w| :: w[i] == w[1..][i - 1];
    }
  }

  /** TrimEnd leaves a prefix of `s` ... */
  lemma {:induction false} TrimEndIsPrefix(s: string)
    ensures |TrimEnd(s)| <= |s| && TrimEnd(s) == s[..|TrimEnd(s)|]
    decreases |s|
  {
    if s != [] && IsWhiteSpace(s[|s| - 1]) {
      var r := TrimEnd(s[..|s| - 1]);
      TrimEndIsPrefix(s[..|s| - 1]);
      assert s[..|s| - 1][..|r|] == s[..|r|];
    }
  }

  /** ... which ends with a character that is not white space ... */
  lemma {:induction false} TrimEndEndsWithText(s: string)
    ensures TrimEnd(s) == [] || !IsWhiteSpace(TrimEnd(s)[|TrimEnd(s)| - 1])
    decreases |s|
  {
    if s != [] && IsWhiteSpace(s[|s| - 1]) {
      TrimEndEndsWithText(s[..|s| - 1]);
    }
  }

  /** ... before a suffix that is all white space. */
  lemma {:induction false} TrimEndDropsWhite(s: string)
    ensures |TrimEnd(s)| <= |s| && AllWhiteSpace(s[|TrimEnd(s)|..])
    decreases |s|
  {
    if s != [] && IsWhiteSpace(s[|s| - 1]) {
      var r := TrimEnd(s[..|s| - 1]);
      TrimEndDropsWhite(s[..|s| - 1]);
      var w := s[|r|..];
      assert w[..|w| - 1] == s[..|s| - 1][|r|..];
      assert forall i | 0 <= i < |w| - 1 :: w[i] == w[..|w| - 1][i];
    }
  }

  /** White space around a text does not change what Trim returns. */
  lemma TrimIgnoresSurroundingWhite(w1: string, s: string, w2: string)
    requires AllWhiteSpace(w1) && AllWhiteSpace(w2)
    ensures Trim(w1 + s + w2) == Trim(s)
  {
    assert w1 + s + w2 == w1 + (s + w2);
    TrimStartOfWhite(w1, s + w2);
    if AllWhiteSpace(s) {
      assert AllWhiteSpace(s + w2);
      WhiteTrimsToEmpty(s + w2);
      WhiteTrimsToEmpty(s);
    } else {
      TrimStartAppend(s, w2);
      TrimEndOfWhite(TrimStart(s), w2);
    }
  }

  lemma UpperKeepsWhiteSpace(c: char)
    ensures IsWhiteSpace(UpperChar(c)) == IsWhiteSpace(c)
  {
    if 'a' <= c <= 'z' {
      assert 'A' <= UpperChar(c) <= 'Z';
    }
  }

  lemma {:induction false} TrimStartUpper(s: string)
    ensures TrimStart(ToUpper(s)) == ToUpper(TrimStart(s))
    decreases |s|
  {
    if s != [] {
      assert ToUpper(s)[1..] == ToUpper(s[1..]);
      UpperKeepsWhiteSpace(s[0]);
      TrimStartUpper(s[1..]);
    }
  }

  lemma {:induction false} TrimEndUpper(s: string)
    ensures TrimEnd(ToUpper(s)) == ToUpper(TrimEnd(s))
    decreases |s|
  {
    if s != [] {
      assert ToUpper(s)[..|s| - 1] == ToUpper(s[..|s| - 1]);
      UpperKeepsWhiteSpace(s[|s| - 1]);
      TrimEndUpper(s[..|s| - 1]);
    }
  }

  /** Trimming and upper-casing commute, and upper-casing twice changes nothing. */
  lemma TrimUpperCommute(s: string)
    ensures Trim(ToUpper(s)) == ToUpper(Trim(s))
    ensures ToUpper(ToUpper(s)) == ToUpper(s)
  {
    TrimStartUpper(s);
    TrimEndUpper(TrimStart(s));
    var u := ToUpper(s);
    assert forall i | 0 <= i < |s| :: ToUpper(u)[i] == u[i] by {
      forall i | 0 <= i < |s| ensures ToUpper(u)[i] == u[i] {
        assert u[i] == UpperChar(s[i]);
      }
    }
  }
}
