/**
 * The few Python `str` operations that `docs_sync.py` relies on, stated over `seq<char>`.
 */
module PyStr {

  /** `c.isspace()` in Python 3; also what `\s` matches in a `str` pattern and what `lstrip()` removes. */
  predicate IsSpace(c: char) {
    c == ' ' || ('\t' <= c <= '\r') || ('\U{1C}' <= c <= '\U{1F}')
    || c == '\U{85}' || c == '\U{A0}' || c == '\U{1680}' || ('\U{2000}' <= c <= '\U{200A}')
    || c == '\U{2028}' || c == '\U{2029}' || c == '\U{202F}' || c == '\U{205F}' || c == '\U{3000}'
  }

  /** `s.endswith('\n')` */
  predicate EndsWithNewline(s: string) {
    |s| > 0 && s[|s| - 1] == '\n'
  }

  /** `s.lstrip()`: what is left after removing the leading whitespace; it starts with no whitespace. */
  function LStrip(s: string): (r: string)
    ensures |r| <= |s|
    ensures r == [] || !IsSpace(r[0])
  {
    if |s| > 0 && IsSpace(s[0]) then LStrip(s[1..]) else s
  }

  /** A leading whitespace character is stripped. */
  lemma LStripSpace(c: char, s: string)
    requires IsSpace(c)
    ensures LStrip([c] + s) == LStrip(s)
  {
    assert ([c] + s)[1..] == s;
  }

  /** `s.lstrip()` is a suffix of `s`, and every character it removes is whitespace. */
  lemma {:induction false} LStripSuffix(s: string)
    ensures LStrip(s) == s[|s| - |LStrip(s)|..]
    ensures forall i :: 0 <= i < |s| - |LStrip(s)| ==> IsSpace(s[i])
    decreases |s|
  {
    if |s| > 0 && IsSpace(s[0]) {
      LStripSuffix(s[1..]);
      assert s[1..][|s| - 1 - |LStrip(s)|..] == s[|s| - |LStrip(s)|..];
      forall i | 1 <= i < |s| - |LStrip(s)|
        ensures IsSpace(s[i])
      {
        assert s[1..][i - 1] == s[i];
      }
    }
  }

  /** The number of copies of `c` that `s` starts with: the run stops at the end or at another character. */
  function LeadingRun(s: string, c: char): (n: nat)
    ensures n <= |s|
    ensures n == |s| || s[n] != c
  {
    if |s| > 0 && s[0] == c then 1 + LeadingRun(s[1..], c) else 0
  }

  /** The first `LeadingRun(s, c)` characters of `s` are all `c`. */
  lemma {:induction false} LeadingRunAll(s: string, c: char)
    ensures forall i :: 0 <= i < LeadingRun(s, c) ==> s[i] == c
    decreases |s|
  {
    if |s| > 0 && s[0] == c {
      LeadingRunAll(s[1..], c);
      forall i | 1 <= i < LeadingRun(s, c)
        ensures s[i] == c
      {
        assert s[1..][i - 1] == s[i];
      }
    }
  }

  /** `c * n` for a one-character string `c`. */
  function RepeatChar(c: char, n: nat): (r: string)
    ensures |r| == n
    ensures forall i :: 0 <= i < n ==> r[i] == c
  {
    if n == 0 then "" else [c] + RepeatChar(c, n - 1)
  }

  /** `s * n` */
  function Repeat(s: string, n: nat): (r: string)
    ensures |r| == n * |s|
  {
    if n == 0 then "" else s + Repeat(s, n - 1)
  }

  /** `s * n` holds `s` over and over: copy `q` of `s` sits at `q * len(s)`. */
  lemma {:induction false} RepeatAt(s: string, n: nat, q: nat, r: nat)
    requires q < n && r < |s|
    ensures q * |s| + r < |Repeat(s, n)| && Repeat(s, n)[q * |s| + r] == s[r]
  {
    if q > 0 {
      RepeatAt(s, n - 1, q - 1, r);
      assert q * |s| == |s| + (q - 1) * |s|;
      assert n * |s| == |s| + (n - 1) * |s|;
    }
  }

  /** `sep.join(parts)` for a one-character separator. */
  function JoinWith(parts: seq<string>, sep: char): string
    requires |parts| >= 1
  {
    if |parts| == 1 then parts[0] else parts[0] + [sep] + JoinWith(parts[1..], sep)
  }

  /** `s.split(sep)` for a one-character separator: the pieces between the separators, always at least one. */
  function Split(s: string, sep: char): (parts: seq<string>)
    ensures |parts| >= 1
    ensures forall i :: 0 <= i < |parts| ==> sep !in parts[i]
    ensures JoinWith(parts, sep) == s
  {
    if s == [] then [""]
    else
      var rest := Split(s[1..], sep);
      if s[0] == sep then [""] + rest
      else [[s[0]] + rest[0]] + rest[1..]
  }

  /** Splitting undoes joining: pieces free of the separator are recovered exactly. */
  lemma {:induction false} SplitJoin(parts: seq<string>, sep: char)
    requires |parts| >= 1
    requires forall i :: 0 <= i < |parts| ==> sep !in parts[i]
    ensures Split(JoinWith(parts, sep), sep) == parts
  {
    if |parts| == 1 {
      SplitNoSep(parts[0], sep);
    } else {
      SplitJoin(parts[1..], sep);
      SplitPrefix(parts[0], [sep] + JoinWith(parts[1..], sep), sep);
    }
  }

  lemma {:induction false} SplitNoSep(s: string, sep: char)
    requires sep !in s
    ensures Split(s, sep) == [s]
  {
    if s != [] {
      SplitNoSep(s[1..], sep);
    }
  }

  lemma {:induction false} SplitPrefix(a: string, t: string, sep: char)
    requires sep !in a
    requires |t| > 0 && t[0] == sep
    ensures Split(a + t, sep) == [a] + Split(t[1..], sep)
  {
    if a == [] {
      assert a + t == t;
    } else {
      assert (a + t)[1..] == a[1..] + t;
      SplitPrefix(a[1..], t, sep);
      var rest := Split(a[1..] + t, sep);
      assert rest == [a[1..]] + Split(t[1..], sep);
      assert [a[0]] + a[1..] == a;
    }
  }

  /** `s.replace('\r\n', '\n')`: each carriage return directly followed by a newline is dropped, scanning left to right. */
  function ReplaceCrLf(s: string): (r: string)
    ensures WithoutCr(r) == WithoutCr(s)
    ensures Count(r, '\n') == Count(s, '\n')
  {
    if |s| >= 2 && s[0] == '\r' && s[1] == '\n' then "\n" + ReplaceCrLf(s[2..])
    else if s == [] then ""
    else [s[0]] + ReplaceCrLf(s[1..])
  }

  /** A character that does not start a `\r\n` is copied as it is. */
  lemma ReplaceCrLfCons(c: char, t: string)
    requires !(c == '\r' && t != [] && t[0] == '\n')
    ensures ReplaceCrLf([c] + t) == [c] + ReplaceCrLf(t)
  {
    assert ([c] + t)[1..] == t;
  }

  /** A leading `\r\n` becomes `\n`. */
  lemma ReplaceCrLfHead(t: string)
    ensures ReplaceCrLf("\r\n" + t) == "\n" + ReplaceCrLf(t)
  {
    assert ("\r\n" + t)[2..] == t;
  }

  /** Regrouping a concatenation of four strings. */
  lemma ConcatAssoc(p: string, x: string, q: string, y: string)
    ensures p + (x + q + y) == (p + x) + q + y
  {
  }

  /** Each `\r\n` becomes `\n`: the text on either side of one is replaced on its own. */
  lemma {:induction false} ReplaceCrLfSplit(a: string, b: string)
    ensures ReplaceCrLf(a + "\r\n" + b) == ReplaceCrLf(a) + "\n" + ReplaceCrLf(b)
    decreases |a|
  {
    if a == [] {
      assert a + "\r\n" + b == "\r\n" + b;
      ReplaceCrLfHead(b);
    } else if |a| >= 2 && a[0] == '\r' && a[1] == '\n' {
      var rest := a[2..];
      assert a == "\r\n" + rest;
      assert a + "\r\n" + b == "\r\n" + (rest + "\r\n" + b);
      ReplaceCrLfHead(rest);
      ReplaceCrLfHead(rest + "\r\n" + b);
      ReplaceCrLfSplit(rest, b);
      ConcatAssoc("\n", ReplaceCrLf(rest), "\n", ReplaceCrLf(b));
    } else {
      var rest := a[1..];
      var tail := rest + "\r\n" + b;
      assert a == [a[0]] + rest;
      assert a + "\r\n" + b == [a[0]] + tail;
      assert tail[0] == if rest == [] then '\r' else rest[0];
      ReplaceCrLfCons(a[0], rest);
      ReplaceCrLfCons(a[0], tail);
      ReplaceCrLfSplit(rest, b);
      ConcatAssoc([a[0]], ReplaceCrLf(rest), "\n", ReplaceCrLf(b));
    }
  }

  /** A carriage return that does not stand before a newline is kept: text without `\r\n` is unchanged. */
  lemma {:induction false} ReplaceCrLfNone(s: string)
    requires forall i :: 0 <= i < |s| - 1 ==> !(s[i] == '\r' && s[i + 1] == '\n')
    ensures ReplaceCrLf(s) == s
    decreases |s|
  {
    if s != [] {
      ReplaceCrLfNone(s[1..]);
    }
  }

  /** `s` with every carriage return removed. */
  function WithoutCr(s: string): string {
    if s == [] then "" else (if s[0] == '\r' then "" else [s[0]]) + WithoutCr(s[1..])
  }

  /** `s.count(c)` */
  function Count(s: string, c: char): nat {
    if s == [] then 0 else (if s[0] == c then 1 else 0) + Count(s[1..], c)
  }
}
