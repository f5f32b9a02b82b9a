/** The pieces of Python's `str` behaviour the application relies on:
    `startswith`/`endswith`, argument-less `strip()`, `sep.join(...)`,
    `replace(pat, "")`, `str()` of an integer and `repr()` of a string. */
module Text {

  predicate StartsWith(s: string, prefix: string) {
    |prefix| <= |s| && s[..|prefix|] == prefix
  }

  predicate EndsWith(s: string, suffix: string) {
    |suffix| <= |s| && s[|s| - |suffix|..] == suffix
  }

  /** `pat in s` for two strings. */
  predicate Contains(s: string, pat: string) {
    exists i :: 0 <= i <= |s| - |pat| && OccursAt(s, pat, i)
  }

  predicate OccursAt(s: string, pat: string, i: int) {
    0 <= i <= |s| - |pat| && s[i..i + |pat|] == pat
  }

  /** The characters Python's `str.isspace` accepts, which are those that
      `str.strip()` without arguments removes. */
  predicate IsSpace(c: char) {
    || c == ' ' || c == '\t' || c == '\n' || c == '\r'
    || c == '\U{B}' || c == '\U{C}'
    || ('\U{1C}' <= c <= '\U{1F}')
    || c == '\U{85}' || c == '\U{A0}' || c == '\U{1680}'
    || ('\U{2000}' <= c <= '\U{200A}')
    || c == '\U{2028}' || c == '\U{2029}' || c == '\U{202F}'
    || c == '\U{205F}' || c == '\U{3000}'
  }

  /** No leading and no trailing whitespace. */
  predicate IsStripped(s: string) {
    s == [] || (!IsSpace(s[0]) && !IsSpace(s[|s| - 1]))
  }

  function TrimStart(s: string): (r: string)
    ensures |r| <= |s| && r == s[|s| - |r|..]
    ensures forall k :: 0 <= k < |s| - |r| ==> IsSpace(s[k])
    ensures r == [] || !IsSpace(r[0])
  {
    if s != [] && IsSpace(s[0]) then
      var r := TrimStart(s[1..]);
      assert forall k :: 1 <= k < |s| - |r| ==> s[k] == s[1..][k - 1];
      r
    else s
  }

  function TrimEnd(s: string): (r: string)
    ensures |r| <= |s| && r == s[..|r|]
    ensures forall k :: |r| <= k < |s| ==> IsSpace(s[k])
    ensures r == [] || !IsSpace(r[|r| - 1])
  {
    if s != [] && IsSpace(s[|s| - 1]) then TrimEnd(s[..|s| - 1]) else s
  }

  lemma TrimEndKeepsStart(s: string)
    requires s == [] || !IsSpace(s[0])
    ensures var r := TrimEnd(s); r == [] || !IsSpace(r[0])
  {
    var r := TrimEnd(s);
    assert r == [] || r[0] == s[0];
  }

  /** `s.strip()`: the slice of `s` left after removing whitespace at both ends. */
  function Strip(s: string): (r: string)
    ensures IsStripped(r)
    ensures var i := StripOffset(s);
            i + |r| <= |s| && r == s[i..i + |r|]
            && (forall k :: 0 <= k < i ==> IsSpace(s[k]))
            && (forall k :: i + |r| <= k < |s| ==> IsSpace(s[k]))
  {
    StrippedEnds(s);
    StripSlices(s, TrimStart(s), TrimEnd(TrimStart(s)));
    TrimEnd(TrimStart(s))
  }

  lemma StrippedEnds(s: string)
    ensures IsStripped(TrimEnd(TrimStart(s)))
  {
    TrimEndKeepsStart(TrimStart(s));
  }

  lemma StripSlices(s: string, t: string, r: string)
    requires |t| <= |s| && t == s[|s| - |t|..]
    requires forall k :: 0 <= k < |s| - |t| ==> IsSpace(s[k])
    requires |r| <= |t| && r == t[..|r|]
    requires forall k :: |r| <= k < |t| ==> IsSpace(t[k])
    ensures var i := |s| - |t|;
            i + |r| <= |s| && r == s[i..i + |r|]
            && (forall k :: 0 <= k < i ==> IsSpace(s[k]))
            && (forall k :: i + |r| <= k < |s| ==> IsSpace(s[k]))
  {
    var i := |s| - |t|;
    forall k | i + |r| <= k < |s| ensures IsSpace(s[k]) {
      assert s[k] == t[k - i];
    }
  }

  /** Where the text kept by `strip()` begins. */
  function StripOffset(s: string): nat {
    |s| - |TrimStart(s)|
  }

  lemma {:induction false} TrimStartOfStripped(s: string)
    requires s == [] || !IsSpace(s[0])
    ensures TrimStart(s) == s
  {
  }

  lemma {:induction false} TrimEndOfStripped(s: string)
    requires s == [] || !IsSpace(s[|s| - 1])
    ensures TrimEnd(s) == s
  {
  }

  /** Stripping text that has no whitespace at its ends leaves it unchanged. */
  lemma StripOfStripped(s: string)
    requires IsStripped(s)
    ensures Strip(s) == s
  {
    TrimStartOfStripped(s);
    TrimEndOfStripped(s);
  }

  /** `strip()` is idempotent. */
  lemma StripIdempotent(s: string)
    ensures Strip(Strip(s)) == Strip(s)
  {
    StripOfStripped(Strip(s));
  }

  /** Whitespace added at either end is removed again by `strip()`. */
  lemma {:induction false} StripIgnoresPadding(pre: string, s: string, post: string)
    requires forall k :: 0 <= k < |pre| ==> IsSpace(pre[k])
    requires forall k :: 0 <= k < |post| ==> IsSpace(post[k])
    ensures Strip(pre + s + post) == Strip(s)
  {
    var u := s + post;
    assert pre + s + post == pre + u;
    TrimStartPadding(pre, u);
    TrimStartAppend(s, post);
    var t := TrimStart(s);
    if t == [] {
      TrimStartAllSpace(post);
      assert TrimStart(pre + u) == [];
    } else {
      TrimEndPadding(t, post);
      assert TrimEnd(TrimStart(pre + u)) == TrimEnd(t);
    }
  }

  lemma {:induction false} TrimStartPadding(pre: string, s: string)
    requires forall k :: 0 <= k < |pre| ==> IsSpace(pre[k])
    ensures TrimStart(pre + s) == TrimStart(s)
  {
    if pre != [] {
      var t := pre + s;
      assert t[0] == pre[0];
      assert t[1..] == pre[1..] + s;
      TrimStartPadding(pre[1..], s);
    } else {
      assert pre + s == s;
    }
  }

  lemma {:induction false} TrimStartAllSpace(s: string)
    requires forall k :: 0 <= k < |s| ==> IsSpace(s[k])
    ensures TrimStart(s) == []
  {
    if s != [] {
      TrimStartAllSpace(s[1..]);
    }
  }

  lemma {:induction false} TrimStartAppend(s: string, post: string)
    ensures TrimStart(s + post) == if TrimStart(s) == [] then TrimStart(post) else TrimStart(s) + post
  {
    if s == [] {
      assert s + post == post;
    } else if IsSpace(s[0]) {
      assert (s + post)[1..] == s[1..] + post;
      TrimStartAppend(s[1..], post);
    } else {
      assert TrimStart(s) == s;
    }
  }

  lemma {:induction false} TrimEndPadding(s: string, post: string)
    requires forall k :: 0 <= k < |post| ==> IsSpace(post[k])
    ensures TrimEnd(s + post) == TrimEnd(s)
  {
    if post != [] {
      var p := post[..|post| - 1];
      assert (s + post)[..|s + post| - 1] == s + p;
      TrimEndPadding(s, p);
    } else {
      assert s + post == s;
    }
  }

  /** `sep.join(xs)`. */
  function Join(sep: string, xs: seq<string>): (r: string)
  {
    if |xs| == 0 then ""
    else if |xs| == 1 then xs[0]
    else xs[0] + sep + Join(sep, xs[1..])
  }

  /** Appending one more piece to a joined list adds exactly the separator and that piece. */
  lemma {:induction false} JoinSnoc(sep: string, xs: seq<string>, x: string)
    requires xs != []
    ensures Join(sep, xs + [x]) == Join(sep, xs) + sep + x
  {
    if |xs| == 1 {
      assert xs + [x] == [xs[0], x];
    } else {
      assert (xs + [x])[1..] == xs[1..] + [x];
      JoinSnoc(sep, xs[1..], x);
    }
  }

  /** Every piece of a joined list occurs in the joined text. */
  lemma {:induction false} JoinContainsEach(sep: string, xs: seq<string>, i: nat)
    requires i < |xs|
    ensures Contains(Join(sep, xs), xs[i])
  {
    var r := Join(sep, xs);
    if |xs| == 1 {
      assert OccursAt(r, xs[0], 0);
    } else if i == 0 {
      assert r[0..|xs[0]|] == xs[0];
      assert OccursAt(r, xs[0], 0);
    } else {
      JoinContainsEach(sep, xs[1..], i - 1);
      var rest := Join(sep, xs[1..]);
      var k :| 0 <= k <= |rest| - |xs[i]| && OccursAt(rest, xs[i], k);
      var off := |xs[0]| + |sep|;
      assert r == xs[0] + sep + rest;
      assert r[off + k..off + k + |xs[i]|] == rest[k..k + |xs[i]|];
      assert OccursAt(r, xs[i], off + k);
    }
  }

  /** The middle of a three-part text occurs in it. */
  lemma ContainsMiddle(a: string, b: string, c: string)
    ensures Contains(a + b + c, b)
  {
    assert (a + b + c)[|a|..|a| + |b|] == b;
    assert OccursAt(a + b + c, b, |a|);
  }

  /** A concatenation contains each of its two parts. */
  lemma ContainsParts(a: string, b: string)
    ensures Contains(a + b, a) && Contains(a + b, b)
  {
    assert (a + b)[..|a|] == a;
    assert OccursAt(a + b, a, 0);
    assert (a + b)[|a|..] == b;
    assert OccursAt(a + b, b, |a|);
  }

  /** Occurrence is transitive. */
  lemma ContainsTransitive(a: string, b: string, c: string)
    requires Contains(a, b) && Contains(b, c)
    ensures Contains(a, c)
  {
    var i :| 0 <= i <= |a| - |b| && OccursAt(a, b, i);
    var j :| 0 <= j <= |b| - |c| && OccursAt(b, c, j);
    assert a[i..i + |b|] == b;
    forall k | 0 <= k < |c| ensures a[i + j + k] == c[k] {
      assert a[i + j + k] == a[i..i + |b|][j + k] == b[j + k] == b[j..j + |c|][k];
    }
    assert a[i + j..i + j + |c|] == c;
    assert OccursAt(a, c, i + j);
  }

  /** `s.replace(pat, "")`: removes the non-overlapping occurrences of `pat`,
      scanning from the left. */
  function RemoveAll(s: string, pat: string): (r: string)
    requires pat != []
    ensures |r| <= |s|
    decreases |s|
  {
    if s == [] then []
    else if StartsWith(s, pat) then RemoveAll(s[|pat|..], pat)
    else [s[0]] + RemoveAll(s[1..], pat)
  }

  predicate HasDoubleStar(s: string) {
    exists i :: 0 <= i < |s| - 1 && s[i] == '*' && s[i + 1] == '*'
  }

  lemma {:induction false} RemoveAllKeepsFirst(s: string)
    requires s != [] && s[0] != '*'
    ensures RemoveAll(s, "**") != [] && RemoveAll(s, "**")[0] == s[0]
  {
  }

  /** After `replace('**', '')` no bold marker is left, however the stars were arranged. */
  lemma {:induction false} RemoveAllStarsLeavesNone(s: string)
    ensures !HasDoubleStar(RemoveAll(s, "**"))
    decreases |s|
  {
    if s == [] {
    } else if StartsWith(s, "**") {
      RemoveAllStarsLeavesNone(s[2..]);
    } else {
      var rest := RemoveAll(s[1..], "**");
      RemoveAllStarsLeavesNone(s[1..]);
      var r := [s[0]] + rest;
      assert RemoveAll(s, "**") == r;
      if s[0] == '*' && rest != [] {
        assert |s| >= 2 && s[1] != '*';
        RemoveAllKeepsFirst(s[1..]);
      }
      forall i | 0 <= i < |r| - 1
        ensures !(r[i] == '*' && r[i + 1] == '*')
      {
        if i > 0 {
          assert r[i] == rest[i - 1] && r[i + 1] == rest[i];
        }
      }
    }
  }

  function DigitChar(d: nat): (c: char)
    requires d < 10
    ensures '0' <= c <= '9' && (c as int) - ('0' as int) == d
  {
    (('0' as int) + d) as char
  }

  predicate IsDigit(c: char) {
    '0' <= c <= '9'
  }

  predicate AllDigits(s: string) {
    forall i :: 0 <= i < |s| ==> IsDigit(s[i])
  }

  /** The number a string of decimal digits spells. */
  function DigitsValue(s: string): nat
    requires AllDigits(s)
  {
    if s == [] then 0 else 10 * DigitsValue(s[..|s| - 1]) + ((s[|s| - 1] as int) - ('0' as int))
  }

  /** `str(n)` for a natural number: its shortest decimal spelling. */
  function NatToString(n: nat): (r: string)
    ensures |r| >= 1 && AllDigits(r)
    ensures |r| > 1 ==> r[0] != '0'
  {
    if n < 10 then [DigitChar(n)] else NatToString(n / 10) + [DigitChar(n % 10)]
  }

  /** Reading back the decimal spelling gives the number. */
  lemma {:induction false} NatToStringRoundTrip(n: nat)
    ensures DigitsValue(NatToString(n)) == n
  {
    if n >= 10 {
      var r := NatToString(n);
      assert r[..|r| - 1] == NatToString(n / 10);
      NatToStringRoundTrip(n / 10);
    }
  }

  /** `str(i)` for an integer. */
  function IntToString(i: int): (r: string)
    ensures |r| >= 1
    ensures (i < 0) == (r[0] == '-')
  {
    if i < 0 then "-" + NatToString(-i) else NatToString(i)
  }

  function Pow10(k: nat): (r: nat)
    ensures r >= 1
  {
    if k == 0 then 1 else 10 * Pow10(k - 1)
  }

  /** The last `width` decimal digits of `n`, zero-padded: what a `%0Nd`-style
      directive prints for a number below 10^width. */
  function FixedDigits(n: nat, width: nat): (r: string)
    ensures |r| == width && AllDigits(r)
  {
    if width == 0 then "" else FixedDigits(n / 10, width - 1) + [DigitChar(n % 10)]
  }

  /** The fixed-width spelling reads back as the number. */
  lemma {:induction false} FixedDigitsValue(n: nat, width: nat)
    requires n < Pow10(width)
    ensures DigitsValue(FixedDigits(n, width)) == n
  {
    if width > 0 {
      var r := FixedDigits(n, width);
      assert r[..|r| - 1] == FixedDigits(n / 10, width - 1);
      FixedDigitsValue(n / 10, width - 1);
    }
  }

  function HexDigit(d: nat): (c: char)
    requires d < 16
  {
    "0123456789abcdef"[d]
  }

  /** The quote `repr()` picks: a double quote only when the text holds a
      single quote and no double quote. */
  function ReprQuote(s: string): (q: char)
    ensures q == '\'' || q == '"'
    ensures q == '"' <==> ('\'' in s && '"' !in s)
  {
    if '\'' in s && '"' !in s then '"' else '\''
  }

  /** Characters `repr()` writes as a `\xNN` escape: the C0 controls other than
      tab, newline and carriage return, DEL, the C1 controls, the no-break space
      and the soft hyphen. */
  predicate HexEscaped(c: char) {
    (c < ' ' && c != '\t' && c != '\n' && c != '\r')
    || ('\U{7F}' <= c <= '\U{A0}') || c == '\U{AD}'
  }

  function EscapeChar(c: char, q: char): (r: string)
    ensures |r| >= 1
    ensures r[0] == '\\' || r == [c]
  {
    if c == q || c == '\\' then ['\\', c]
    else if c == '\t' then "\\t"
    else if c == '\n' then "\\n"
    else if c == '\r' then "\\r"
    else if HexEscaped(c) then "\\x" + [HexDigit(c as int / 16), HexDigit(c as int % 16)]
    else [c]
  }

  function EscapeAll(s: string, q: char): (r: string)
    ensures |r| >= |s|
  {
    if s == [] then "" else EscapeChar(s[0], q) + EscapeAll(s[1..], q)
  }

  /** Escaping never leaves a bare quote character in the body, so the literal
      cannot end early. */
  lemma {:induction false} EscapeAllHasNoBareQuote(s: string, q: char)
    requires q == '\'' || q == '"'
    ensures forall i :: 0 <= i < |EscapeAll(s, q)| && EscapeAll(s, q)[i] == q ==>
              i > 0 && EscapeAll(s, q)[i - 1] == '\\'
  {
    if s != [] {
      EscapeAllHasNoBareQuote(s[1..], q);
      var e := EscapeChar(s[0], q);
      EscapeCharHasNoBareQuote(s[0], q);
      var rest := EscapeAll(s[1..], q);
      var r := e + rest;
      assert EscapeAll(s, q) == r;
      forall i | 0 <= i < |r| && r[i] == q
        ensures i > 0 && r[i - 1] == '\\'
      {
        if i < |e| {
          assert r[i] == e[i];
        } else {
          assert r[i] == rest[i - |e|];
        }
      }
    }
  }

  lemma EscapeCharHasNoBareQuote(c: char, q: char)
    requires q == '\'' || q == '"'
    ensures var e := EscapeChar(c, q);
            forall i :: 0 <= i < |e| && e[i] == q ==> i > 0 && e[i - 1] == '\\'
  {
  }

  /** `repr(s)` for a string, for the characters listed in HexEscaped and the
      printable rest. */
  function PyRepr(s: string): (r: string)
    ensures |r| >= |s| + 2
    ensures r[0] == r[|r| - 1] == ReprQuote(s)
  {
    var q := ReprQuote(s);
    [q] + EscapeAll(s, q) + [q]
  }
}
