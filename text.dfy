/**
 * String operations of the Ruby and JavaScript standard libraries that the
 * core relies on, with the exact character classes each one uses.
 */
module Text {
  import opened Wrappers

  /** Characters removed by Ruby's String#strip, #lstrip and #rstrip. */
  predicate IsStripSpace(c: char) {
    c == '\0' || c == '\t' || c == '\n' || c == '\U{000B}' || c == '\U{000C}' || c == '\r' || c == ' '
  }

  /** Ruby regular-expression `\s`: ASCII space, \t, \r, \n, \f, \v. */
  predicate IsRegexSpace(c: char) {
    c == ' ' || c == '\t' || c == '\r' || c == '\n' || c == '\U{000C}' || c == '\U{000B}'
  }

  /** `[[:space:]]`, the class behind Rails' String#blank? (Unicode white space, no NUL). */
  predicate IsBlankSpace(c: char) {
    c == '\t' || c == '\n' || c == '\U{000B}' || c == '\U{000C}' || c == '\r' || c == ' '
    || c == '\U{0085}' || c == '\U{00A0}' || c == '\U{1680}' || ('\U{2000}' <= c <= '\U{200A}')
    || c == '\U{2028}' || c == '\U{2029}' || c == '\U{202F}' || c == '\U{205F}' || c == '\U{3000}'
  }

  /** JavaScript white space and line terminators: String#trim and regular-expression `\s`. */
  predicate IsJsSpace(c: char) {
    c == '\t' || c == '\n' || c == '\U{000B}' || c == '\U{000C}' || c == '\r' || c == ' '
    || c == '\U{00A0}' || c == '\U{1680}' || ('\U{2000}' <= c <= '\U{200A}')
    || c == '\U{2028}' || c == '\U{2029}' || c == '\U{202F}' || c == '\U{205F}' || c == '\U{3000}'
    || c == '\U{FEFF}'
  }

  /** JavaScript line terminators: the characters regular-expression `.` does not match. */
  predicate IsJsLineTerminator(c: char) {
    c == '\n' || c == '\r' || c == '\U{2028}' || c == '\U{2029}'
  }

  /** Drops the longest suffix made of `ws` characters. */
  function TrimRight(s: string, ws: char -> bool): (r: string)
    ensures r <= s
    ensures r == [] || !ws(r[|r| - 1])
    ensures forall i :: |r| <= i < |s| ==> ws(s[i])
  {
    if |s| > 0 && ws(s[|s| - 1]) then TrimRight(s[..|s| - 1], ws) else s
  }

  /** Number of leading `ws` characters. */
  function LeadingCount(s: string, ws: char -> bool): (k: nat)
    ensures k <= |s| && (k == |s| || !ws(s[k]))
    ensures forall i :: 0 <= i < k ==> ws(s[i])
  {
    if |s| > 0 && ws(s[0]) then 1 + LeadingCount(s[1..], ws) else 0
  }

  /** Drops the longest prefix made of `ws` characters. */
  function TrimLeft(s: string, ws: char -> bool): (r: string)
    ensures |r| <= |s| && r == s[|s| - |r|..]
    ensures r == [] || !ws(r[0])
    ensures forall i :: 0 <= i < |s| - |r| ==> ws(s[i])
  {
    s[LeadingCount(s, ws)..]
  }

  /** Ruby String#rstrip. */
  function RStrip(s: string): (r: string)
    ensures r <= s
  {
    TrimRight(s, IsStripSpace)
  }

  /** Ruby String#strip. */
  function Strip(s: string): string {
    TrimLeft(TrimRight(s, IsStripSpace), IsStripSpace)
  }

  /** JavaScript String#trim. */
  function JsTrim(s: string): string {
    TrimLeft(TrimRight(s, IsJsSpace), IsJsSpace)
  }

  /** Rails String#blank?: empty or only white space. */
  predicate Blank(s: string) {
    forall i :: 0 <= i < |s| ==> IsBlankSpace(s[i])
  }

  /** Rails `present?` on a value that may be nil. */
  predicate Present(s: Option<string>) {
    s.Some? && !Blank(s.value)
  }

  /** Ruby String#start_with? */
  predicate StartsWith(s: string, p: string) {
    p <= s
  }

  /** Ruby String#end_with? */
  predicate EndsWith(s: string, p: string) {
    |p| <= |s| && s[|s| - |p|..] == p
  }

  /** Ruby String#include? */
  predicate Contains(s: string, sub: string)
    decreases |s|
  {
    sub <= s || (|s| > 0 && Contains(s[1..], sub))
  }

  lemma {:induction false} ContainsAt(s: string, sub: string, i: nat)
    requires i + |sub| <= |s| && s[i..i + |sub|] == sub
    ensures Contains(s, sub)
    decreases i
  {
    if i == 0 {
      assert s[..|sub|] == sub;
    } else {
      assert s[1..][i - 1..i - 1 + |sub|] == s[i..i + |sub|];
      ContainsAt(s[1..], sub, i - 1);
    }
  }

  /** A text made of three parts contains its middle one. */
  lemma ContainsMiddle(a: string, sub: string, b: string)
    ensures Contains(a + sub + b, sub)
  {
    var s := a + sub + b;
    assert s[|a|..|a| + |sub|] == sub;
    ContainsAt(s, sub, |a|);
  }

  /** A concatenation starts with its first part and ends with its second. */
  lemma Ends(a: string, b: string)
    ensures StartsWith(a + b, a) && EndsWith(a + b, b)
  {
    assert (a + b)[|a + b| - |b|..] == b;
  }

  lemma StartsWithTrans(a: string, b: string, c: string)
    requires StartsWith(b, a) && StartsWith(c, b)
    ensures StartsWith(c, a)
  {
  }

  /** A text made of four parts starts with the first, holds the second and ends with the last. */
  lemma FourParts(a: string, b: string, c: string, d: string)
    ensures StartsWith(a + b + c + d, a)
    ensures Contains(a + b + c + d, b)
    ensures EndsWith(a + b + c + d, d)
  {
    var s := a + b + c + d;
    assert s == a + b + (c + d);
    ContainsMiddle(a, b, c + d);
    assert s[..|a|] == a;
    assert s[|s| - |d|..] == d;
  }

  /** A text made of four parts starts with its first one and two parts, and ends with its last two and last one. */
  lemma Layers(a: string, b: string, c: string, d: string)
    ensures StartsWith(a + b + c + d, a) && StartsWith(a + b + c + d, a + b)
    ensures EndsWith(a + b + c + d, c + d) && EndsWith(a + b + c + d, d)
  {
    var s := a + b + c + d;
    assert s[..|a|] == a;
    assert s[..|a + b|] == a + b;
    assert s[|s| - |c + d|..] == c + d;
    assert s[|s| - |d|..] == d;
  }

  /** Containing a text means containing each prefix of it. */
  lemma {:induction false} ContainsPrefix(s: string, sub: string, more: string)
    requires Contains(s, sub + more)
    ensures Contains(s, sub)
    decreases |s|
  {
    if sub + more <= s {
      assert sub <= s;
    } else {
      ContainsPrefix(s[1..], sub, more);
    }
  }

  function Min(a: int, b: int): int { if a <= b then a else b }

  /** Ruby `str[0, n]` for n >= 0: the first n characters, or all of them. */
  function Take(s: string, n: nat): (r: string)
    ensures r <= s && |r| == Min(n, |s|)
  {
    s[..Min(n, |s|)]
  }

  /** Ruby Array#last(n): the final n elements, in their original order. */
  function LastN<T>(xs: seq<T>, n: nat): (r: seq<T>)
    ensures |r| == Min(n, |xs|)
    ensures r == xs[|xs| - |r|..]
  {
    xs[|xs| - Min(n, |xs|)..]
  }

  /** Array#join(sep). */
  function Join(ss: seq<string>, sep: string): string {
    if |ss| == 0 then ""
    else if |ss| == 1 then ss[0]
    else ss[0] + sep + Join(ss[1..], sep)
  }

  /** Array#join with no separator. */
  function Concat(ss: seq<string>): string {
    if |ss| == 0 then "" else ss[0] + Concat(ss[1..])
  }

  lemma {:induction false} ConcatSnoc(ss: seq<string>, last: string)
    ensures Concat(ss + [last]) == Concat(ss) + last
  {
    if |ss| == 0 {
      assert ss + [last] == [last];
    } else {
      assert (ss + [last])[1..] == ss[1..] + [last];
      ConcatSnoc(ss[1..], last);
    }
  }

  /** The concatenation of the first k texts is a prefix of the whole concatenation. */
  lemma {:induction false} ConcatPrefix(ss: seq<string>, k: nat)
    requires k <= |ss|
    ensures Concat(ss[..k]) <= Concat(ss)
  {
    if k > 0 {
      assert ss[..k][1..] == ss[1..][..k - 1];
      ConcatPrefix(ss[1..], k - 1);
    }
  }

  /** Index of the first `c` in `s`, if any. */
  function IndexOf(s: string, c: char): (r: Option<nat>)
    ensures r.Some? ==> r.value < |s| && s[r.value] == c && forall j :: 0 <= j < r.value ==> s[j] != c
    ensures r.None? ==> forall j :: 0 <= j < |s| ==> s[j] != c
  {
    if |s| == 0 then None
    else if s[0] == c then Some(0)
    else match IndexOf(s[1..], c)
      case Some(k) => Some(k + 1)
      case None => None
  }

  /**
   * Ruby String#lines: the pieces after each "\n", each keeping its "\n";
   * the last piece has no "\n" unless the text ends with one.
   */
  function Lines(s: string): (r: seq<string>)
    ensures forall i :: 0 <= i < |r| ==> |r[i]| > 0
    decreases |s|
  {
    if |s| == 0 then []
    else match IndexOf(s, '\n')
      case None => [s]
      case Some(k) => [s[..k + 1]] + Lines(s[k + 1..])
  }

  lemma {:induction false} LinesConcat(s: string)
    ensures Concat(Lines(s)) == s
    decreases |s|
  {
    if |s| > 0 {
      match IndexOf(s, '\n')
      case None =>
      case Some(k) =>
        LinesConcat(s[k + 1..]);
        assert s == s[..k + 1] + s[k + 1..];
    }
  }

  lemma {:induction false} IndexOfAppend(a: string, b: string, c: char)
    requires IndexOf(a, c).Some?
    ensures IndexOf(a + b, c) == IndexOf(a, c)
  {
    var k := IndexOf(a, c).value;
    assert (a + b)[k] == c;
    assert forall j :: 0 <= j < k ==> (a + b)[j] == a[j];
  }

  lemma LinesUnfold(s: string, k: nat)
    requires IndexOf(s, '\n') == Some(k)
    ensures Lines(s) == [s[..k + 1]] + Lines(s[k + 1..])
  {
  }

  /** Slicing a concatenation inside its first part. */
  lemma AppendSlices(a: string, b: string, n: nat)
    requires n <= |a|
    ensures (a + b)[..n] == a[..n] && (a + b)[n..] == a[n..] + b
  { }

  /** The first line of `a + b` is the first line of `a`, when `a` has a "\n". */
  lemma LinesAppendStep(a: string, b: string, k: nat)
    requires IndexOf(a, '\n') == Some(k)
    ensures Lines(a) == [a[..k + 1]] + Lines(a[k + 1..])
    ensures Lines(a + b) == [a[..k + 1]] + Lines(a[k + 1..] + b)
  {
    IndexOfAppend(a, b, '\n');
    LinesUnfold(a, k);
    LinesUnfold(a + b, k);
    AppendSlices(a, b, k + 1);
  }

  /** Splitting into lines distributes over a text that ends in "\n". */
  lemma {:induction false} LinesAppend(a: string, b: string)
    requires |a| > 0 && a[|a| - 1] == '\n'
    ensures Lines(a + b) == Lines(a) + Lines(b)
    decreases |a|
  {
    assert IndexOf(a, '\n').Some?;
    var k := IndexOf(a, '\n').value;
    var a' := a[k + 1..];
    LinesAppendStep(a, b, k);
    if k + 1 < |a| {
      assert a'[|a'| - 1] == a[|a| - 1];
      LinesAppend(a', b);
      ConsAssoc(a[..k + 1], Lines(a'), Lines(b));
    } else {
      assert a' == [] && a' + b == b;
      assert Lines(a') == [];
    }
  }

  lemma ConsAssoc<T>(x: T, ys: seq<T>, zs: seq<T>)
    ensures [x] + (ys + zs) == [x] + ys + zs
  { }

  /** A text with no "\n" forms one line, appended after the lines of a text ending in "\n". */
  lemma {:induction false} LinesAppendLine(t: string, l: string)
    requires |l| > 0 && forall i :: 0 <= i < |l| ==> l[i] != '\n'
    ensures Lines(t + "\n" + l) == Lines(t + "\n") + [l]
  {
    LinesAppend(t + "\n", l);
    assert IndexOf(l, '\n').None?;
  }

  /** `lines.last.to_s.strip`: the last line of a text, stripped; "" for the empty text. */
  function LastLine(s: string): string {
    var lines := Lines(s);
    if |lines| == 0 then "" else Strip(lines[|lines| - 1])
  }

  /** `lines[0..-2].join.rstrip`: all lines but the last, joined and right-stripped. */
  function WithoutLastLine(s: string): (r: string)
    ensures r <= s
  {
    var lines := Lines(s);
    if |lines| == 0 then ""
    else
      ConcatPrefix(lines, |lines| - 1);
      LinesConcat(s);
      RStrip(Concat(lines[..|lines| - 1]))
  }

  /** A trailing trimmed character makes no difference to the trimmed text. */
  lemma TrimRightSnoc(s: string, c: char, ws: char -> bool)
    requires ws(c)
    ensures TrimRight(s + [c], ws) == TrimRight(s, ws)
  {
    assert (s + [c])[..|s|] == s;
  }

  /**
   * A text that ends with a line `l` after a "\n": its last line is `l`
   * stripped, and what comes before is `t` right-stripped.
   */
  lemma LastLineAfter(t: string, l: string)
    requires |l| > 0 && forall i :: 0 <= i < |l| ==> l[i] != '\n'
    ensures LastLine(t + "\n" + l) == Strip(l)
    ensures WithoutLastLine(t + "\n" + l) == RStrip(t)
  {
    LinesAppendLine(t, l);
    var lines := Lines(t + "\n" + l);
    assert lines[..|lines| - 1] == Lines(t + "\n");
    LinesConcat(t + "\n");
    TrimRightSnoc(t, '\n', IsStripSpace);
  }

  /** Stripping a text that neither starts nor ends with white space leaves it as it is. */
  lemma StripUnchanged(s: string)
    requires |s| > 0 && !IsStripSpace(s[0]) && !IsStripSpace(s[|s| - 1])
    ensures Strip(s) == s
  {
  }

  /** Right-trimming a concatenation trims into `a` only when `b` is all white space. */
  lemma {:induction false} TrimRightAppend(a: string, b: string, ws: char -> bool)
    ensures TrimRight(b, ws) == [] ==> TrimRight(a + b, ws) == TrimRight(a, ws)
    ensures TrimRight(b, ws) != [] ==> TrimRight(a + b, ws) == a + TrimRight(b, ws)
    decreases |b|
  {
    if |b| == 0 {
      assert a + b == a;
    } else if ws(b[|b| - 1]) {
      var b' := b[..|b| - 1];
      assert (a + b)[..|a + b| - 1] == a + b';
      TrimRightAppend(a, b', ws);
    }
  }

  /**
   * Ruby's strip on `head + "\n" + x + "\n"`, where `head` has no white space
   * at either end: `head`, then `x` right-stripped after a "\n" unless
   * `x` is all white space.
   */
  lemma StripFramed(head: string, x: string)
    requires |head| > 0 && !IsStripSpace(head[0]) && !IsStripSpace(head[|head| - 1])
    ensures RStrip(x) == [] ==> Strip(head + "\n" + x + "\n") == head
    ensures RStrip(x) != [] ==> Strip(head + "\n" + x + "\n") == head + "\n" + RStrip(x)
  {
    var s := head + "\n" + x + "\n";
    TrimRightSnoc(x, '\n', IsStripSpace);
    assert s == (head + "\n") + (x + "\n");
    TrimRightAppend(head + "\n", x + "\n", IsStripSpace);
    TrimRightSnoc(head, '\n', IsStripSpace);
    var r := TrimRight(s, IsStripSpace);
    assert |r| > 0 && r[0] == head[0];
  }

  /** ASCII lower-casing, as used by case-insensitive regular expressions. */
  function Lower(c: char): char {
    if 'A' <= c <= 'Z' then (c as int + 32) as char else c
  }

  /** `s` begins, at `i`, with `lit` up to ASCII case. */
  predicate MatchesCI(s: string, i: nat, lit: string) {
    i + |lit| <= |s| && forall j :: 0 <= j < |lit| ==> Lower(s[i + j]) == Lower(lit[j])
  }

  function DigitChar(d: nat): char
    requires d < 10
  {
    ['0', '1', '2', '3', '4', '5', '6', '7', '8', '9'][d]
  }

  /** Decimal rendering of a natural number (string interpolation of an Integer). */
  function NatToString(n: nat): (r: string)
    ensures |r| > 0
    decreases n
  {
    if n < 10 then [DigitChar(n)] else NatToString(n / 10) + [DigitChar(n % 10)]
  }

  /** Decimal rendering of an integer, with a leading "-" when negative. */
  function IntToString(i: int): (r: string)
    ensures |r| > 0
  {
    if i < 0 then "-" + NatToString(-i) else NatToString(i)
  }

  /** Ruby regular-expression `\w`: ASCII letters, digits and `_`. */
  predicate IsWordChar(c: char) {
    ('a' <= c <= 'z') || ('A' <= c <= 'Z') || ('0' <= c <= '9') || c == '_'
  }

  /**
   * Ruby's case-insensitive match of the character `c` against the ASCII
   * pattern character `p`: ASCII case, plus the two non-ASCII characters
   * that fold onto ASCII letters (U+017F long s and U+212A Kelvin sign).
   */
  predicate FoldEq(c: char, p: char) {
    Lower(c) == Lower(p)
    || (Lower(p) == 's' && c == '\U{017F}')
    || (Lower(p) == 'k' && c == '\U{212A}')
  }

  /** `s` begins, at `i`, with `lit` under a Ruby `/i` match. */
  predicate MatchesFold(s: string, i: nat, lit: string) {
    i + |lit| <= |s| && forall j :: 0 <= j < |lit| ==> FoldEq(s[i + j], lit[j])
  }

  /** Splitting on every occurrence of `c`, empty fields kept. */
  function SplitChar(s: string, c: char): (r: seq<string>)
    ensures |r| >= 1
    ensures forall i :: 0 <= i < |r| ==> c !in r[i]
    decreases |s|
  {
    match IndexOf(s, c)
    case None => [s]
    case Some(k) =>
      assert c !in s[..k];
      [s[..k]] + SplitChar(s[k + 1..], c)
  }

  /** Fields without the separator, joined by it, split back into themselves. */
  lemma {:induction false} SplitCharJoin(ps: seq<string>, c: char)
    requires |ps| >= 1
    requires forall i :: 0 <= i < |ps| ==> c !in ps[i]
    ensures SplitChar(Join(ps, [c]), c) == ps
  {
    if |ps| == 1 {
      assert IndexOf(ps[0], c).None?;
    } else {
      var s := Join(ps, [c]);
      var rest := Join(ps[1..], [c]);
      assert s == ps[0] + [c] + rest;
      var k := |ps[0]|;
      assert s[k] == c;
      assert forall j :: 0 <= j < k ==> s[j] == ps[0][j];
      assert IndexOf(s, c) == Some(k);
      assert s[..k] == ps[0];
      assert s[k + 1..] == rest;
      SplitCharJoin(ps[1..], c);
      assert [ps[0]] + ps[1..] == ps;
    }
  }
}
