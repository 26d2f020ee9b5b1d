/** HTML escaping as done by `ERB::Util.html_escape`, and the inverse decoding. */
module Html {

  /** The characters `html_escape` rewrites. */
  predicate Special(c: char) {
    c == '&' || c == '<' || c == '>' || c == '"' || c == '\''
  }

  function EscapeChar(c: char): (r: string)
    ensures |r| >= 1 && r[0] == (if Special(c) then '&' else c)
    ensures forall i :: 0 <= i < |r| ==> r[i] != '<' && r[i] != '>' && r[i] != '"' && r[i] != '\''
    ensures forall i :: 0 <= i < |r| ==> r[i] != '\n' || c == '\n'
  {
    match c
    case '&' => "&amp;"
    case '<' => "&lt;"
    case '>' => "&gt;"
    case '"' => "&quot;"
    case '\'' => "&#39;"
    case _ => [c]
  }

  /** `html_escape`: no markup character survives, and a newline is produced only from a newline. */
  function Escape(s: string): (r: string)
    ensures |r| >= |s|
    ensures forall i :: 0 <= i < |r| ==> r[i] != '<' && r[i] != '>' && r[i] != '"' && r[i] != '\''
    ensures ('\n' in r) <==> ('\n' in s)
  {
    if |s| == 0 then ""
    else
      var head := EscapeChar(s[0]);
      assert head[0] == '\n' <==> s[0] == '\n';
      head + Escape(s[1..])
  }

  /** Escaping works character by character. */
  lemma {:induction false} EscapeAppend(a: string, b: string)
    ensures Escape(a + b) == Escape(a) + Escape(b)
  {
    if |a| > 0 {
      assert (a + b)[1..] == a[1..] + b;
      EscapeAppend(a[1..], b);
    } else {
      assert a + b == b;
    }
  }

  /** Text without special characters is left as it is. */
  lemma {:induction false} EscapePlain(s: string)
    requires forall i :: 0 <= i < |s| ==> !Special(s[i])
    ensures Escape(s) == s
  {
    if |s| > 0 {
      EscapePlain(s[1..]);
    }
  }

  /** Decodes the five entities `html_escape` produces. */
  function Unescape(s: string): (r: string)
    ensures |r| <= |s|
  {
    if |s| == 0 then ""
    else if s[0] == '&' && |s| >= 5 && s[..5] == "&amp;" then "&" + Unescape(s[5..])
    else if s[0] == '&' && |s| >= 4 && s[..4] == "&lt;" then "<" + Unescape(s[4..])
    else if s[0] == '&' && |s| >= 4 && s[..4] == "&gt;" then ">" + Unescape(s[4..])
    else if s[0] == '&' && |s| >= 6 && s[..6] == "&quot;" then "\"" + Unescape(s[6..])
    else if s[0] == '&' && |s| >= 5 && s[..5] == "&#39;" then "'" + Unescape(s[5..])
    else [s[0]] + Unescape(s[1..])
  }

  lemma UnescapeStep(c: char, rest: string)
    ensures Unescape(EscapeChar(c) + rest) == [c] + Unescape(rest)
  {
    var t := EscapeChar(c) + rest;
    if c == '&' {
      assert t[..5] == "&amp;" && t[5..] == rest;
    } else if c == '<' {
      assert t[..4] == "&lt;" && t[4..] == rest;
      assert t[1] == 'l';
      assert |t| >= 5 ==> t[..5] != "&amp;" by {
        if |t| >= 5 { assert t[..5][1] == 'l'; }
      }
    } else if c == '>' {
      assert t[..4] == "&gt;" && t[4..] == rest;
      assert t[1] == 'g';
      assert |t| >= 5 ==> t[..5] != "&amp;" by {
        if |t| >= 5 { assert t[..5][1] == 'g'; }
      }
      assert t[..4] != "&lt;" by { assert t[..4][1] == 'g'; }
    } else if c == '"' {
      assert t[..6] == "&quot;" && t[6..] == rest;
    } else if c == '\'' {
      assert t[..5] == "&#39;" && t[5..] == rest;
    } else {
      assert t[0] == c && t[1..] == rest;
    }
  }

  /** Escaping loses nothing: decoding gives the original text back. */
  lemma {:induction false} UnescapeEscape(s: string)
    ensures Unescape(Escape(s)) == s
  {
    if |s| > 0 {
      UnescapeStep(s[0], Escape(s[1..]));
      UnescapeEscape(s[1..]);
      assert [s[0]] + s[1..] == s;
    }
  }

  /** `gsub(/\n/, '<br>')`. */
  function BreakLines(s: string): (r: string)
    ensures '\n' !in r
    ensures |r| >= |s|
  {
    if |s| == 0 then ""
    else if s[0] == '\n' then "<br>" + BreakLines(s[1..])
    else [s[0]] + BreakLines(s[1..])
  }

  /** Text without newlines is left as it is. */
  lemma {:induction false} BreakLinesPlain(s: string)
    requires '\n' !in s
    ensures BreakLines(s) == s
  {
    if |s| > 0 {
      assert '\n' !in s[1..];
      BreakLinesPlain(s[1..]);
    }
  }

  /** Number of occurrences of `c` in `s`. */
  function Count(s: string, c: char): nat {
    if |s| == 0 then 0
    else (if s[0] == c then 1 else 0) + Count(s[1..], c)
  }

  lemma {:induction false} CountAppend(a: string, b: string, c: char)
    ensures Count(a + b, c) == Count(a, c) + Count(b, c)
  {
    if |a| > 0 {
      assert (a + b)[1..] == a[1..] + b;
      CountAppend(a[1..], b, c);
    } else {
      assert a + b == b;
    }
  }

  lemma {:induction false} CountAbsent(s: string, c: char)
    requires c !in s
    ensures Count(s, c) == 0
  {
    if |s| > 0 {
      CountAbsent(s[1..], c);
    }
  }

  /** `<p>…</p>` around a text. */
  function Paragraph(body: string): string {
    "<p>" + body + "</p>"
  }

  /** A paragraph around escaped text opens exactly two tags. */
  lemma ParagraphTags(t: string)
    ensures Count(Paragraph(Escape(t)), '<') == 2
  {
    var e := Escape(t);
    CountAbsent(e, '<');
    CountAppend("<p>", e, '<');
    CountAppend("<p>" + e, "</p>", '<');
    assert Count("<p>", '<') == 1 by {
      assert "<p>"[1..] == "p>";
      assert "p>"[1..] == ">";
      assert ">"[1..] == "";
    }
    assert Count("</p>", '<') == 1 by {
      assert "</p>"[1..] == "/p>";
      assert "/p>"[1..] == "p>";
      assert "p>"[1..] == ">";
      assert ">"[1..] == "";
    }
  }

  /** A character that can appear in an entity `html_escape` writes. */
  predicate EntityChar(c: char) {
    c in "&amp;lt;gt;quot;#39"
  }

  lemma EscapeCharHead(c: char, rest: string)
    ensures (EscapeChar(c) + rest)[0] == c || (EscapeChar(c) + rest)[0] == '&'
  {
  }

  lemma EscapeHead(s: string)
    requires |s| > 0
    ensures Escape(s)[0] == s[0] || Escape(s)[0] == '&'
  {
  }

  /**
   * Escaping neither creates nor joins two adjacent characters of a class
   * that contains no character of an entity.
   */
  lemma {:induction false} EscapeNoAdjacent(s: string, sep: char -> bool)
    requires forall c :: sep(c) ==> !EntityChar(c)
    requires forall i :: 0 <= i < |s| - 1 ==> !(sep(s[i]) && sep(s[i + 1]))
    ensures forall i :: 0 <= i < |Escape(s)| - 1 ==> !(sep(Escape(s)[i]) && sep(Escape(s)[i + 1]))
  {
    if |s| > 0 {
      var e0 := EscapeChar(s[0]);
      var tail := Escape(s[1..]);
      EscapeNoAdjacent(s[1..], sep);
      var r := e0 + tail;
      assert Escape(s) == r;
      forall i | 0 <= i < |r| - 1
        ensures !(sep(r[i]) && sep(r[i + 1]))
      {
        if i + 1 < |e0| {
          assert Special(s[0]);
          assert EntityChar(e0[i]);
        } else if i + 1 == |e0| {
          if sep(r[i]) {
            assert r[i] == e0[i];
            if Special(s[0]) {
              assert EntityChar(e0[i]);
            }
            assert e0 == [s[0]];
            assert |s| > 1;
            EscapeHead(s[1..]);
            assert r[i + 1] == tail[0];
            assert EntityChar('&');
            assert s[1..][0] == s[1];
            assert r[i + 1] != '&' ==> r[i + 1] == s[1];
          }
        } else {
          assert r[i] == tail[i - |e0|] && r[i + 1] == tail[i - |e0| + 1];
        }
      }
    }
  }
}
