/**
 * A small stand-in for Ruby's JSON.parse, enough for the one-line status
 * objects the core looks for: a flat object whose values are null, true,
 * false, integers or strings without escapes. Anything else is a parse error.
 */
module Json {
  import opened Wrappers
  import Text

  datatype Value = Null | Bool(b: bool) | Number(lexeme: string) | Str(text: string)

  /** Members in the order they appear in the text. */
  type Object = seq<(string, Value)>

  /** JSON insignificant white space. */
  predicate IsWs(c: char) { c == ' ' || c == '\t' || c == '\n' || c == '\r' }

  predicate IsDigit(c: char) { '0' <= c <= '9' }

  /** A character the stub accepts inside a string literal. */
  predicate IsStrChar(c: char) { c != '"' && c != '\\' && c >= ' ' }

  function SkipWs(s: string): (r: string)
    ensures |r| <= |s|
    ensures r == [] || !IsWs(r[0])
  {
    if |s| > 0 && IsWs(s[0]) then SkipWs(s[1..]) else s
  }

  /** A string literal at the head of `s`: its text and what follows it. */
  function ParseString(s: string): (r: Option<(string, string)>)
    ensures r.Some? ==> |r.value.1| < |s|
  {
    if |s| > 0 && s[0] == '"' then
      var n := Text.LeadingCount(s[1..], IsStrChar);
      if 1 + n < |s| && s[1 + n] == '"' then Some((s[1..1 + n], s[2 + n..])) else None
    else None
  }

  /** An integer literal at the head of `s`: an optional '-' and at least one digit. */
  function ParseNumber(s: string): (r: Option<(string, string)>)
    ensures r.Some? ==> |r.value.1| < |s|
  {
    var sign := if |s| > 0 && s[0] == '-' then 1 else 0;
    var n := Text.LeadingCount(s[sign..], IsDigit);
    if n > 0 then Some((s[..sign + n], s[sign + n..])) else None
  }

  function ParseValue(s: string): (r: Option<(Value, string)>)
    ensures r.Some? ==> |r.value.1| < |s|
  {
    if |s| == 0 then None
    else if s[0] == 't' then (if "true" <= s then Some((Bool(true), s[4..])) else None)
    else if s[0] == 'f' then (if "false" <= s then Some((Bool(false), s[5..])) else None)
    else if s[0] == 'n' then (if "null" <= s then Some((Null, s[4..])) else None)
    else if s[0] == '"' then
      match ParseString(s)
      case Some((t, rest)) => Some((Str(t), rest))
      case None => None
    else
      match ParseNumber(s)
      case Some((l, rest)) => Some((Number(l), rest))
      case None => None
  }

  /** One `"key": value` pair at the head of `s` and what follows it. */
  function ParseMember(s: string): (r: Option<((string, Value), string)>)
    ensures r.Some? ==> |r.value.1| < |s|
  {
    match ParseString(s)
    case None => None
    case Some((k, r1)) =>
      var r2 := SkipWs(r1);
      if |r2| > 0 && r2[0] == ':' then
        match ParseValue(SkipWs(r2[1..]))
        case None => None
        case Some((v, r4)) => Some(((k, v), r4))
      else None
  }

  /** Pairs separated by ',' up to and including the closing '}'. */
  function ParseMembers(s: string): (r: Option<(Object, string)>)
    decreases |s|
  {
    match ParseMember(s)
    case None => None
    case Some((m, r4)) =>
      var r5 := SkipWs(r4);
      if |r5| > 0 && r5[0] == ',' then
        match ParseMembers(SkipWs(r5[1..]))
        case None => None
        case Some((more, r7)) => Some(([m] + more, r7))
      else if |r5| > 0 && r5[0] == '}' then Some(([m], r5[1..]))
      else None
  }

  /** The whole of `s` is one JSON object. */
  function Parse(s: string): Option<Object> {
    var t := SkipWs(s);
    if |t| > 0 && t[0] == '{' then
      var u := SkipWs(t[1..]);
      if |u| > 0 && u[0] == '}' then
        if SkipWs(u[1..]) == [] then Some([]) else None
      else
        match ParseMembers(u)
        case Some((obj, rest)) => if SkipWs(rest) == [] then Some(obj) else None
        case None => None
    else None
  }

  /** Hash#[] on the parsed object: a later duplicate key wins. */
  function Get(obj: Object, key: string): (r: Option<Value>)
    ensures r.Some? <==> exists i :: 0 <= i < |obj| && obj[i].0 == key
    ensures r.Some? ==> exists i :: 0 <= i < |obj| && obj[i] == (key, r.value)
  {
    if |obj| == 0 then None
    else if obj[|obj| - 1].0 == key then
      assert obj[|obj| - 1] == (key, obj[|obj| - 1].1);
      Some(obj[|obj| - 1].1)
    else
      var r := Get(obj[..|obj| - 1], key);
      assert forall i :: 0 <= i < |obj| - 1 ==> obj[..|obj| - 1][i] == obj[i];
      r
  }

  /** Ruby `!!value`: only nil and false are false. */
  predicate Truthy(v: Option<Value>) {
    match v
    case None => false
    case Some(Null) => false
    case Some(Bool(b)) => b
    case Some(_) => true
  }

  // ---- Printing, the partner of Parse ----

  predicate ValidValue(v: Value) {
    match v
    case Str(t) => forall i :: 0 <= i < |t| ==> IsStrChar(t[i])
    case Number(l) =>
      var sign := if |l| > 0 && l[0] == '-' then 1 else 0;
      sign < |l| && forall i :: sign <= i < |l| ==> IsDigit(l[i])
    case _ => true
  }

  predicate ValidObject(obj: Object) {
    forall i :: 0 <= i < |obj| ==>
      ValidValue(obj[i].1) && forall j :: 0 <= j < |obj[i].0| ==> IsStrChar(obj[i].0[j])
  }

  function PrintString(t: string): string { "\"" + t + "\"" }

  function PrintValue(v: Value): string {
    match v
    case Null => "null"
    case Bool(b) => if b then "true" else "false"
    case Number(l) => l
    case Str(t) => PrintString(t)
  }

  function PrintMembers(obj: Object): string
    requires |obj| > 0
  {
    PrintString(obj[0].0) + ": " + PrintValue(obj[0].1)
    + if |obj| == 1 then "" else ", " + PrintMembers(obj[1..])
  }

  /** Single-line rendering, `{"key": value, ...}`, as JSON.generate with spaces. */
  function Print(obj: Object): string {
    if |obj| == 0 then "{}" else "{" + PrintMembers(obj) + "}"
  }

  lemma {:induction false} LeadingCountStops(t: string, rest: string, p: char -> bool)
    requires forall i :: 0 <= i < |t| ==> p(t[i])
    requires |rest| > 0 && !p(rest[0])
    ensures Text.LeadingCount(t + rest, p) == |t|
  {
    if |t| > 0 {
      assert (t + rest)[1..] == t[1..] + rest;
      LeadingCountStops(t[1..], rest, p);
    }
  }

  lemma SkipWsNone(s: string)
    requires |s| > 0 && !IsWs(s[0])
    ensures SkipWs(s) == s
  {
  }

  lemma SkipWsOne(s: string)
    requires |s| > 0 && !IsWs(s[0])
    ensures SkipWs(" " + s) == s
  {
    assert (" " + s)[1..] == s;
  }

  lemma {:induction false} ParseStringPrinted(t: string, rest: string)
    requires forall i :: 0 <= i < |t| ==> IsStrChar(t[i])
    ensures ParseString(PrintString(t) + rest) == Some((t, rest))
  {
    var s := PrintString(t) + rest;
    assert s[1..] == t + ("\"" + rest);
    LeadingCountStops(t, "\"" + rest, IsStrChar);
    assert s[1..1 + |t|] == t;
    assert s[2 + |t|..] == rest;
  }

  lemma {:induction false} ParseValuePrinted(v: Value, rest: string)
    requires ValidValue(v)
    requires |rest| > 0 && !IsDigit(rest[0])
    ensures ParseValue(PrintValue(v) + rest) == Some((v, rest))
  {
    match v
    case Null => ParseWordPrinted("null", rest);
    case Bool(b) =>
      if b { ParseWordPrinted("true", rest); } else { ParseWordPrinted("false", rest); }
    case Str(t) =>
      ParseStringPrinted(t, rest);
      assert (PrintString(t) + rest)[0] == '"';
    case Number(l) => ParseNumberPrinted(l, rest);
  }

  /** The slices of a keyword followed by the rest of the text. */
  lemma ParseWordPrinted(w: string, rest: string)
    ensures w <= w + rest && (w + rest)[|w|..] == rest
  { }

  lemma ParseNumberPrinted(l: string, rest: string)
    requires ValidValue(Number(l))
    requires |rest| > 0 && !IsDigit(rest[0])
    ensures ParseNumber(l + rest) == Some((l, rest))
    ensures (l + rest)[0] != 't' && (l + rest)[0] != 'f' && (l + rest)[0] != 'n' && (l + rest)[0] != '"'
  {
    var s := l + rest;
    var sign := if l[0] == '-' then 1 else 0;
    assert s[0] == l[0];
    assert s[sign..] == l[sign..] + rest;
    LeadingCountStops(l[sign..], rest, IsDigit);
    assert s[..|l|] == l && s[|l|..] == rest;
  }

  lemma PrintValueHead(v: Value)
    requires ValidValue(v)
    ensures |PrintValue(v)| > 0 && !IsWs(PrintValue(v)[0])
  {
  }

  lemma ParseMemberPrinted(k: string, v: Value, tail: string)
    requires forall j :: 0 <= j < |k| ==> IsStrChar(k[j])
    requires ValidValue(v)
    requires |tail| > 0 && !IsDigit(tail[0])
    ensures ParseMember(PrintString(k) + ": " + PrintValue(v) + tail) == Some(((k, v), tail))
  {
    var pv := PrintValue(v);
    var r1 := ": " + (pv + tail);
    assert PrintString(k) + ": " + pv + tail == PrintString(k) + r1;
    ParseStringPrinted(k, r1);
    PrintValueHead(v);
    PunctSpace(':', pv + tail);
    ParseValuePrinted(v, tail);
  }

  lemma ParseMembersLast(s: string, m: (string, Value), rest: string)
    requires ParseMember(s) == Some((m, "}" + rest))
    ensures ParseMembers(s) == Some(([m], rest))
  {
    SkipWsNone("}" + rest);
    assert ("}" + rest)[1..] == rest;
  }

  lemma ParseMembersNext(s: string, m: (string, Value), more: string, obj: Object, rest: string)
    requires ParseMember(s) == Some((m, ", " + more))
    requires |more| > 0 && more[0] == '"'
    requires ParseMembers(more) == Some((obj, rest))
    ensures ParseMembers(s) == Some(([m] + obj, rest))
  {
    PunctSpace(',', more);
  }

  /** Punctuation, one space and a text that starts with no white space. */
  lemma PunctSpace(p: char, more: string)
    requires !IsWs(p)
    requires |more| > 0 && !IsWs(more[0])
    ensures var t := [p] + " " + more; SkipWs(t) == t && t[0] == p && SkipWs(t[1..]) == more
  {
    var t := [p] + " " + more;
    SkipWsNone(t);
    assert t[1..] == " " + more;
    SkipWsOne(more);
  }

  lemma PrintMembersSplit(obj: Object, rest: string)
    requires |obj| > 1
    ensures PrintMembers(obj) + "}" + rest
         == PrintString(obj[0].0) + ": " + PrintValue(obj[0].1) + (", " + (PrintMembers(obj[1..]) + "}" + rest))
  {
    var a := PrintString(obj[0].0) + ": " + PrintValue(obj[0].1);
    var p := PrintMembers(obj[1..]);
    assert PrintMembers(obj) == a + (", " + p);
    Regroup(a, ", ", p, "}", rest);
  }

  lemma Regroup(a: string, b: string, c: string, d: string, e: string)
    ensures a + (b + c) + d + e == a + (b + (c + d + e))
  { }

  lemma ParseMembersPrintedOne(obj: Object, rest: string)
    requires |obj| == 1 && ValidObject(obj)
    ensures ParseMembers(PrintMembers(obj) + "}" + rest) == Some((obj, rest))
  {
    var k, v := obj[0].0, obj[0].1;
    var s := PrintMembers(obj) + "}" + rest;
    assert s == PrintString(k) + ": " + PrintValue(v) + ("}" + rest);
    ParseMemberPrinted(k, v, "}" + rest);
    ParseMembersLast(s, (k, v), rest);
    assert [(k, v)] == obj;
  }

  lemma ParseMembersPrintedCons(obj: Object, rest: string)
    requires |obj| > 1 && ValidObject(obj)
    requires ParseMembers(PrintMembers(obj[1..]) + "}" + rest) == Some((obj[1..], rest))
    ensures ParseMembers(PrintMembers(obj) + "}" + rest) == Some((obj, rest))
  {
    var more := PrintMembers(obj[1..]) + "}" + rest;
    PrintMembersSplit(obj, rest);
    ParseMembersCons(obj[0].0, obj[0].1, more, obj[1..], rest);
    HeadTail(obj);
  }

  lemma HeadTail<T>(xs: seq<T>)
    requires |xs| > 0
    ensures [xs[0]] + xs[1..] == xs
  { }

  /** A printed member, a comma and a parsable list parse as one longer list. */
  lemma ParseMembersCons(k: string, v: Value, more: string, obj: Object, rest: string)
    requires forall j :: 0 <= j < |k| ==> IsStrChar(k[j])
    requires ValidValue(v)
    requires |more| > 0 && more[0] == '"'
    requires ParseMembers(more) == Some((obj, rest))
    ensures ParseMembers(PrintString(k) + ": " + PrintValue(v) + (", " + more)) == Some(([(k, v)] + obj, rest))
  {
    ParseMemberPrinted(k, v, ", " + more);
    ParseMembersNext(PrintString(k) + ": " + PrintValue(v) + (", " + more), (k, v), more, obj, rest);
  }

  lemma {:induction false} ParseMembersPrinted(obj: Object, rest: string)
    requires |obj| > 0 && ValidObject(obj)
    ensures ParseMembers(PrintMembers(obj) + "}" + rest) == Some((obj, rest))
    decreases |obj|
  {
    if |obj| == 1 {
      ParseMembersPrintedOne(obj, rest);
    } else {
      assert ValidObject(obj[1..]);
      ParseMembersPrinted(obj[1..], rest);
      ParseMembersPrintedCons(obj, rest);
    }
  }

  /** Parsing the printed form of a well-formed object gives the object back. */
  lemma ParsePrint(obj: Object)
    requires ValidObject(obj)
    ensures Parse(Print(obj)) == Some(obj)
  {
    var s := Print(obj);
    SkipWsNone(s);
    if |obj| == 0 {
      assert s[1..] == "}";
    } else {
      var body := PrintMembers(obj) + "}" + "";
      assert s[1..] == body;
      assert body[0] == '"';
      SkipWsNone(body);
      ParseMembersPrinted(obj, "");
    }
  }
}
