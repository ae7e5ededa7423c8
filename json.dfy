/**
 * The part of `JSON.parse` and `JSON.stringify` the package scanner depends on: deciding whether a
 * text is a JSON text (the grammar of RFC 8259, with the whitespace `JSON.parse` accepts around it),
 * reading a member of a parsed object, and writing a string as a JSON string literal.
 */
module Json {
  import opened Wrappers
  import opened Strings

  /** A parsed JSON value; a number keeps its source text. */
  datatype Value =
    | JNull
    | JBool(b: bool)
    | JNumber(text: string)
    | JString(s: string)
    | JArray(items: seq<Value>)
    | JObject(members: seq<(string, Value)>)

  /** The four whitespace characters of section 2 of RFC 8259. */
  predicate IsWs(c: char) {
    c == ' ' || c == '\t' || c == '\n' || c == '\r'
  }

  function SkipWs(s: string): (r: string)
    ensures |r| <= |s|
    ensures |r| > 0 ==> !IsWs(r[0])
    decreases |s|
  {
    if |s| > 0 && IsWs(s[0]) then SkipWs(s[1..]) else s
  }

  predicate IsHex(c: char) {
    '0' <= c <= '9' || 'a' <= c <= 'f' || 'A' <= c <= 'F'
  }

  function HexValue(c: char): (n: nat)
    requires IsHex(c)
    ensures n < 16
  {
    if '0' <= c <= '9' then c as int - '0' as int
    else if 'a' <= c <= 'f' then c as int - 'a' as int + 10
    else c as int - 'A' as int + 10
  }

  /** The value of the four hex digits that start `s`, if they are there. */
  function Hex4(s: string): (r: Option<nat>)
    ensures r.Some? ==> |s| >= 4 && r.value < 0x10000
  {
    if |s| >= 4 && IsHex(s[0]) && IsHex(s[1]) && IsHex(s[2]) && IsHex(s[3])
    then Some(HexValue(s[0]) * 4096 + HexValue(s[1]) * 256 + HexValue(s[2]) * 16 + HexValue(s[3]))
    else None
  }

  /**
   * The rest of a string literal after its opening quote (section 7 of RFC 8259): the characters
   * read so far are `acc`; the result is the string and the text after the closing quote. A
   * surrogate pair written as two `\u` escapes is one character.
   */
  function ParseStringBody(s: string, acc: string): (r: Option<(string, string)>)
    ensures r.Some? ==> |r.value.1| < |s|
    decreases |s|
  {
    if |s| == 0 then None
    else if s[0] == '"' then Some((acc, s[1..]))
    else if s[0] == '\\' then
      if |s| < 2 then None
      else
        var e := s[1];
        if e == '"' || e == '\\' || e == '/' then ParseStringBody(s[2..], acc + [e])
        else if e == 'b' then ParseStringBody(s[2..], acc + [8 as char])
        else if e == 'f' then ParseStringBody(s[2..], acc + [12 as char])
        else if e == 'n' then ParseStringBody(s[2..], acc + ['\n'])
        else if e == 'r' then ParseStringBody(s[2..], acc + ['\r'])
        else if e == 't' then ParseStringBody(s[2..], acc + ['\t'])
        else if e == 'u' then
          match Hex4(s[2..])
          case None => None
          case Some(n) =>
            if n < 0xD800 || 0xE000 <= n then ParseStringBody(s[6..], acc + [n as char])
            else if n < 0xDC00 && |s| >= 12 && s[6] == '\\' && s[7] == 'u' then
              match Hex4(s[8..])
              case None => None
              case Some(m) =>
                if 0xDC00 <= m < 0xE000
                then ParseStringBody(s[12..], acc + [(0x10000 + (n - 0xD800) * 0x400 + (m - 0xDC00)) as char])
                else None
            else None
        else None
    else if (s[0] as int) < 0x20 then None
    else ParseStringBody(s[1..], acc + [s[0]])
  }

  /** The number of decimal digits that start `s`. */
  function DigitRun(s: string): (n: nat)
    ensures n <= |s|
    ensures forall i :: 0 <= i < n ==> IsDigit(s[i])
    ensures n < |s| ==> !IsDigit(s[n])
    decreases |s|
  {
    if |s| > 0 && IsDigit(s[0]) then 1 + DigitRun(s[1..]) else 0
  }

  /**
   * The length of the number (section 6 of RFC 8259) that starts `s`: a minus sign, an integer part
   * without leading zeros, an optional fraction and an optional exponent.
   */
  function NumberLength(s: string): (r: Option<nat>)
    ensures r.Some? ==> 0 < r.value <= |s|
  {
    var a := if |s| > 0 && s[0] == '-' then 1 else 0;
    if a >= |s| || !IsDigit(s[a]) then None
    else
      var b := a + (if s[a] == '0' then 1 else DigitRun(s[a..]));
      var c := if b < |s| && s[b] == '.'
               then (if b + 1 < |s| && IsDigit(s[b + 1]) then b + 1 + DigitRun(s[b + 1..]) else -1)
               else b;
      if c < 0 then None
      else
        var d := if c < |s| && (s[c] == 'e' || s[c] == 'E')
                 then (var e := if c + 1 < |s| && (s[c + 1] == '+' || s[c + 1] == '-') then c + 2 else c + 1;
                       if e < |s| && IsDigit(s[e]) then e + DigitRun(s[e..]) else -1)
                 else c;
        if d < 0 then None else Some(d)
  }

  /** The value that starts `s` (after whitespace), and the text after it. */
  function ParseValue(s: string): (r: Option<(Value, string)>)
    ensures r.Some? ==> |r.value.1| < |s|
    decreases |s|, 2
  {
    var t := SkipWs(s);
    if |t| == 0 then None
    else if t[0] == '{' then ParseObject(t[1..])
    else if t[0] == '[' then ParseArray(t[1..])
    else if t[0] == '"' then
      match ParseStringBody(t[1..], "")
      case None => None
      case Some((x, rest)) => Some((JString(x), rest))
    else if StartsWith(t, "true") then Some((JBool(true), t[4..]))
    else if StartsWith(t, "false") then Some((JBool(false), t[5..]))
    else if StartsWith(t, "null") then Some((JNull, t[4..]))
    else
      match NumberLength(t)
      case None => None
      case Some(n) => Some((JNumber(t[..n]), t[n..]))
  }

  /** The rest of an array after its `[`. */
  function ParseArray(s: string): (r: Option<(Value, string)>)
    ensures r.Some? ==> |r.value.1| < |s|
    decreases |s|, 4
  {
    var t := SkipWs(s);
    if |t| > 0 && t[0] == ']' then Some((JArray([]), t[1..]))
    else ParseElements(s, [])
  }

  /** The elements of an array from the next one on, after the elements `acc`, through the `]`. */
  function ParseElements(s: string, acc: seq<Value>): (r: Option<(Value, string)>)
    ensures r.Some? ==> |r.value.1| < |s|
    decreases |s|, 3
  {
    match ParseValue(s)
    case None => None
    case Some((v, rest)) =>
      var t := SkipWs(rest);
      if |t| == 0 then None
      else if t[0] == ',' then ParseElements(t[1..], acc + [v])
      else if t[0] == ']' then Some((JArray(acc + [v]), t[1..]))
      else None
  }

  /** The rest of an object after its `{`. */
  function ParseObject(s: string): (r: Option<(Value, string)>)
    ensures r.Some? ==> |r.value.1| < |s|
    decreases |s|, 4
  {
    var t := SkipWs(s);
    if |t| > 0 && t[0] == '}' then Some((JObject([]), t[1..]))
    else ParseMembers(t, [])
  }

  /** The members of an object from the next one on, after the members `acc`, through the `}`. */
  function ParseMembers(s: string, acc: seq<(string, Value)>): (r: Option<(Value, string)>)
    ensures r.Some? ==> |r.value.1| < |s|
    decreases |s|, 3
  {
    var t := SkipWs(s);
    if |t| == 0 || t[0] != '"' then None
    else
      match ParseStringBody(t[1..], "")
      case None => None
      case Some((key, r1)) =>
        var u := SkipWs(r1);
        if |u| == 0 || u[0] != ':' then None
        else
          match ParseValue(u[1..])
          case None => None
          case Some((v, r2)) =>
            var w := SkipWs(r2);
            if |w| == 0 then None
            else if w[0] == ',' then ParseMembers(w[1..], acc + [(key, v)])
            else if w[0] == '}' then Some((JObject(acc + [(key, v)]), w[1..]))
            else None
  }

  /** `JSON.parse(s)`: the value, when `s` is one JSON value with only whitespace around it. */
  function Parse(s: string): Option<Value> {
    match ParseValue(s)
    case None => None
    case Some((v, rest)) => if SkipWs(rest) == "" then Some(v) else None
  }

  /** A property read on a parsed object: the last member with that name wins. */
  function Lookup(members: seq<(string, Value)>, key: string): (r: Option<Value>)
    ensures r.Some? ==> exists i :: 0 <= i < |members| && members[i] == (key, r.value)
    ensures r.None? ==> forall i :: 0 <= i < |members| ==> members[i].0 != key
    decreases |members|
  {
    if |members| == 0 then None
    else if members[|members| - 1].0 == key then Some(members[|members| - 1].1)
    else Lookup(members[..|members| - 1], key)
  }

  // ---------------------------------------------------------------------------------------------
  // Writing strings
  // ---------------------------------------------------------------------------------------------

  /** A string that can be put between quotes as it is: no quote, no backslash, no control character. */
  predicate Plain(x: string) {
    forall i :: 0 <= i < |x| ==> x[i] != '"' && x[i] != '\\' && (x[i] as int) >= 0x20
  }

  function HexDigit(d: nat): (c: char)
    requires d < 16
    ensures IsHex(c) && HexValue(c) == d
  {
    if d < 10 then ('0' as int + d) as char else ('a' as int + d - 10) as char
  }

  /** How `JSON.stringify` writes one character inside a string literal. */
  function EscapeChar(c: char): string {
    if c == '"' then "\\\""
    else if c == '\\' then "\\\\"
    else if c == 8 as char then "\\b"
    else if c == 12 as char then "\\f"
    else if c == '\n' then "\\n"
    else if c == '\r' then "\\r"
    else if c == '\t' then "\\t"
    else if (c as int) < 0x20 then "\\u00" + [HexDigit((c as int) / 16), HexDigit((c as int) % 16)]
    else [c]
  }

  function Escape(x: string): string
    decreases |x|
  {
    if |x| == 0 then "" else EscapeChar(x[0]) + Escape(x[1..])
  }

  /** `JSON.stringify` of a string. */
  function Quote(x: string): string {
    "\"" + Escape(x) + "\""
  }

  // ---------------------------------------------------------------------------------------------
  // Reading back what was written
  // ---------------------------------------------------------------------------------------------

  /** One escaped character reads back as that character. */
  lemma EscapeCharParses(c: char, rest: string, acc: string)
    ensures ParseStringBody(EscapeChar(c) + rest, acc) == ParseStringBody(rest, acc + [c])
  {
    var s := EscapeChar(c) + rest;
    if c == '"' || c == '\\' || c == 8 as char || c == 12 as char || c == '\n' || c == '\r' || c == '\t' {
      assert s[2..] == rest;
    } else if (c as int) < 0x20 {
      var h1 := HexDigit((c as int) / 16);
      var h2 := HexDigit((c as int) % 16);
      assert s[2..][..4] == ['0', '0', h1, h2];
      assert Hex4(s[2..]) == Some(c as int);
      assert s[6..] == rest;
    } else {
      assert s[1..] == rest;
    }
  }

  /** An escaped string followed by a quote reads back as the string. */
  lemma {:induction false} EscapeParses(x: string, rest: string, acc: string)
    ensures ParseStringBody(Escape(x) + "\"" + rest, acc) == Some((acc + x, rest))
    decreases |x|
  {
    if |x| == 0 {
      assert Escape(x) + "\"" + rest == "\"" + rest;
      assert ("\"" + rest)[1..] == rest;
      assert acc + x == acc;
    } else {
      assert Escape(x) + "\"" + rest == EscapeChar(x[0]) + (Escape(x[1..]) + "\"" + rest);
      EscapeCharParses(x[0], Escape(x[1..]) + "\"" + rest, acc);
      EscapeParses(x[1..], rest, acc + [x[0]]);
      assert acc + [x[0]] + x[1..] == acc + x;
    }
  }

  /** A plain string is written as it is. */
  lemma {:induction false} EscapePlain(x: string)
    requires Plain(x)
    ensures Escape(x) == x
    decreases |x|
  {
    if |x| > 0 {
      assert Plain(x[1..]) by {
        forall i | 0 <= i < |x[1..]|
          ensures x[1..][i] != '"' && x[1..][i] != '\\' && (x[1..][i] as int) >= 0x20
        {
          assert x[1..][i] == x[i + 1];
        }
      }
      EscapePlain(x[1..]);
      assert x == [x[0]] + x[1..];
    }
  }

  /** `JSON.parse` reads a `JSON.stringify`-ed string back. */
  lemma QuoteParses(x: string, rest: string)
    ensures ParseValue(Quote(x) + rest) == Some((JString(x), rest))
  {
    var s := Quote(x) + rest;
    assert s[0] == '"';
    assert SkipWs(s) == s;
    assert s[1..] == Escape(x) + "\"" + rest;
    EscapeParses(x, rest, "");
    assert "" + x == x;
  }

  /** The text of `key: value` followed by `tail`, as an object member is written. */
  function MemberText(key: string, valueText: string, tail: string): string {
    Quote(key) + (":" + (valueText + tail))
  }

  /**
   * A member whose value text reads as `v` up to a following `,` or `}`: the member is read and
   * the object goes on, or ends, after it.
   */
  lemma MemberParses(key: string, valueText: string, v: Value, tail: string, acc: seq<(string, Value)>)
    requires ParseValue(valueText + tail) == Some((v, tail))
    requires |tail| > 0 && (tail[0] == ',' || tail[0] == '}')
    ensures tail[0] == ',' ==> ParseMembers(MemberText(key, valueText, tail), acc) == ParseMembers(tail[1..], acc + [(key, v)])
    ensures tail[0] == '}' ==> ParseMembers(MemberText(key, valueText, tail), acc) == Some((JObject(acc + [(key, v)]), tail[1..]))
  {
    var after := ":" + (valueText + tail);
    KeyParses(key, after);
    assert after[1..] == valueText + tail;
    ParseMembersStep(MemberText(key, valueText, tail), acc, key, after, v, tail);
  }

  /** A written key followed by `after` reads as that key. */
  lemma KeyParses(key: string, after: string)
    ensures var s := Quote(key) + after;
            |s| > 0 && s[0] == '"' && SkipWs(s) == s && ParseStringBody(s[1..], "") == Some((key, after))
  {
    var s := Quote(key) + after;
    assert s[1..] == Escape(key) + "\"" + after;
    EscapeParses(key, after, "");
    assert "" + key == key;
  }

  /** One member is read: its key, a `:`, its value, and then a `,` or the `}`. */
  lemma ParseMembersStep(s: string, acc: seq<(string, Value)>, key: string, r1: string, v: Value, r2: string)
    requires |s| > 0 && s[0] == '"' && SkipWs(s) == s
    requires ParseStringBody(s[1..], "") == Some((key, r1))
    requires |r1| > 0 && r1[0] == ':' && ParseValue(r1[1..]) == Some((v, r2))
    requires |r2| > 0 && (r2[0] == ',' || r2[0] == '}')
    ensures r2[0] == ',' ==> ParseMembers(s, acc) == ParseMembers(r2[1..], acc + [(key, v)])
    ensures r2[0] == '}' ==> ParseMembers(s, acc) == Some((JObject(acc + [(key, v)]), r2[1..]))
  {
    assert SkipWs(r1) == r1;
    assert SkipWs(r2) == r2;
  }

  /** The decimal rendering of an integer reads as a number when a `,` or `}` or nothing follows. */
  lemma IntParses(n: int, rest: string)
    requires rest == "" || rest[0] == ',' || rest[0] == '}'
    ensures ParseValue(IntToString(n) + rest) == Some((JNumber(IntToString(n)), rest))
  {
    var m := if n < 0 then -n else n;
    var sign := if n < 0 then "-" else "";
    NatToStringShape(m);
    assert IntToString(n) == sign + NatToString(m);
    var s := IntToString(n) + rest;
    assert s == sign + NatToString(m) + rest;
    NumberLengthDigits(sign, NatToString(m), rest);
    var k := |sign| + |NatToString(m)|;
    NumberParses(s, k);
    assert s[..k] == IntToString(n);
    assert s[k..] == rest;
  }

  /** A text that starts with a number reads as that number. */
  lemma NumberParses(s: string, k: nat)
    requires NumberLength(s) == Some(k)
    ensures ParseValue(s) == Some((JNumber(s[..k]), s[k..]))
  {
    NumberStarts(s);
    NumberStartParses(s);
  }

  /** A number starts with a minus sign or a digit. */
  lemma NumberStarts(s: string)
    requires NumberLength(s).Some?
    ensures s[0] == '-' || IsDigit(s[0])
  {
  }

  /** A text that starts with a minus sign or a digit reads as a number, if it is one. */
  lemma NumberStartParses(s: string)
    requires |s| > 0 && (s[0] == '-' || IsDigit(s[0]))
    ensures ParseValue(s) == match NumberLength(s)
                             case None => None
                             case Some(n) => Some((JNumber(s[..n]), s[n..]))
  {
    assert SkipWs(s) == s;
    assert s[0] != '{' && s[0] != '[' && s[0] != '"';
    assert !StartsWith(s, "true") && !StartsWith(s, "false") && !StartsWith(s, "null") by {
      assert s[0] != 't' && s[0] != 'f' && s[0] != 'n';
    }
  }

  /** An optional sign, digits without a leading zero, and then no fraction or exponent, is a number. */
  lemma NumberLengthDigits(sign: string, digits: string, rest: string)
    requires sign == "" || sign == "-"
    requires |digits| > 0 && AllDigits(digits) && (digits[0] == '0' ==> |digits| == 1)
    requires rest == "" || rest[0] == ',' || rest[0] == '}'
    ensures NumberLength(sign + digits + rest) == Some(|sign| + |digits|)
  {
    var s := sign + digits + rest;
    var a := |sign|;
    var b := a + |digits|;
    assert s[a..] == digits + rest;
    assert s[a] == digits[0];
    assert s[0] == '-' <==> sign == "-";
    DigitRunPrefix(digits, rest);
    assert b < |s| ==> s[b] == rest[0];
    NumberLengthAt(s, a, b);
  }

  /** Where the integer part of a number ends when no fraction or exponent follows. */
  lemma NumberLengthAt(s: string, a: nat, b: nat)
    requires a == (if |s| > 0 && s[0] == '-' then 1 else 0)
    requires a < b <= |s| && IsDigit(s[a])
    requires if s[a] == '0' then b == a + 1 else DigitRun(s[a..]) == b - a
    requires b == |s| || !(s[b] == '.' || s[b] == 'e' || s[b] == 'E')
    ensures NumberLength(s) == Some(b)
  {
  }

  /** The digits that start `digits + rest` are those of `digits` when `rest` does not start with one. */
  lemma {:induction false} DigitRunPrefix(digits: string, rest: string)
    requires AllDigits(digits)
    requires rest == "" || !IsDigit(rest[0])
    ensures DigitRun(digits + rest) == |digits|
    decreases |digits|
  {
    if |digits| == 0 {
      assert digits + rest == rest;
    } else {
      assert (digits + rest)[1..] == digits[1..] + rest;
      DigitRunPrefix(digits[1..], rest);
    }
  }

  /** A non-empty object written without whitespace reads as an object. */
  lemma ObjectStarts(body: string)
    requires |body| > 0 && body[0] == '"'
    ensures ParseValue("{" + body) == ParseMembers(body, [])
  {
    var s := "{" + body;
    assert SkipWs(s) == s;
    assert s[1..] == body;
    assert SkipWs(body) == body;
    assert ParseObject(body) == ParseMembers(body, []);
  }

  /** A string put between quotes as it is, as a template literal does. */
  function Raw(x: string): string {
    "\"" + x + "\""
  }

  /** A member's text depends only on what follows its key. */
  lemma MemberTextSplit(key: string, v1: string, t1: string, v2: string, t2: string)
    requires v1 + t1 == v2 + t2
    ensures MemberText(key, v1, t1) == MemberText(key, v2, t2)
  {
    assert MemberText(key, v1, t1) == Quote(key) + (":" + (v1 + t1));
    assert MemberText(key, v2, t2) == Quote(key) + (":" + (v2 + t2));
  }

  /** The members of an object after its `{`, with the given keys and value texts, through the `}`. */
  function MembersText(keys: seq<string>, texts: seq<string>): string
    requires |keys| == |texts|
    decreases |keys|
  {
    if |keys| == 0 then "}"
    else MemberText(keys[0], texts[0], if |keys| == 1 then "}" else "," + MembersText(keys[1..], texts[1..]))
  }

  /** Members with equal texts stay equal behind one more member. */
  lemma MembersTextPrepend(key: string, text: string, k1: seq<string>, t1: seq<string>, k2: seq<string>, t2: seq<string>)
    requires |k1| == |t1| > 0 && |k2| == |t2| > 0
    requires MembersText(k1, t1) == MembersText(k2, t2)
    ensures MembersText([key] + k1, [text] + t1) == MembersText([key] + k2, [text] + t2)
  {
    assert ([key] + k1)[1..] == k1 && ([text] + t1)[1..] == t1;
    assert ([key] + k2)[1..] == k2 && ([text] + t2)[1..] == t2;
  }

  /** An object laid out as `JSON.stringify` lays it out: no whitespace, the keys escaped. */
  function ObjectText(keys: seq<string>, texts: seq<string>): string
    requires |keys| == |texts|
  {
    "{" + MembersText(keys, texts)
  }

  /** The members with the given keys and values, in order. */
  function Zip(keys: seq<string>, values: seq<Value>): seq<(string, Value)>
    requires |keys| == |values|
  {
    seq(|keys|, i requires 0 <= i < |keys| => (keys[i], values[i]))
  }

  lemma ZipCons(acc: seq<(string, Value)>, keys: seq<string>, values: seq<Value>)
    requires |keys| == |values| > 0
    ensures acc + [(keys[0], values[0])] + Zip(keys[1..], values[1..]) == acc + Zip(keys, values)
  {
    assert Zip(keys, values) == [(keys[0], values[0])] + Zip(keys[1..], values[1..]);
  }

  /** `text` reads as `v`, leaving any following text that starts with `,` or `}`. */
  ghost predicate ReadsAs(text: string, v: Value) {
    forall tail :: |tail| > 0 && (tail[0] == ',' || tail[0] == '}') ==> ParseValue(text + tail) == Some((v, tail))
  }

  lemma QuoteReadsAs(x: string)
    ensures ReadsAs(Quote(x), JString(x))
  {
    forall tail | |tail| > 0 && (tail[0] == ',' || tail[0] == '}')
      ensures ParseValue(Quote(x) + tail) == Some((JString(x), tail))
    {
      QuoteParses(x, tail);
    }
  }

  lemma IntReadsAs(n: int)
    ensures ReadsAs(IntToString(n), JNumber(IntToString(n)))
  {
    forall tail | |tail| > 0 && (tail[0] == ',' || tail[0] == '}')
      ensures ParseValue(IntToString(n) + tail) == Some((JNumber(IntToString(n)), tail))
    {
      IntParses(n, tail);
    }
  }

  /** The first of several members is read, and the reading goes on with the rest. */
  lemma MembersFirst(keys: seq<string>, texts: seq<string>, v: Value, acc: seq<(string, Value)>)
    requires |keys| == |texts| > 0
    requires ReadsAs(texts[0], v)
    ensures var tail := if |keys| == 1 then "}" else "," + MembersText(keys[1..], texts[1..]);
            && (|keys| == 1 ==> ParseMembers(MembersText(keys, texts), acc) == Some((JObject(acc + [(keys[0], v)]), "")))
            && (|keys| > 1 ==> ParseMembers(MembersText(keys, texts), acc) == ParseMembers(tail[1..], acc + [(keys[0], v)]))
  {
    var tail := if |keys| == 1 then "}" else "," + MembersText(keys[1..], texts[1..]);
    assert ParseValue(texts[0] + tail) == Some((v, tail));
    assert MembersText(keys, texts) == MemberText(keys[0], texts[0], tail);
    MemberParses(keys[0], texts[0], v, tail, acc);
  }

  /** Each text reads as the value at its position. */
  ghost predicate AllReadAs(texts: seq<string>, values: seq<Value>)
    requires |texts| == |values|
    decreases |texts|
  {
    |texts| == 0 || (ReadsAs(texts[0], values[0]) && AllReadAs(texts[1..], values[1..]))
  }

  lemma {:induction false} AllReadAsAt(texts: seq<string>, values: seq<Value>)
    requires |texts| == |values|
    requires forall i :: 0 <= i < |texts| ==> ReadsAs(texts[i], values[i])
    ensures AllReadAs(texts, values)
    decreases |texts|
  {
    if |texts| > 0 {
      assert forall i :: 0 <= i < |texts[1..]| ==> texts[1..][i] == texts[i + 1] && values[1..][i] == values[i + 1];
      AllReadAsAt(texts[1..], values[1..]);
    }
  }

  /** Members whose value texts read as `values` read as those members, after the members `acc`. */
  lemma {:induction false} MembersParse(keys: seq<string>, texts: seq<string>, values: seq<Value>, acc: seq<(string, Value)>)
    requires |keys| == |texts| == |values| > 0
    requires AllReadAs(texts, values)
    ensures ParseMembers(MembersText(keys, texts), acc) == Some((JObject(acc + Zip(keys, values)), ""))
    decreases |keys|
  {
    MembersFirst(keys, texts, values[0], acc);
    if |keys| == 1 {
      assert acc + [(keys[0], values[0])] == acc + Zip(keys, values);
    } else {
      MembersParse(keys[1..], texts[1..], values[1..], acc + [(keys[0], values[0])]);
      ZipCons(acc, keys, values);
    }
  }

  /** An object whose value texts read as `values` reads back as the object of those members. */
  lemma ObjectParses(keys: seq<string>, texts: seq<string>, values: seq<Value>)
    requires |keys| == |texts| == |values| > 0
    requires forall i :: 0 <= i < |texts| ==> ReadsAs(texts[i], values[i])
    ensures Parse(ObjectText(keys, texts)) == Some(JObject(Zip(keys, values)))
  {
    AllReadAsAt(texts, values);
    MembersParse(keys, texts, values, []);
    var body := MembersText(keys, texts);
    assert body[0] == '"';
    ObjectStarts(body);
    assert [] + Zip(keys, values) == Zip(keys, values);
    assert SkipWs("") == "";
  }

  /** A text whose first character cannot start a JSON value is not JSON. */
  lemma NotJson(s: string)
    requires |s| > 0 && !IsWs(s[0]) && s[0] !in "{[\"-tfn0123456789"
    ensures Parse(s) == None
  {
    assert SkipWs(s) == s;
    assert s[0] != '{' && s[0] != '[' && s[0] != '"' && s[0] != '-' && !IsDigit(s[0]);
    assert !StartsWith(s, "true") && !StartsWith(s, "false") && !StartsWith(s, "null") by {
      assert s[0] != 't' && s[0] != 'f' && s[0] != 'n';
    }
    assert NumberLength(s) == None;
  }
}
