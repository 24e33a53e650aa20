/**
 * JSON.stringify and JSON.parse on the modelled values: what AuthProvider.login
 * writes under "user" and what loginApi.getUser and the mount effect read back.
 */
module Json {
  import opened Wrappers
  import opened JsValues
  import Decimal

  // ---------------------------------------------------------------- stringify

  /** Values that JSON.stringify writes faithfully: no undefined, no NaN, one property per name. */
  predicate Serializable(v: JsValue) {
    match v
    case Undefined => false
    case NaN => false
    case Arr(items) => AllSerializable(items)
    case Obj(props) => DistinctKeys(props) && PropsSerializable(props)
    case _ => true
  }

  predicate AllSerializable(items: seq<JsValue>) {
    items == [] || (Serializable(items[0]) && AllSerializable(items[1..]))
  }

  predicate PropsSerializable(props: seq<Prop>) {
    props == [] || (Serializable(props[0].value) && PropsSerializable(props[1..]))
  }

  /** JSON.stringify(v): undefined at the top yields undefined (None). */
  function Stringify(v: JsValue): (r: Option<string>)
    ensures r.None? <==> v.Undefined?
    ensures r.Some? ==> r.value != ""
  {
    if v.Undefined? then None else Some(Text(v))
  }

  /** The text of a value inside JSON; undefined and NaN are written null, as in an array. */
  function Text(v: JsValue): (t: string)
    ensures t != [] && !IsWs(t[0]) && t[0] != ']' && t[0] != '}'
  {
    match v
    case Undefined => "null"
    case Null => "null"
    case NaN => "null"
    case Bool(b) => if b then "true" else "false"
    case Num(n) => Decimal.IntToString(n)
    case Str(s) => Quote(s)
    case Arr(items) => "[" + ItemsText(items) + "]"
    case Obj(props) => "{" + MembersText(props) + "}"
  }

  function ItemsText(items: seq<JsValue>): string {
    if items == [] then ""
    else if |items| == 1 then Text(items[0])
    else Text(items[0]) + "," + ItemsText(items[1..])
  }

  /** The members JSON.stringify writes: those whose value is not undefined, comma-separated. */
  function MembersText(props: seq<Prop>): string {
    if props == [] then ""
    else if props[0].value.Undefined? then MembersText(props[1..])
    else
      var more := MembersText(props[1..]);
      if more == "" then MemberText(props[0]) else MemberText(props[0]) + "," + more
  }

  function MemberText(p: Prop): string {
    Quote(p.key) + ":" + Text(p.value)
  }

  function Quote(s: string): string {
    "\"" + Escape(s) + "\""
  }

  function Escape(s: string): string {
    if s == [] then "" else EscapeChar(s[0]) + Escape(s[1..])
  }

  /** QuoteJSONString: the quote, the backslash and control characters are escaped. */
  function EscapeChar(c: char): string {
    if c == '"' then "\\\""
    else if c == '\\' then "\\\\"
    else if c as int == 8 then "\\b"
    else if c as int == 12 then "\\f"
    else if c == '\n' then "\\n"
    else if c == '\r' then "\\r"
    else if c == '\t' then "\\t"
    else if c as int < 0x20 then "\\u00" + [HexChar(c as int / 16), HexChar(c as int % 16)]
    else [c]
  }

  function HexChar(d: nat): char
    requires d < 16
  {
    if d < 10 then Decimal.DigitChar(d) else ('a' as int + d - 10) as char
  }

  // ---------------------------------------------------------------- parse

  predicate IsWs(c: char) {
    c == ' ' || c == '\t' || c == '\n' || c == '\r'
  }

  function SkipWs(s: string): (t: string)
    ensures |t| <= |s| && (t == [] || !IsWs(t[0]))
    ensures s != [] && !IsWs(s[0]) ==> t == s
  {
    if s != [] && IsWs(s[0]) then SkipWs(s[1..]) else s
  }

  datatype Parsed = Parsed(value: JsValue, rest: string)
  datatype ParsedText = ParsedText(text: string, rest: string)

  /** The length still to be read after a successful step; 0 after a failed one. */
  function Left(r: Option<Parsed>): nat {
    if r.Some? then |r.value.rest| else 0
  }

  function LeftText(r: Option<ParsedText>): nat {
    if r.Some? then |r.value.rest| else 0
  }

  /** JSON.parse(s): the value, or a SyntaxError. */
  function Parse(s: string): Result<JsValue, string> {
    match ParseValue(s)
    case None => Failure("SyntaxError")
    case Some(p) => if SkipWs(p.rest) == [] then Success(p.value) else Failure("SyntaxError")
  }

  /** One value after optional whitespace. */
  function ParseValue(s: string): (r: Option<Parsed>)
    ensures r.Some? ==> |r.value.rest| < |s|
    decreases |s|, 0
  {
    var t := SkipWs(s);
    if t == [] then None
    else if t[0] == '[' then ParseArray(t[1..])
    else if t[0] == '{' then ParseObject(t[1..])
    else ParseScalar(t)
  }

  /** A literal, a string or a number at the very start of t. */
  function ParseScalar(t: string): (r: Option<Parsed>)
    ensures r.Some? ==> |r.value.rest| < |t|
  {
    if t == [] then None
    else if t[0] == 'n' then Keyword(t, "null", Null)
    else if t[0] == 't' then Keyword(t, "true", Bool(true))
    else if t[0] == 'f' then Keyword(t, "false", Bool(false))
    else if t[0] == '"' then
      match ParseChars(t[1..])
      case None => None
      case Some(p) => Some(Parsed(Str(p.text), p.rest))
    else if t[0] == '-' || Decimal.IsDigit(t[0]) then ParseNumber(t)
    else None
  }

  function Keyword(t: string, word: string, v: JsValue): (r: Option<Parsed>)
    requires |word| > 0
    ensures r.Some? ==> |r.value.rest| < |t|
  {
    if |word| <= |t| && t[..|word|] == word then Some(Parsed(v, t[|word|..])) else None
  }

  /** A JSON number with an integral value: an optional minus and digits with no leading zero. */
  function ParseNumber(t: string): (r: Option<Parsed>)
    ensures r.Some? ==> |r.value.rest| < |t|
  {
    var neg := t != [] && t[0] == '-';
    var u := if neg then t[1..] else t;
    var k := Decimal.DigitRun(u);
    if k == 0 || (u[0] == '0' && k > 1) then None
    else
      var m := Decimal.DigitsValue(u[..k]) as int;
      Some(Parsed(Num(if neg then -m else m), u[k..]))
  }

  /** An array after its '['. */
  function ParseArray(s: string): (r: Option<Parsed>)
    ensures r.Some? ==> |r.value.rest| < |s|
    decreases |s|, 2
  {
    var t := SkipWs(s);
    if t != [] && t[0] == ']' then Some(Parsed(Arr([]), t[1..])) else ParseElements(s, [])
  }

  /** Elements onto acc, from one that must be there. */
  function ParseElements(s: string, acc: seq<JsValue>): (r: Option<Parsed>)
    ensures r.Some? ==> |r.value.rest| < |s|
    decreases |s|, 1
  {
    var e := ParseValue(s);
    if e.None? then None else AfterElement(e, acc)
  }

  /** What follows an element: ',' and more elements, or the closing ']'. */
  function AfterElement(e: Option<Parsed>, acc: seq<JsValue>): (r: Option<Parsed>)
    ensures r.Some? ==> e.Some? && |r.value.rest| < |e.value.rest|
    decreases Left(e), 3
  {
    match e
    case None => None
    case Some(p) =>
      var t := SkipWs(p.rest);
      if t == [] then None
      else if t[0] == ',' then ParseElements(t[1..], acc + [p.value])
      else if t[0] == ']' then Some(Parsed(Arr(acc + [p.value]), t[1..]))
      else None
  }

  /** An object after its '{'. */
  function ParseObject(s: string): (r: Option<Parsed>)
    ensures r.Some? ==> |r.value.rest| < |s|
    decreases |s|, 2
  {
    var t := SkipWs(s);
    if t != [] && t[0] == '}' then Some(Parsed(Obj([]), t[1..])) else ParseMembers(s, [])
  }

  /** Members onto acc, from one that must be there: first its quoted name. */
  function ParseMembers(s: string, acc: seq<Prop>): (r: Option<Parsed>)
    ensures r.Some? ==> |r.value.rest| < |s|
    decreases |s|, 1
  {
    var t := SkipWs(s);
    if t == [] || t[0] != '"' then None else AfterKey(ParseChars(t[1..]), acc)
  }

  /** After a member's name: ':' and its value. */
  function AfterKey(key: Option<ParsedText>, acc: seq<Prop>): (r: Option<Parsed>)
    ensures r.Some? ==> key.Some? && |r.value.rest| < |key.value.rest|
    decreases LeftText(key), 3
  {
    match key
    case None => None
    case Some(k) =>
      var t := SkipWs(k.rest);
      if t == [] || t[0] != ':' then None else AfterMember(k.text, ParseValue(t[1..]), acc)
  }

  /**
   * After a member's value: it is assigned onto acc, so a repeated name keeps its
   * first position and its last value; then ',' and more members, or the closing '}'.
   */
  function AfterMember(name: string, e: Option<Parsed>, acc: seq<Prop>): (r: Option<Parsed>)
    ensures r.Some? ==> e.Some? && |r.value.rest| < |e.value.rest|
    decreases Left(e), 2
  {
    match e
    case None => None
    case Some(p) =>
      var acc' := Put(acc, name, p.value);
      var t := SkipWs(p.rest);
      if t == [] then None
      else if t[0] == ',' then ParseMembers(t[1..], acc')
      else if t[0] == '}' then Some(Parsed(Obj(acc'), t[1..]))
      else None
  }

  /** The characters of a string literal after its opening quote, up to and past the closing one. */
  function ParseChars(s: string): (r: Option<ParsedText>)
    ensures r.Some? ==> |r.value.rest| < |s|
  {
    if s == [] then None
    else if s[0] == '"' then Some(ParsedText("", s[1..]))
    else if s[0] == '\\' then
      match Unescape(s[1..])
      case None => None
      case Some(e) => Prepend(e.0, ParseChars(s[1 + e.1..]))
    else if s[0] as int < 0x20 then None
    else Prepend(s[0], ParseChars(s[1..]))
  }

  function Prepend(c: char, r: Option<ParsedText>): (r': Option<ParsedText>)
    ensures r'.Some? ==> r.Some? && r'.value.rest == r.value.rest
  {
    match r
    case None => None
    case Some(p) => Some(ParsedText([c] + p.text, p.rest))
  }

  /** An escape after the backslash: the character it stands for and how many characters it used. */
  function Unescape(t: string): (r: Option<(char, nat)>)
    ensures r.Some? ==> 1 <= r.value.1 <= |t|
  {
    if t == [] then None
    else if t[0] == '"' then Some(('"', 1))
    else if t[0] == '\\' then Some(('\\', 1))
    else if t[0] == '/' then Some(('/', 1))
    else if t[0] == 'b' then Some((8 as char, 1))
    else if t[0] == 'f' then Some((12 as char, 1))
    else if t[0] == 'n' then Some(('\n', 1))
    else if t[0] == 'r' then Some(('\r', 1))
    else if t[0] == 't' then Some(('\t', 1))
    else if t[0] == 'u' && |t| >= 5 && IsHex(t[1]) && IsHex(t[2]) && IsHex(t[3]) && IsHex(t[4]) then
      var code := HexValue(t[1]) * 4096 + HexValue(t[2]) * 256 + HexValue(t[3]) * 16 + HexValue(t[4]);
      if 0xD800 <= code < 0xE000 then None else Some((code as char, 5))
    else None
  }

  predicate IsHex(c: char) {
    Decimal.IsDigit(c) || 'a' <= c <= 'f' || 'A' <= c <= 'F'
  }

  function HexValue(c: char): (d: nat)
    requires IsHex(c)
    ensures d < 16
  {
    if Decimal.IsDigit(c) then Decimal.DigitValue(c)
    else if 'a' <= c <= 'f' then c as int - 'a' as int + 10
    else c as int - 'A' as int + 10
  }

  // ---------------------------------------------------------------- round trip

  lemma HexRoundTrip(d: nat)
    requires d < 16
    ensures IsHex(HexChar(d)) && HexValue(HexChar(d)) == d
  {
  }

  /** A backslash followed by a recognised escape decodes to one character. */
  lemma EscapedStep(s: string, c: char, n: nat)
    requires s != [] && s[0] == '\\' && Unescape(s[1..]) == Some((c, n))
    ensures ParseChars(s) == Prepend(c, ParseChars(s[1 + n..]))
  {
  }

  lemma HexEscape(c: char, x: string)
    requires c as int < 0x20
    ensures Unescape("u00" + [HexChar(c as int / 16), HexChar(c as int % 16)] + x) == Some((c, 5))
  {
    var h1, h2 := c as int / 16, c as int % 16;
    HexRoundTrip(h1);
    HexRoundTrip(h2);
    var t := "u00" + [HexChar(h1), HexChar(h2)] + x;
    assert t[0] == 'u' && t[1] == '0' && t[2] == '0' && t[3] == HexChar(h1) && t[4] == HexChar(h2);
  }

  lemma EscapeCharRoundTrip(c: char, x: string)
    ensures ParseChars(EscapeChar(c) + x) == Prepend(c, ParseChars(x))
  {
    var e := EscapeChar(c);
    var s := e + x;
    if |e| == 1 {
      assert e == [c] && c != '"' && c != '\\' && c as int >= 0x20;
      assert s[0] == c && s[1..] == x;
    } else if |e| == 2 {
      assert s[1..] == [e[1]] + x;
      assert Unescape(s[1..]) == Some((c, 1));
      EscapedStep(s, c, 1);
      assert s[2..] == x;
    } else {
      var u := "u00" + [HexChar(c as int / 16), HexChar(c as int % 16)];
      assert e == "\\" + u && c as int < 0x20;
      assert s[1..] == u + x;
      HexEscape(c, x);
      EscapedStep(s, c, 5);
      assert s[6..] == x;
    }
  }

  lemma {:induction false} CharsRoundTrip(s: string, rest: string)
    ensures ParseChars(Escape(s) + "\"" + rest) == Some(ParsedText(s, rest))
  {
    if s == [] {
      assert Escape(s) + "\"" + rest == "\"" + rest;
    } else {
      assert Escape(s) + "\"" + rest == EscapeChar(s[0]) + (Escape(s[1..]) + "\"" + rest);
      EscapeCharRoundTrip(s[0], Escape(s[1..]) + "\"" + rest);
      CharsRoundTrip(s[1..], rest);
      assert [s[0]] + s[1..] == s;
    }
  }

  /** What may follow a value's text without changing how it parses. */
  predicate Delimits(rest: string) {
    rest == [] || rest[0] == ',' || rest[0] == ']' || rest[0] == '}'
  }

  /** A numeral followed by a delimiter: its digits are exactly the digit run. */
  lemma NumeralRun(d: string, rest: string)
    requires d != [] && Decimal.AllDigits(d) && Delimits(rest)
    ensures Decimal.DigitRun(d + rest) == |d|
    ensures (d + rest)[0] == d[0] && (d + rest)[..|d|] == d && (d + rest)[|d|..] == rest
  {
    assert rest == [] || !Decimal.IsDigit(rest[0]);
    Decimal.DigitRunOfDigits(d, rest);
  }

  lemma NumberRoundTrip(n: int, rest: string)
    requires Delimits(rest)
    ensures ParseNumber(Decimal.IntToString(n) + rest) == Some(Parsed(Num(n), rest))
  {
    var m: nat := if n < 0 then -n else n;
    var d := Decimal.NatToString(m);
    NumeralRun(d, rest);
    Decimal.NatToStringRoundTrip(m);
    assert Decimal.IsDigit(d[0]);
    if n < 0 {
      var t := "-" + d + rest;
      assert Decimal.IntToString(n) + rest == t && t[0] == '-' && t[1..] == d + rest;
    } else {
      assert Decimal.IntToString(n) == d;
    }
  }

  lemma KeywordRoundTrip(word: string, v: JsValue, rest: string)
    requires |word| > 0
    ensures Keyword(word + rest, word, v) == Some(Parsed(v, rest))
  {
    assert (word + rest)[..|word|] == word && (word + rest)[|word|..] == rest;
  }

  lemma KeywordScalar(v: JsValue, rest: string)
    requires v.Null? || v.Bool?
    ensures ParseScalar(Text(v) + rest) == Some(Parsed(v, rest))
  {
    var w := Text(v);
    assert w == if v.Null? then "null" else if v.b then "true" else "false";
    KeywordRoundTrip(w, v, rest);
  }

  lemma NumberScalar(n: int, rest: string)
    requires Delimits(rest)
    ensures ParseScalar(Text(Num(n)) + rest) == Some(Parsed(Num(n), rest))
  {
    var d := Decimal.IntToString(n);
    assert Text(Num(n)) == d;
    assert d[0] == '-' || Decimal.IsDigit(d[0]);
    NumberRoundTrip(n, rest);
  }

  lemma StringScalar(x: string, rest: string)
    ensures ParseScalar(Text(Str(x)) + rest) == Some(Parsed(Str(x), rest))
  {
    var t := Text(Str(x)) + rest;
    assert Text(Str(x)) == Quote(x);
    assert t[0] == '"' && t[1..] == Escape(x) + "\"" + rest;
    CharsRoundTrip(x, rest);
  }

  lemma ScalarRoundTrip(v: JsValue, rest: string)
    requires v.Null? || v.Bool? || v.Num? || v.Str?
    requires Delimits(rest)
    ensures ParseScalar(Text(v) + rest) == Some(Parsed(v, rest))
  {
    match v
    case Num(n) => NumberScalar(n, rest);
    case Str(x) => StringScalar(x, rest);
    case _ => KeywordScalar(v, rest);
  }

  /** ParseValue dispatches on the first character once no whitespace leads. */
  lemma ValueOpen(t: string)
    requires t != [] && !IsWs(t[0])
    ensures t[0] == '[' ==> ParseValue(t) == ParseArray(t[1..])
    ensures t[0] == '{' ==> ParseValue(t) == ParseObject(t[1..])
    ensures t[0] != '[' && t[0] != '{' ==> ParseValue(t) == ParseScalar(t)
  {
  }

  lemma ArrayOpen(s: string)
    requires s != [] && !IsWs(s[0]) && s[0] != ']'
    ensures ParseArray(s) == ParseElements(s, [])
  {
  }

  lemma ObjectOpen(s: string)
    requires s != [] && !IsWs(s[0]) && s[0] != '}'
    ensures ParseObject(s) == ParseMembers(s, [])
  {
  }

  /** After one element and a delimiter, ParseElements either closes the array or goes on. */
  lemma ElementsStep(u: string, x: JsValue, d: char, tail: string, acc: seq<JsValue>)
    requires d == ',' || d == ']'
    requires ParseValue(u) == Some(Parsed(x, [d] + tail))
    ensures d == ']' ==> ParseElements(u, acc) == Some(Parsed(Arr(acc + [x]), tail))
    ensures d == ',' ==> ParseElements(u, acc) == ParseElements(tail, acc + [x])
  {
    assert ParseElements(u, acc) == AfterElement(Some(Parsed(x, [d] + tail)), acc);
    assert ([d] + tail)[1..] == tail;
  }

  lemma KeyStep(u: string, acc: seq<Prop>)
    requires u != [] && u[0] == '"'
    ensures ParseMembers(u, acc) == AfterKey(ParseChars(u[1..]), acc)
  {
  }

  lemma ColonStep(k: string, after: string, acc: seq<Prop>)
    ensures AfterKey(Some(ParsedText(k, ":" + after)), acc) == AfterMember(k, ParseValue(after), acc)
  {
    assert (":" + after)[1..] == after;
  }

  lemma MemberEnd(k: string, v: JsValue, d: char, tail: string, acc: seq<Prop>)
    requires d == ',' || d == '}'
    ensures d == '}' ==> AfterMember(k, Some(Parsed(v, [d] + tail)), acc) == Some(Parsed(Obj(Put(acc, k, v)), tail))
    ensures d == ',' ==> AfterMember(k, Some(Parsed(v, [d] + tail)), acc) == ParseMembers(tail, Put(acc, k, v))
  {
    assert ([d] + tail)[1..] == tail;
  }

  lemma Assoc3(a: string, b: string, c: string)
    ensures a + b + c == a + (b + c)
    ensures |a| > 0 ==> (a + b + c)[0] == a[0]
  {
  }

  lemma Assoc5(a: string, b: string, c: string, d: string, e: string)
    ensures a + b + c + d + e == a + (b + (c + d + e))
    ensures |a| > 0 ==> (a + b + c)[0] == a[0]
  {
  }

  lemma QuoteShape(e: string, x: string, y: string)
    ensures "\"" + e + "\"" + ":" + x + y == "\"" + (e + "\"" + (":" + (x + y)))
  {
  }

  lemma ItemsSplit(items: seq<JsValue>, rest: string)
    requires items != []
    ensures |items| == 1 ==> ItemsText(items) + "]" + rest == Text(items[0]) + ("]" + rest)
    ensures |items| > 1 ==> ItemsText(items) + "]" + rest == Text(items[0]) + ("," + (ItemsText(items[1..]) + "]" + rest))
    ensures ItemsText(items) != [] && ItemsText(items)[0] == Text(items[0])[0]
  {
    var a := Text(items[0]);
    if |items| == 1 {
      assert ItemsText(items) == a;
      Assoc3(a, "]", rest);
    } else {
      var b := ItemsText(items[1..]);
      assert ItemsText(items) == a + "," + b;
      Assoc5(a, ",", b, "]", rest);
    }
  }

  lemma MembersStart(props: seq<Prop>)
    requires props != [] && PropsSerializable(props)
    ensures MembersText(props) != [] && MembersText(props)[0] == '"'
  {
    assert !props[0].value.Undefined?;
  }

  lemma MembersSplit(props: seq<Prop>, rest: string)
    requires props != [] && PropsSerializable(props)
    ensures |props| == 1 ==> MembersText(props) + "}" + rest == MemberText(props[0]) + ("}" + rest)
    ensures |props| > 1 ==> MembersText(props) + "}" + rest == MemberText(props[0]) + ("," + (MembersText(props[1..]) + "}" + rest))
  {
    var a := MemberText(props[0]);
    assert !props[0].value.Undefined?;
    if |props| == 1 {
      assert MembersText(props) == a;
      Assoc3(a, "}", rest);
    } else {
      MembersStart(props[1..]);
      var b := MembersText(props[1..]);
      assert MembersText(props) == a + "," + b;
      Assoc5(a, ",", b, "}", rest);
    }
  }

  /** A member's quoted name parses back, leaving the colon and what follows. */
  lemma KeyRoundTrip(u: string, k: string, after: string)
    requires u == "\"" + (Escape(k) + "\"" + (":" + after))
    ensures u != [] && u[0] == '"'
    ensures ParseChars(u[1..]) == Some(ParsedText(k, ":" + after))
  {
    assert u[1..] == Escape(k) + "\"" + (":" + after);
    CharsRoundTrip(k, ":" + after);
  }

  lemma Bracketed(o: char, body: string, c: char, rest: string)
    ensures ([o] + body + [c] + rest)[0] == o
    ensures ([o] + body + [c] + rest)[1..] == body + [c] + rest
  {
  }

  lemma {:induction false} ValueRoundTrip(v: JsValue, rest: string)
    requires Serializable(v) && Delimits(rest)
    ensures ParseValue(Text(v) + rest) == Some(Parsed(v, rest))
    decreases v, 2
  {
    match v
    case Arr(_) => ArrayRoundTrip(v, rest);
    case Obj(_) => ObjectRoundTrip(v, rest);
    case _ =>
      ValueOpen(Text(v) + rest);
      ScalarRoundTrip(v, rest);
  }

  lemma {:induction false} ArrayRoundTrip(v: JsValue, rest: string)
    requires v.Arr? && Serializable(v) && Delimits(rest)
    ensures ParseValue(Text(v) + rest) == Some(Parsed(v, rest))
    decreases v, 1
  {
    var items := v.items;
    var body := ItemsText(items);
    var t := Text(v) + rest;
    assert Text(v) == "[" + body + "]";
    Bracketed('[', body, ']', rest);
    ValueOpen(t);
    if items == [] {
      assert body == [];
    } else {
      ItemsSplit(items, rest);
      ItemsRoundTrip(items, [], rest);
      ArrayOpen(t[1..]);
      assert [] + items == items;
    }
  }

  lemma {:induction false} ObjectRoundTrip(v: JsValue, rest: string)
    requires v.Obj? && Serializable(v) && Delimits(rest)
    ensures ParseValue(Text(v) + rest) == Some(Parsed(v, rest))
    decreases v, 1
  {
    var props := v.props;
    var body := MembersText(props);
    var t := Text(v) + rest;
    assert Text(v) == "{" + body + "}";
    Bracketed('{', body, '}', rest);
    ValueOpen(t);
    if props == [] {
      assert body == [];
    } else {
      MembersStart(props);
      MembersRoundTrip(props, [], rest);
      ObjectOpen(t[1..]);
      assert [] + props == props;
    }
  }

  lemma ConsAppend<T>(acc: seq<T>, xs: seq<T>)
    requires xs != []
    ensures acc + [xs[0]] + xs[1..] == acc + xs
  {
    assert [xs[0]] + xs[1..] == xs;
  }

  lemma {:induction false} ItemsRoundTrip(items: seq<JsValue>, acc: seq<JsValue>, rest: string)
    requires items != [] && AllSerializable(items) && Delimits(rest)
    ensures ParseElements(ItemsText(items) + "]" + rest, acc) == Some(Parsed(Arr(acc + items), rest))
    decreases items
  {
    var x := items[0];
    var u := ItemsText(items) + "]" + rest;
    ItemsSplit(items, rest);
    var last := |items| == 1;
    var d := if last then ']' else ',';
    var tail := if last then rest else ItemsText(items[1..]) + "]" + rest;
    assert Text(x) + ([d] + tail) == u;
    assert Serializable(x);
    ValueRoundTrip(x, [d] + tail);
    ElementsStep(u, x, d, tail, acc);
    ConsAppend(acc, items);
    if last {
      assert items == [x];
    } else {
      ItemsRoundTrip(items[1..], acc + [x], rest);
    }
  }

  /** The first key of the unparsed members is new, and moving it onto the parsed ones keeps all keys distinct. */
  lemma DistinctHead(acc: seq<Prop>, props: seq<Prop>)
    requires props != [] && DistinctKeys(acc + props)
    ensures props[0].key !in Keys(acc)
    ensures acc + props == acc + [props[0]] + props[1..]
  {
    forall i | 0 <= i < |acc| ensures acc[i].key != props[0].key {
      assert (acc + props)[i] == acc[i] && (acc + props)[|acc|] == props[0];
    }
    assert acc + [props[0]] + props[1..] == acc + ([props[0]] + props[1..]);
  }

  /** One member's text, followed by a delimiter, parses into one more property. */
  lemma MemberChain(u: string, k: string, v: JsValue, d: char, tail: string, acc: seq<Prop>)
    requires d == ',' || d == '}'
    requires u == "\"" + (Escape(k) + "\"" + (":" + (Text(v) + ([d] + tail))))
    requires ParseValue(Text(v) + ([d] + tail)) == Some(Parsed(v, [d] + tail))
    ensures d == '}' ==> ParseMembers(u, acc) == Some(Parsed(Obj(Put(acc, k, v)), tail))
    ensures d == ',' ==> ParseMembers(u, acc) == ParseMembers(tail, Put(acc, k, v))
  {
    var after := Text(v) + ([d] + tail);
    KeyRoundTrip(u, k, after);
    KeyStep(u, acc);
    ColonStep(k, after, acc);
    MemberEnd(k, v, d, tail, acc);
  }

  lemma {:induction false} MembersRoundTrip(props: seq<Prop>, acc: seq<Prop>, rest: string)
    requires props != [] && PropsSerializable(props) && DistinctKeys(acc + props) && Delimits(rest)
    ensures ParseMembers(MembersText(props) + "}" + rest, acc) == Some(Parsed(Obj(acc + props), rest))
    decreases props
  {
    var k, v := props[0].key, props[0].value;
    var u := MembersText(props) + "}" + rest;
    DistinctHead(acc, props);
    PutAbsent(acc, k, v);
    MembersSplit(props, rest);
    assert !v.Undefined? && Serializable(v);
    var last := |props| == 1;
    var d := if last then '}' else ',';
    var tail := if last then rest else MembersText(props[1..]) + "}" + rest;
    assert MemberText(props[0]) + ([d] + tail) == u;
    QuoteShape(Escape(k), Text(v), [d] + tail);
    ValueRoundTrip(v, [d] + tail);
    MemberChain(u, k, v, d, tail, acc);
    assert props[0] == Prop(k, v);
    if last {
      assert props == [Prop(k, v)];
    } else {
      MembersRoundTrip(props[1..], acc + [Prop(k, v)], rest);
    }
  }

  /** JSON.parse(JSON.stringify(v)) gives v back for every serializable value. */
  lemma ParseStringify(v: JsValue)
    requires Serializable(v)
    ensures Stringify(v).Some? && Parse(Stringify(v).value) == Success(v)
  {
    ValueRoundTrip(v, "");
    assert Text(v) + "" == Text(v);
  }
}
