/** JSON values as the backend's Python code sees them (what `json.loads`
    returns and `json.dumps` accepts), the Python operations the plugins apply
    to them, and a serialiser/parser pair with its round trip. */
module Json {
  import opened Wrappers
  import opened Text
  import opened Dicts

  /** A JSON value. Objects keep their members in insertion order, as a
      Python dict does. Numbers are integers only. */
  datatype Json =
    | JNull
    | JBool(b: bool)
    | JInt(i: int)
    | JStr(s: string)
    | JArr(items: seq<Json>)
    | JObj(members: seq<(string, Json)>)

  type Members = seq<(string, Json)>

  /** Every object, at every depth, has unique keys. */
  predicate WellFormed(j: Json)
    decreases j
  {
    match j
    case JArr(items) => forall i :: 0 <= i < |items| ==> WellFormed(items[i])
    case JObj(ms) => UniqueKeys(ms) && forall i :: 0 <= i < |ms| ==> WellFormed(ms[i].1)
    case _ => true
  }

  // ---------------------------------------------------------------------
  // Python operations on JSON values

  /** The Python type name, as error messages print it. */
  function TypeName(j: Json): string {
    match j
    case JNull => "NoneType"
    case JBool(_) => "bool"
    case JInt(_) => "int"
    case JStr(_) => "str"
    case JArr(_) => "list"
    case JObj(_) => "dict"
  }

  /** Python truthiness. */
  predicate Truthy(j: Json) {
    match j
    case JNull => false
    case JBool(b) => b
    case JInt(i) => i != 0
    case JStr(s) => |s| > 0
    case JArr(items) => |items| > 0
    case JObj(ms) => |ms| > 0
  }

  /** `key in j`: key membership for a dict, element membership for a list,
      substring test for a str; a TypeError otherwise. */
  function In(key: string, j: Json): (r: Result<bool>)
    ensures j.JObj? ==> r == Ok(Lookup(j.members, key).Some?)
    ensures r.Raise? <==> !(j.JObj? || j.JArr? || j.JStr?)
  {
    match j
    case JObj(ms) => Ok(Lookup(ms, key).Some?)
    case JArr(items) => Ok(JStr(key) in items)
    case JStr(s) => Ok(Contains(s, key))
    case _ => Raise(Exc(TypeError, "argument of type '" + TypeName(j) + "' is not iterable"))
  }

  /** `j.get(key, default)`: only a dict has `get`. */
  function Get(j: Json, key: string, default: Json): (r: Result<Json>)
    ensures j.JObj? && Lookup(j.members, key).Some? ==> r == Ok(Lookup(j.members, key).value)
    ensures j.JObj? && Lookup(j.members, key).None? ==> r == Ok(default)
    ensures !j.JObj? ==> r.Raise? && r.exc.kind == AttributeError
  {
    match j
    case JObj(ms) => Ok(Lookup(ms, key).GetOr(default))
    case _ => Raise(Exc(AttributeError, "'" + TypeName(j) + "' object has no attribute 'get'"))
  }

  /** `len(j)`: lists, strings and dicts have a length; other values
      raise TypeError. */
  function PyLen(j: Json): (r: Result<int>)
    ensures j.JArr? ==> r == Ok(|j.items|)
    ensures r.Ok? <==> j.JArr? || j.JStr? || j.JObj?
  {
    match j
    case JArr(items) => Ok(|items|)
    case JStr(s) => Ok(|s|)
    case JObj(ms) => Ok(|ms|)
    case _ => Raise(Exc(TypeError, "object of type '" + TypeName(j) + "' has no len()"))
  }

  /** `for x in j`: a list yields its items, a string its characters, a
      dict its keys; other values are not iterable. */
  function Iterate(j: Json): (r: Result<seq<Json>>)
    ensures j.JArr? ==> r == Ok(j.items)
    ensures r.Raise? <==> !(j.JArr? || j.JStr? || j.JObj?)
  {
    match j
    case JArr(items) => Ok(items)
    case JStr(s) => Ok(seq(|s|, k requires 0 <= k < |s| => JStr([s[k]])))
    case JObj(ms) => Ok(seq(|ms|, k requires 0 <= k < |ms| => JStr(ms[k].0)))
    case _ => Raise(Exc(TypeError, "'" + TypeName(j) + "' object is not iterable"))
  }

  /** `str(j)`: a string as is, scalars as Python prints them; lists and
      dicts are rendered as their JSON text. */
  function Display(j: Json): string {
    match j
    case JStr(s) => s
    case JInt(i) => IntToString(i)
    case JBool(b) => if b then "True" else "False"
    case JNull => "None"
    case _ => Print(j)
  }

  // ---------------------------------------------------------------------
  // Serialisation: `json.dumps` with its defaults (", " and ": " separators,
  // every character outside printable ASCII escaped)

  function HexDigit(d: nat): char
    requires d < 16
  {
    if d < 10 then ('0' as int + d) as char else ('a' as int + d - 10) as char
  }

  function HexValue(c: char): Option<nat> {
    if '0' <= c <= '9' then Some(c as int - '0' as int)
    else if 'a' <= c <= 'f' then Some(c as int - 'a' as int + 10)
    else if 'A' <= c <= 'F' then Some(c as int - 'A' as int + 10)
    else None
  }

  /** Four lower-case hex digits. */
  function Hex4(n: nat): (r: string)
    requires n < 0x10000
    ensures |r| == 4
  {
    [HexDigit(n / 4096), HexDigit(n / 256 % 16), HexDigit(n / 16 % 16), HexDigit(n % 16)]
  }

  /** The value of the four hex digits `s` starts with. */
  function Hex4Value(s: string): (r: Option<nat>)
    requires |s| >= 4
    ensures r.Some? ==> r.value < 0x10000
  {
    match (HexValue(s[0]), HexValue(s[1]), HexValue(s[2]), HexValue(s[3]))
    case (Some(a), Some(b), Some(c), Some(d)) =>
      if a < 16 && b < 16 && c < 16 && d < 16 then Some(a * 4096 + b * 256 + c * 16 + d) else None
    case _ => None
  }

  /** The UTF-16 surrogate pair of a character outside the Basic
      Multilingual Plane. */
  function HighSurrogate(c: char): (r: nat)
    requires c as int >= 0x10000
    ensures 0xD800 <= r < 0xDC00
  {
    0xD800 + (c as int - 0x10000) / 1024
  }

  function LowSurrogate(c: char): (r: nat)
    requires c as int >= 0x10000
    ensures 0xDC00 <= r < 0xE000
  {
    0xDC00 + (c as int - 0x10000) % 1024
  }

  /** The escape `json.dumps` writes for one character. */
  function EscapeChar(c: char): (r: string)
    ensures |r| > 0 && r[0] != '"'
  {
    if c == '"' then "\\\""
    else if c == '\\' then "\\\\"
    else if c == '\n' then "\\n"
    else if c == '\r' then "\\r"
    else if c == '\t' then "\\t"
    else if c as int == 8 then "\\b"
    else if c as int == 12 then "\\f"
    else if ' ' <= c <= '~' then [c]
    else if c as int < 0x10000 then "\\u" + Hex4(c as int)
    else "\\u" + (Hex4(HighSurrogate(c)) + ("\\u" + Hex4(LowSurrogate(c))))
  }

  function Escape(s: string): string {
    if |s| == 0 then "" else EscapeChar(s[0]) + Escape(s[1..])
  }

  function Quote(s: string): (r: string)
    ensures |r| >= 2 && r[0] == '"'
  {
    "\"" + (Escape(s) + "\"")
  }

  /** `json.dumps(j)`. */
  function Print(j: Json): (r: string)
    ensures |r| > 0 && !IsJsonSpace(r[0]) && r[0] != ']' && r[0] != '}'
    decreases j, 1
  {
    match j
    case JNull => "null"
    case JBool(b) => if b then "true" else "false"
    case JInt(i) => IntToString(i)
    case JStr(s) => Quote(s)
    case JArr(items) => "[" + (PrintItems(items) + "]")
    case JObj(ms) => "{" + (PrintMembers(ms, 0) + "}")
  }

  function PrintItems(items: seq<Json>): string
    decreases items, 0
  {
    if |items| == 0 then ""
    else if |items| == 1 then Print(items[0])
    else Print(items[0]) + (", " + PrintItems(items[1..]))
  }

  /** The members of `ms` from index `i` on. */
  function PrintMembers(ms: Members, i: nat): string
    requires i <= |ms|
    decreases JObj(ms), 0, |ms| - i
  {
    if i == |ms| then ""
    else
      var member := Quote(ms[i].0) + (": " + Print(ms[i].1));
      if i == |ms| - 1 then member else member + (", " + PrintMembers(ms, i + 1))
  }

  // ---------------------------------------------------------------------
  // Parsing: `json.loads`, for the grammar above plus whitespace

  predicate IsJsonSpace(c: char) { c == ' ' || c == '\t' || c == '\n' || c == '\r' }

  function SkipSpace(s: string): (r: string)
    ensures |r| <= |s| && r == s[|s| - |r|..]
    ensures |r| > 0 ==> !IsJsonSpace(r[0])
  {
    if |s| > 0 && IsJsonSpace(s[0]) then SkipSpace(s[1..]) else s
  }

  function DigitRun(s: string): (n: nat)
    ensures n <= |s|
    ensures forall i :: 0 <= i < n ==> IsAsciiDigit(s[i])
    ensures n < |s| ==> !IsAsciiDigit(s[n])
  {
    if |s| > 0 && IsAsciiDigit(s[0]) then 1 + DigitRun(s[1..]) else 0
  }

  /** Digits of a non-negative integer: `0`, or digits without a leading
      zero. A fraction or exponent part after them is refused. */
  function ParseUnsigned(u: string): (r: Option<(nat, string)>)
    ensures r.Some? ==> |r.value.1| < |u|
  {
    if |u| == 0 || !IsAsciiDigit(u[0]) then None
    else
      var n := if u[0] == '0' then 1 else DigitRun(u);
      var rest := u[n..];
      if |rest| > 0 && (rest[0] == '.' || rest[0] == 'e' || rest[0] == 'E') then None
      else Some((DigitsValue(u[..n]), rest))
  }

  function ParseNumber(t: string): (r: Option<(Json, string)>)
    ensures r.Some? ==> |r.value.1| < |t|
  {
    if |t| > 0 && t[0] == '-' then
      match ParseUnsigned(t[1..])
      case None => None
      case Some((v, rest)) => Some((JInt(0 - v), rest))
    else
      match ParseUnsigned(t)
      case None => None
      case Some((v, rest)) => Some((JInt(v), rest))
  }

  /** The character a `\uXXXX` escape (or a surrogate pair of them) stands
      for; `s` starts after the `\u`. */
  function ParseUnicodeEscape(s: string): (r: Option<(char, string)>)
    ensures r.Some? ==> |r.value.1| <= |s| - 4
  {
    if |s| < 4 then None
    else
      match Hex4Value(s)
      case None => None
      case Some(h) =>
        var rest := s[4..];
        if 0xD800 <= h < 0xDC00 then
          if |rest| < 6 || rest[0] != '\\' || rest[1] != 'u' then None
          else
            var low := rest[2..];
            match Hex4Value(low)
            case None => None
            case Some(l) =>
              if 0xDC00 <= l < 0xE000 then
                Some(((0x10000 + (h - 0xD800) * 1024 + (l - 0xDC00)) as char, low[4..]))
              else None
        else if 0xDC00 <= h < 0xE000 then None
        else Some((h as char, rest))
  }

  /** The character an escape stands for; `s` starts after the backslash. */
  function ParseEscape(s: string): (r: Option<(char, string)>)
    ensures r.Some? ==> |r.value.1| < |s|
  {
    if |s| == 0 then None
    else if s[0] == 'u' then ParseUnicodeEscape(s[1..])
    else
      var c := s[0];
      var decoded :=
        if c == '"' || c == '\\' || c == '/' then Some(c)
        else if c == 'b' then Some(8 as char)
        else if c == 'f' then Some(12 as char)
        else if c == 'n' then Some('\n')
        else if c == 'r' then Some('\r')
        else if c == 't' then Some('\t')
        else None;
      if decoded.None? then None else Some((decoded.value, s[1..]))
  }

  /** One character of a string literal other than its closing quote. */
  function ParseStringChar(s: string): (r: Option<(char, string)>)
    requires |s| > 0
    ensures r.Some? ==> |r.value.1| < |s|
  {
    if s[0] == '\\' then ParseEscape(s[1..])
    else if (s[0] as int) < 0x20 then None
    else Some((s[0], s[1..]))
  }

  /** The body of a string literal up to its closing quote. */
  function ParseStringBody(s: string, acc: string): (r: Option<(string, string)>)
    ensures r.Some? ==> |r.value.1| < |s|
    decreases |s|
  {
    if |s| == 0 then None
    else if s[0] == '"' then Some((acc, s[1..]))
    else
      match ParseStringChar(s)
      case None => None
      case Some((c, rest)) => ParseStringBody(rest, acc + [c])
  }

  /** `null`, `true`, `false`, a string or a number. */
  function ParseScalar(t: string): (r: Option<(Json, string)>)
    requires |t| > 0
    ensures r.Some? ==> |r.value.1| < |t|
  {
    if StartsWith(t, "null") then Some((JNull, t[4..]))
    else if StartsWith(t, "true") then Some((JBool(true), t[4..]))
    else if StartsWith(t, "false") then Some((JBool(false), t[5..]))
    else if t[0] == '"' then
      match ParseStringBody(t[1..], "")
      case None => None
      case Some((str, rest)) => Some((JStr(str), rest))
    else ParseNumber(t)
  }

  function ParseValue(s: string): (r: Option<(Json, string)>)
    ensures r.Some? ==> |r.value.1| < |s|
    decreases |s|, 0
  {
    var t := SkipSpace(s);
    if |t| == 0 then None
    else if t[0] == '[' then ParseArray(t[1..])
    else if t[0] == '{' then ParseObject(t[1..])
    else ParseScalar(t)
  }

  /** An array after its `[`. */
  function ParseArray(s: string): (r: Option<(Json, string)>)
    ensures r.Some? ==> |r.value.1| < |s|
    decreases |s|, 3
  {
    var u := SkipSpace(s);
    if |u| > 0 && u[0] == ']' then Some((JArr([]), u[1..])) else ParseElements(u, [])
  }

  /** Array elements, the ones read so far in `acc`. */
  function ParseElements(s: string, acc: seq<Json>): (r: Option<(Json, string)>)
    ensures r.Some? ==> |r.value.1| < |s|
    decreases |s|, 1
  {
    match ParseValue(s)
    case None => None
    case Some((v, rest)) => ElementsTail(rest, acc + [v])
  }

  /** What may follow an array element: `,` and more elements, or `]`. */
  function ElementsTail(s: string, acc: seq<Json>): (r: Option<(Json, string)>)
    ensures r.Some? ==> |r.value.1| < |s|
    decreases |s|, 2
  {
    var w := SkipSpace(s);
    if |w| == 0 then None
    else if w[0] == ',' then ParseElements(w[1..], acc)
    else if w[0] == ']' then Some((JArr(acc), w[1..]))
    else None
  }

  /** An object after its `{`. */
  function ParseObject(s: string): (r: Option<(Json, string)>)
    ensures r.Some? ==> |r.value.1| < |s|
    decreases |s|, 4
  {
    var u := SkipSpace(s);
    if |u| > 0 && u[0] == '}' then Some((JObj([]), u[1..])) else ParseMembers(u, [])
  }

  /** One `"key": value` member. */
  function ParseMember(s: string): (r: Option<((string, Json), string)>)
    ensures r.Some? ==> |r.value.1| < |s|
    decreases |s|, 1
  {
    var t := SkipSpace(s);
    if |t| == 0 || t[0] != '"' then None
    else
      match ParseStringBody(t[1..], "")
      case None => None
      case Some((key, r1)) =>
        var u := SkipSpace(r1);
        if |u| == 0 || u[0] != ':' then None
        else
          match ParseValue(u[1..])
          case None => None
          case Some((v, r2)) => Some(((key, v), r2))
  }

  /** Object members, the ones read so far in `acc`; a repeated key keeps
      its first position and takes the last value, as `json.loads` fills a
      dict. */
  function ParseMembers(s: string, acc: Members): (r: Option<(Json, string)>)
    ensures r.Some? ==> |r.value.1| < |s|
    decreases |s|, 2
  {
    match ParseMember(s)
    case None => None
    case Some((m, rest)) => MembersTail(rest, Put(acc, m.0, m.1))
  }

  /** What may follow an object member: `,` and more members, or `}`. */
  function MembersTail(s: string, acc: Members): (r: Option<(Json, string)>)
    ensures r.Some? ==> |r.value.1| < |s|
    decreases |s|, 3
  {
    var w := SkipSpace(s);
    if |w| == 0 then None
    else if w[0] == ',' then ParseMembers(w[1..], acc)
    else if w[0] == '}' then Some((JObj(acc), w[1..]))
    else None
  }

  /** `json.loads(s)`; None where Python raises JSONDecodeError. */
  function Decode(s: string): Option<Json> {
    match ParseValue(s)
    case None => None
    case Some((v, rest)) => if SkipSpace(rest) == [] then Some(v) else None
  }

  // ---------------------------------------------------------------------
  // Round trip

  lemma HexDigitValue(x: nat)
    requires x < 16
    ensures HexValue(HexDigit(x)) == Some(x)
  {
  }

  lemma Hex4RoundTrip(n: nat, x: string)
    requires n < 0x10000
    ensures Hex4Value(Hex4(n) + x) == Some(n)
  {
    var a, b, c, d := n / 4096, n / 256 % 16, n / 16 % 16, n % 16;
    HexDigitValue(a);
    HexDigitValue(b);
    HexDigitValue(c);
    HexDigitValue(d);
    assert n / 256 == a * 16 + b;
    assert n / 16 == (n / 256) * 16 + c;
    assert n == (n / 16) * 16 + d;
  }

  /** Whatever follows a printed value inside a printed document. */
  predicate Follows(rest: string) {
    |rest| == 0 || rest[0] == ',' || rest[0] == ']' || rest[0] == '}'
  }

  lemma ShortEscapeParses(c: char, tail: string)
    requires c == '"' || c == '\\' || c == '\n' || c == '\r' || c == '\t' || c as int == 8 || c as int == 12
    ensures ParseStringChar(EscapeChar(c) + tail) == Some((c, tail))
  {
    var e := EscapeChar(c);
    SplitSeparator('\\', e[1], tail);
    assert e == ['\\', e[1]];
    DropFirst('\\', [e[1]] + tail);
    DropFirst(e[1], tail);
  }

  /** A `\u` escape, seen from the start of the string body. */
  lemma UnicodeEscape(x: string)
    ensures ParseStringChar("\\u" + x) == ParseUnicodeEscape(x)
  {
    SplitSeparator('\\', 'u', x);
    DropFirst('\\', "u" + x);
    DropFirst('u', x);
  }

  lemma BmpEscapeParses(c: char, tail: string)
    requires !(c == '"' || c == '\\' || c == '\n' || c == '\r' || c == '\t' || c as int == 8 || c as int == 12)
    requires !(' ' <= c <= '~') && c as int < 0x10000
    ensures ParseStringChar(EscapeChar(c) + tail) == Some((c, tail))
  {
    var h := Hex4(c as int);
    Hex4RoundTrip(c as int, tail);
    Assoc("\\u", h, tail);
    UnicodeEscape(h + tail);
    PrefixOf(h, tail);
  }

  /** A surrogate pair decodes to the character it encodes; the text starts
      after the first `\u`. */
  lemma SurrogatesParse(hi: nat, lo: nat, tail: string)
    requires 0xD800 <= hi < 0xDC00 && 0xDC00 <= lo < 0xE000
    ensures ParseUnicodeEscape(Hex4(hi) + ("\\u" + (Hex4(lo) + tail)))
      == Some(((0x10000 + (hi - 0xD800) * 1024 + (lo - 0xDC00)) as char, tail))
  {
    var low := Hex4(lo) + tail;
    Hex4RoundTrip(hi, "\\u" + low);
    Hex4RoundTrip(lo, tail);
    PrefixOf(Hex4(hi), "\\u" + low);
    DropTwo('\\', 'u', low);
    PrefixOf(Hex4(lo), tail);
  }

  /** Decoding a surrogate pair gives back the character it came from. */
  lemma SurrogateArithmetic(c: char)
    requires c as int >= 0x10000
    ensures (0x10000 + (HighSurrogate(c) - 0xD800) * 1024 + (LowSurrogate(c) - 0xDC00)) as char == c
  {
  }

  lemma AstralText(c: char, tail: string)
    requires c as int >= 0x10000
    ensures EscapeChar(c) + tail == "\\u" + (Hex4(HighSurrogate(c)) + ("\\u" + (Hex4(LowSurrogate(c)) + tail)))
  {
    var h, l := Hex4(HighSurrogate(c)), Hex4(LowSurrogate(c));
    Assoc("\\u", h + ("\\u" + l), tail);
    Assoc(h, "\\u" + l, tail);
    Assoc("\\u", l, tail);
  }

  lemma AstralEscapeParses(c: char, tail: string)
    requires c as int >= 0x10000
    ensures ParseStringChar(EscapeChar(c) + tail) == Some((c, tail))
  {
    var hi, lo := HighSurrogate(c), LowSurrogate(c);
    SurrogateArithmetic(c);
    SurrogatesParse(hi, lo, tail);
    AstralText(c, tail);
    UnicodeEscape(Hex4(hi) + ("\\u" + (Hex4(lo) + tail)));
  }

  lemma EscapeCharParses(c: char, tail: string)
    ensures ParseStringChar(EscapeChar(c) + tail) == Some((c, tail))
  {
    if c == '"' || c == '\\' || c == '\n' || c == '\r' || c == '\t' || c as int == 8 || c as int == 12 {
      ShortEscapeParses(c, tail);
    } else if ' ' <= c <= '~' {
      assert (EscapeChar(c) + tail)[1..] == tail;
    } else if c as int < 0x10000 {
      BmpEscapeParses(c, tail);
    } else {
      AstralEscapeParses(c, tail);
    }
  }

  /** One character of a string body other than the closing quote. */
  lemma BodyStep(e: string, acc: string, c: char, tail: string)
    requires |e| > 0 && e[0] != '"' && ParseStringChar(e) == Some((c, tail))
    ensures ParseStringBody(e, acc) == ParseStringBody(tail, acc + [c])
  {
  }

  /** The closing quote of a string body. */
  lemma BodyEnd(rest: string, acc: string)
    ensures ParseStringBody("\"" + rest, acc) == Some((acc, rest))
  {
    DropFirst('"', rest);
  }

  lemma {:induction false} EscapeParses(s: string, rest: string, acc: string)
    ensures ParseStringBody(Escape(s) + ("\"" + rest), acc) == Some((acc + s, rest))
    decreases |s|
  {
    if |s| == 0 {
      EmptyLeft("\"" + rest);
      BodyEnd(rest, acc);
      EmptyRight(acc);
    } else {
      var a := EscapeChar(s[0]);
      var tail := Escape(s[1..]) + ("\"" + rest);
      Assoc(a, Escape(s[1..]), "\"" + rest);
      EscapeCharParses(s[0], tail);
      BodyStep(a + tail, acc, s[0], tail);
      EscapeParses(s[1..], rest, acc + [s[0]]);
      AppendFirst(acc, s);
    }
  }

  lemma QuoteParses(s: string, rest: string)
    ensures ParseScalar(Quote(s) + rest) == Some((JStr(s), rest))
  {
    var t := Quote(s) + rest;
    QuoteSplit(s, rest);
    DropFirst('"', Escape(s) + ("\"" + rest));
    NoLiteral(t);
    EscapeParses(s, rest, "");
    EmptyLeft(s);
  }

  lemma {:induction false} DigitRunOfPrefix(u: string, n: nat)
    requires n <= |u|
    requires forall k :: 0 <= k < n ==> IsAsciiDigit(u[k])
    requires n == |u| || !IsAsciiDigit(u[n])
    ensures DigitRun(u) == n
    decreases n
  {
    if n > 0 {
      DigitRunOfPrefix(u[1..], n - 1);
    }
  }

  lemma NatParses(n: nat, rest: string)
    requires Follows(rest)
    ensures ParseUnsigned(NatToString(n) + rest) == Some((n, rest))
  {
    var digits := NatToString(n);
    var u := digits + rest;
    DigitsValueOfNatToString(n);
    if digits[0] != '0' {
      DigitRunOfPrefix(u, |digits|);
    }
    assert u[..|digits|] == digits;
    assert u[|digits|..] == rest;
  }

  lemma NoLiteral(t: string)
    requires |t| > 0 && t[0] != 'n' && t[0] != 't' && t[0] != 'f'
    ensures !StartsWith(t, "null") && !StartsWith(t, "true") && !StartsWith(t, "false")
  {
  }

  lemma NegativeParses(n: nat, rest: string)
    requires Follows(rest)
    ensures ParseNumber("-" + (NatToString(n) + rest)) == Some((JInt(-(n as int)), rest))
  {
    DropFirst('-', NatToString(n) + rest);
    NatParses(n, rest);
  }

  lemma NonNegativeParses(n: nat, rest: string)
    requires Follows(rest)
    ensures ParseNumber(NatToString(n) + rest) == Some((JInt(n), rest))
  {
    var d := NatToString(n);
    assert (d + rest)[0] == d[0];
    NatParses(n, rest);
  }

  lemma NumberParses(i: int, rest: string)
    requires Follows(rest)
    ensures ParseNumber(IntToString(i) + rest) == Some((JInt(i), rest))
  {
    if i < 0 {
      Assoc("-", NatToString(-i), rest);
      NegativeParses(-i, rest);
    } else {
      NonNegativeParses(i, rest);
    }
  }

  lemma IntParses(i: int, rest: string)
    requires Follows(rest)
    ensures ParseScalar(IntToString(i) + rest) == Some((JInt(i), rest))
  {
    var t := IntToString(i) + rest;
    assert t[0] == '-' || IsAsciiDigit(t[0]);
    NoLiteral(t);
    NumberParses(i, rest);
  }

  lemma SkipSpaceOfSpaces(pad: string, s: string)
    requires forall k :: 0 <= k < |pad| ==> IsJsonSpace(pad[k])
    requires |s| == 0 || !IsJsonSpace(s[0])
    ensures SkipSpace(pad + s) == s
    decreases |pad|
  {
    if |pad| > 0 {
      assert (pad + s)[1..] == pad[1..] + s;
      SkipSpaceOfSpaces(pad[1..], s);
    }
  }

  lemma LiteralParses(j: Json, rest: string)
    requires j.JNull? || j.JBool?
    ensures ParseScalar(Print(j) + rest) == Some((j, rest))
  {
    var t := Print(j) + rest;
    if j.JNull? {
      assert t[..4] == "null" && t[4..] == rest;
    } else if j.b {
      assert t[0] == 't';
      assert t[..4] == "true" && t[4..] == rest;
    } else {
      assert t[0] == 'f';
      assert t[..5] == "false" && t[5..] == rest;
    }
  }

  // Small facts about concatenation, kept out of the larger proofs below

  lemma Assoc(a: string, b: string, c: string)
    ensures a + b + c == a + (b + c)
  {
  }

  lemma EmptyLeft<T>(x: seq<T>)
    ensures [] + x == x
  {
  }

  lemma EmptyBoth(x: string)
    ensures "" + (x + "") == x
  {
  }

  lemma SplitSeparator(c: char, d: char, x: string)
    ensures [c, d] + x == [c] + ([d] + x)
  {
  }

  lemma DropFirst(c: char, x: string)
    ensures ([c] + x)[0] == c && ([c] + x)[1..] == x
  {
  }

  lemma NoSpace(c: char, x: string)
    requires !IsJsonSpace(c)
    ensures SkipSpace([c] + x) == [c] + x
    ensures ([c] + x)[0] == c && ([c] + x)[1..] == x
  {
  }

  lemma DropTwo(c: char, d: char, x: string)
    ensures |[c, d] + x| >= 2 && ([c, d] + x)[0] == c && ([c, d] + x)[1] == d && ([c, d] + x)[2..] == x
  {
  }

  lemma PrefixOf(a: string, b: string)
    ensures (a + b)[|a|..] == b
  {
  }

  lemma EmptyRight<T>(x: seq<T>)
    ensures x + [] == x
  {
  }

  lemma AppendFirst<T>(acc: seq<T>, items: seq<T>)
    requires |items| > 0
    ensures acc + [items[0]] + items[1..] == acc + items
  {
    assert [items[0]] + items[1..] == items;
  }

  lemma QuoteSplit(k: string, r: string)
    ensures Quote(k) + r == "\"" + (Escape(k) + ("\"" + r))
  {
    Assoc("\"", Escape(k) + "\"", r);
    Assoc(Escape(k), "\"", r);
  }

  lemma ScalarPrintParses(pad: string, j: Json, rest: string)
    requires forall k :: 0 <= k < |pad| ==> IsJsonSpace(pad[k])
    requires !j.JArr? && !j.JObj? && Follows(rest)
    ensures ParseValue(pad + (Print(j) + rest)) == Some((j, rest))
  {
    var t := Print(j) + rest;
    SkipSpaceOfSpaces(pad, t);
    assert t[0] != '[' && t[0] != '{';
    if j.JNull? || j.JBool? {
      LiteralParses(j, rest);
    } else if j.JInt? {
      IntParses(j.i, rest);
    } else {
      QuoteParses(j.s, rest);
    }
  }

  lemma {:induction false} ArrPrintParses(pad: string, items: seq<Json>, rest: string)
    requires forall k :: 0 <= k < |pad| ==> IsJsonSpace(pad[k])
    requires WellFormed(JArr(items)) && Follows(rest)
    ensures ParseValue(pad + (Print(JArr(items)) + rest)) == Some((JArr(items), rest))
    decreases JArr(items), 2
  {
    var body := PrintItems(items) + ("]" + rest);
    Assoc(PrintItems(items), "]", rest);
    Assoc("[", PrintItems(items) + "]", rest);
    SkipSpaceOfSpaces(pad, "[" + body);
    DropFirst('[', body);
    ArrayParses(items, rest);
  }

  lemma {:induction false} ObjPrintParses(pad: string, ms: Members, rest: string)
    requires forall k :: 0 <= k < |pad| ==> IsJsonSpace(pad[k])
    requires WellFormed(JObj(ms)) && Follows(rest)
    ensures ParseValue(pad + (Print(JObj(ms)) + rest)) == Some((JObj(ms), rest))
    decreases JObj(ms), 2
  {
    var body := PrintMembers(ms, 0) + ("}" + rest);
    Assoc(PrintMembers(ms, 0), "}", rest);
    Assoc("{", PrintMembers(ms, 0) + "}", rest);
    var t := "{" + body;
    SkipSpaceOfSpaces(pad, t);
    DropFirst('{', body);
    assert t[0] == '{';
    ObjectParses(ms, rest);
  }

  /** Parsing the text `json.dumps` writes for `j`, behind any amount of
      whitespace, gives back `j` and leaves the text after it. */
  lemma {:induction false} PrintParses(pad: string, j: Json, rest: string)
    requires forall k :: 0 <= k < |pad| ==> IsJsonSpace(pad[k])
    requires WellFormed(j) && Follows(rest)
    ensures ParseValue(pad + (Print(j) + rest)) == Some((j, rest))
    decreases j, 3
  {
    match j
    case JArr(items) => ArrPrintParses(pad, items, rest);
    case JObj(ms) => ObjPrintParses(pad, ms, rest);
    case _ => ScalarPrintParses(pad, j, rest);
  }

  lemma WellFormedTail(items: seq<Json>)
    requires |items| > 0 && WellFormed(JArr(items))
    ensures WellFormed(items[0]) && WellFormed(JArr(items[1..]))
  {
  }

  /** `,` after an element: the next element follows. */
  lemma ElementsNext(more: string, acc: seq<Json>)
    ensures ElementsTail("," + more, acc) == ParseElements(more, acc)
  {
    NoSpace(',', more);
  }

  /** `]` after an element: the array ends. */
  lemma ElementsLast(rest: string, acc: seq<Json>)
    ensures ElementsTail("]" + rest, acc) == Some((JArr(acc), rest))
  {
    NoSpace(']', rest);
  }

  lemma {:induction false} ArrayParses(items: seq<Json>, rest: string)
    requires WellFormed(JArr(items)) && Follows(rest)
    ensures ParseArray(PrintItems(items) + ("]" + rest)) == Some((JArr(items), rest))
    decreases items, 1
  {
    var s := PrintItems(items) + ("]" + rest);
    if |items| == 0 {
      EmptyLeft("]" + rest);
      DropFirst(']', rest);
    } else {
      var first := Print(items[0]);
      assert s[0] == first[0];
      assert SkipSpace(s) == s;
      ItemsParse("", items, [], rest);
      EmptyLeft(s);
      EmptyLeft(items);
    }
  }

  lemma {:induction false} ItemsParse(pad: string, items: seq<Json>, acc: seq<Json>, tail: string)
    requires pad == "" || pad == " "
    requires |items| > 0 && WellFormed(JArr(items)) && Follows(tail)
    ensures ParseElements(pad + (PrintItems(items) + ("]" + tail)), acc) == Some((JArr(acc + items), tail))
    decreases items, 0
  {
    WellFormedTail(items);
    var first := Print(items[0]);
    var rest := "]" + tail;
    if |items| == 1 {
      PrintParses(pad, items[0], rest);
      ElementsLast(tail, acc + [items[0]]);
      assert acc + [items[0]] == acc + items;
    } else {
      var others := PrintItems(items[1..]);
      var more := " " + (others + rest);
      SplitSeparator(',', ' ', others);
      Assoc(first, ", " + others, rest);
      Assoc(",", " " + others, rest);
      Assoc(" ", others, rest);
      PrintParses(pad, items[0], "," + more);
      ElementsNext(more, acc + [items[0]]);
      ItemsParse(" ", items[1..], acc + [items[0]], tail);
      AppendFirst(acc, items);
    }
  }

  lemma {:induction false} ObjectParses(ms: Members, rest: string)
    requires WellFormed(JObj(ms)) && Follows(rest)
    ensures ParseObject(PrintMembers(ms, 0) + ("}" + rest)) == Some((JObj(ms), rest))
    decreases JObj(ms), 1
  {
    var s := PrintMembers(ms, 0) + ("}" + rest);
    if |ms| == 0 {
      EmptyLeft("}" + rest);
      DropFirst('}', rest);
    } else {
      assert s[0] == '"';
      assert SkipSpace(s) == s;
      MembersParse("", ms, 0, [], rest);
      EmptyLeft(s);
    }
  }

  /** The quoted key of a member, behind its padding. */
  lemma KeyParses(pad: string, k: string, r1: string)
    requires pad == "" || pad == " "
    ensures var q := Quote(k) + r1;
      SkipSpace(pad + q) == q && |q| > 0 && q[0] == '"' && ParseStringBody(q[1..], "") == Some((k, r1))
  {
    var q := Quote(k) + r1;
    QuoteSplit(k, r1);
    DropFirst('"', Escape(k) + ("\"" + r1));
    SkipSpaceOfSpaces(pad, q);
    EscapeParses(k, r1, "");
    EmptyLeft(k);
  }

  /** One member of an object: key, colon and value. */
  lemma MemberParses(pad: string, k: string, val: string, v: Json, after: string)
    requires pad == "" || pad == " "
    requires ParseValue(val) == Some((v, after))
    ensures ParseMember(pad + (Quote(k) + (":" + val))) == Some(((k, v), after))
  {
    var r1 := ":" + val;
    KeyParses(pad, k, r1);
    NoSpace(':', val);
  }

  /** `,` after a member: the next member follows. */
  lemma MembersNext(more: string, acc: Members)
    ensures MembersTail("," + more, acc) == ParseMembers(more, acc)
  {
    NoSpace(',', more);
  }

  /** `}` after a member: the object ends. */
  lemma MembersLast(rest: string, acc: Members)
    ensures MembersTail("}" + rest, acc) == Some((JObj(acc), rest))
  {
    NoSpace('}', rest);
  }

  lemma MemberFacts(ms: Members, i: nat)
    requires i < |ms| && WellFormed(JObj(ms))
    ensures WellFormed(ms[i].1)
    ensures Lookup(ms[..i], ms[i].0) == None
    ensures ms[..i] + [ms[i]] == ms[..i + 1]
    ensures i == |ms| - 1 ==> ms[..i + 1] == ms
  {
    var acc := ms[..i];
    forall x | 0 <= x < |acc| ensures acc[x].0 != ms[i].0 {
      assert acc[x] == ms[x];
    }
  }

  /** The text of one member regrouped as the parser reads it. */
  lemma MemberText(key: string, text: string, after: string)
    ensures Quote(key) + (": " + text) + after == Quote(key) + (":" + (" " + (text + after)))
  {
    Assoc(Quote(key), ": " + text, after);
    SplitSeparator(':', ' ', text);
    Assoc(":", " " + text, after);
    Assoc(" ", text, after);
  }

  lemma {:induction false} MembersParse(pad: string, ms: Members, i: nat, acc: Members, tail: string)
    requires pad == "" || pad == " "
    requires i < |ms| && acc == ms[..i]
    requires WellFormed(JObj(ms)) && Follows(tail)
    ensures ParseMembers(pad + (PrintMembers(ms, i) + ("}" + tail)), acc) == Some((JObj(ms), tail))
    decreases JObj(ms), 0, |ms| - i
  {
    var k, v := ms[i].0, ms[i].1;
    var rest := "}" + tail;
    var text := Print(v);
    var member := Quote(k) + (": " + text);
    MemberFacts(ms, i);
    PutNewKey(acc, k, v);
    var after;
    if i == |ms| - 1 {
      after := rest;
    } else {
      var others := PrintMembers(ms, i + 1);
      after := "," + (" " + (others + rest));
      SplitSeparator(',', ' ', others);
      Assoc(member, ", " + others, rest);
      Assoc(",", " " + others, rest);
      Assoc(" ", others, rest);
    }
    MemberText(k, text, after);
    var val := " " + (text + after);
    PrintParses(" ", v, after);
    MemberParses(pad, k, val, v, after);
    var s := pad + (Quote(k) + (":" + val));
    if i == |ms| - 1 {
      MembersLast(tail, Put(acc, k, v));
    } else {
      MembersNext(" " + (PrintMembers(ms, i + 1) + rest), Put(acc, k, v));
      MembersParse(" ", ms, i + 1, ms[..i + 1], tail);
    }
  }

  /** `json.loads(json.dumps(j)) == j` for every value whose objects have
      unique keys. */
  lemma DecodePrint(j: Json)
    requires WellFormed(j)
    ensures Decode(Print(j)) == Some(j)
  {
    PrintParses("", j, "");
    EmptyBoth(Print(j));
  }
}
