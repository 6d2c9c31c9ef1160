/** The JSON texts the gateway writes and reads back: objects whose members are strings,
    booleans or null. Printing escapes as serde_json does; parsing accepts the escapes,
    surrogate pairs and whitespace of RFC 8259, sections 2, 4 and 7. */
module Json {
  import opened Wrappers
  import opened Bytes

  datatype Value = Str(s: string) | Bool(b: bool) | Null

  datatype Member = Member(key: string, value: Value)

  // ----------------------------------------------------------------- Print

  function HexDigit(n: nat): (c: char)
    requires n < 16
    ensures c >= ' '
  {
    if n < 10 then (48 + n) as char else (87 + n) as char
  }

  function EscapeChar(c: char): string
  {
    var n := c as int;
    if c == '\"' then "\\\""
    else if c == '\\' then "\\\\"
    else if n == 8 then "\\b"
    else if n == 9 then "\\t"
    else if n == 10 then "\\n"
    else if n == 12 then "\\f"
    else if n == 13 then "\\r"
    else if n < 32 then ['\\', 'u', '0', '0', HexDigit(n / 16), HexDigit(n % 16)]
    else [c]
  }

  function Escape(s: string): string
  {
    if s == "" then "" else EscapeChar(s[0]) + Escape(s[1..])
  }

  function PrintString(s: string): string {
    "\"" + Escape(s) + "\""
  }

  function PrintValue(v: Value): string {
    match v
    case Str(s) => PrintString(s)
    case Bool(b) => if b then "true" else "false"
    case Null => "null"
  }

  function PrintMember(m: Member): (r: string)
    ensures r != "" && r[0] == '\"'
  {
    PrintString(m.key) + ":" + PrintValue(m.value)
  }

  /** The members after the first one, and the closing brace. */
  function PrintTail(ms: seq<Member>): string
  {
    if ms == [] then "}" else "," + PrintMember(ms[0]) + PrintTail(ms[1..])
  }

  function Print(ms: seq<Member>): (r: string)
    ensures r != "" && r[0] == '{'
  {
    if ms == [] then "{}" else "{" + PrintMember(ms[0]) + PrintTail(ms[1..])
  }

  /** Only quotes, backslashes and control characters are escaped, these by a letter or a code. */
  lemma EscapeIs(c: char)
    ensures var e, n := EscapeChar(c), c as int;
      if c == '\"' then e == "\\\""
      else if c == '\\' then e == "\\\\"
      else if n >= 32 then e == [c]
      else if |e| == 2 then
        e[0] == '\\' && (e[1], n) in {('b', 8), ('t', 9), ('n', 10), ('f', 12), ('r', 13)}
      else |e| == 6 && e[..4] == "\\u00" && HexValue(e[4]) == Some(n / 16) && HexValue(e[5]) == Some(n % 16)
  {
  }

  /** No control characters, so in particular no line break. */
  ghost predicate Plain(s: string) {
    forall c :: c in s ==> c >= ' '
  }

  lemma {:induction false} EscapePlain(s: string)
    ensures Plain(Escape(s))
  {
    if s != "" {
      EscapePlain(s[1..]);
    }
  }

  lemma PrintMemberPlain(m: Member)
    ensures Plain(PrintMember(m))
  {
    EscapePlain(m.key);
    if m.value.Str? {
      EscapePlain(m.value.s);
    }
  }

  lemma {:induction false} PrintTailPlain(ms: seq<Member>)
    ensures Plain(PrintTail(ms))
  {
    if ms != [] {
      PrintMemberPlain(ms[0]);
      PrintTailPlain(ms[1..]);
    }
  }

  lemma PrintPlain(ms: seq<Member>)
    ensures Plain(Print(ms))
  {
    if ms != [] {
      PrintMemberPlain(ms[0]);
      PrintTailPlain(ms[1..]);
    }
  }

  // ----------------------------------------------------------------- Parse

  predicate IsSpace(c: char) {
    c == ' ' || c == '\t' || c == '\n' || c == '\r'
  }

  function SkipSpace(s: string): (r: string)
    ensures |r| <= |s|
    ensures r == "" || !IsSpace(r[0])
  {
    if s != "" && IsSpace(s[0]) then SkipSpace(s[1..]) else s
  }

  function HexValue(c: char): (r: Option<nat>)
    ensures r.Some? ==> r.value < 16
  {
    if '0' <= c <= '9' then Some(c as int - 48)
    else if 'a' <= c <= 'f' then Some(c as int - 87)
    else if 'A' <= c <= 'F' then Some(c as int - 55)
    else None
  }

  /** Four hexadecimal digits at the front. */
  function Hex4(s: string): (r: Option<nat>)
    ensures r.Some? ==> r.value < 0x10000 && |s| >= 4
  {
    if |s| < 4 then None
    else match (HexValue(s[0]), HexValue(s[1]), HexValue(s[2]), HexValue(s[3]))
      case (Some(a), Some(b), Some(c), Some(d)) => Some(((a * 16 + b) * 16 + c) * 16 + d)
      case _ => None
  }

  /** What follows `\u`: one UTF-16 unit, or a surrogate pair. */
  function ParseUnicode(s: string): (r: Option<(char, string)>)
    ensures r.Some? ==> |r.value.1| < |s|
  {
    match Hex4(s)
    case None => None
    case Some(n) =>
      if n < 0xD800 || 0xE000 <= n then Some((n as char, s[4..]))
      else if 0xDC00 <= n || |s| < 6 || s[4..6] != "\\u" then None
      else match Hex4(s[6..])
        case None => None
        case Some(m) =>
          if 0xDC00 <= m < 0xE000 then
            Some(((0x10000 + (n - 0xD800) * 0x400 + (m - 0xDC00)) as char, s[10..]))
          else None
  }

  /** What follows a backslash. */
  function ParseEscape(s: string): (r: Option<(char, string)>)
    ensures r.Some? ==> |r.value.1| < |s|
  {
    if s == "" then None
    else if s[0] == '\"' || s[0] == '\\' || s[0] == '/' then Some((s[0], s[1..]))
    else if s[0] == 'b' then Some((8 as char, s[1..]))
    else if s[0] == 't' then Some((9 as char, s[1..]))
    else if s[0] == 'n' then Some((10 as char, s[1..]))
    else if s[0] == 'f' then Some((12 as char, s[1..]))
    else if s[0] == 'r' then Some((13 as char, s[1..]))
    else if s[0] == 'u' then ParseUnicode(s[1..])
    else None
  }

  /** What follows an opening quote: the string, and the text after the closing quote. */
  function ParseChars(s: string): (r: Option<(string, string)>)
    ensures r.Some? ==> |r.value.1| < |s|
    decreases |s|
  {
    if s == "" then None
    else if s[0] == '\"' then Some(("", s[1..]))
    else if s[0] == '\\' then
      match ParseEscape(s[1..])
      case None => None
      case Some((c, rest)) => Prepend(c, ParseChars(rest))
    else if s[0] < ' ' then None
    else Prepend(s[0], ParseChars(s[1..]))
  }

  function Prepend(c: char, r: Option<(string, string)>): Option<(string, string)> {
    match r
    case None => None
    case Some((v, rest)) => Some(([c] + v, rest))
  }

  function ParseValue(s: string): (r: Option<(Value, string)>)
    ensures r.Some? ==> |r.value.1| < |s|
  {
    if s == "" then None
    else if s[0] == '\"' then
      match ParseChars(s[1..])
      case None => None
      case Some((v, rest)) => Some((Str(v), rest))
    else if "true" <= s then Some((Bool(true), s[4..]))
    else if "false" <= s then Some((Bool(false), s[5..]))
    else if "null" <= s then Some((Null, s[4..]))
    else None
  }

  function ParseMember(s: string): (r: Option<(Member, string)>)
    ensures r.Some? ==> |r.value.1| < |s|
  {
    var a := SkipSpace(s);
    if a == "" || a[0] != '\"' then None
    else match ParseChars(a[1..])
      case None => None
      case Some((key, b)) =>
        var c := SkipSpace(b);
        if c == "" || c[0] != ':' then None
        else match ParseValue(SkipSpace(c[1..]))
          case None => None
          case Some((v, rest)) => Some((Member(key, v), rest))
  }

  function ParseTail(s: string): (r: Option<(seq<Member>, string)>)
    ensures r.Some? ==> |r.value.1| < |s|
    decreases |s|
  {
    var a := SkipSpace(s);
    if a == "" then None
    else if a[0] == '}' then Some(([], a[1..]))
    else if a[0] != ',' then None
    else match ParseMember(a[1..])
      case None => None
      case Some((m, b)) =>
        match ParseTail(b)
        case None => None
        case Some((ms, rest)) => Some(([m] + ms, rest))
  }

  function ParseObject(s: string): (r: Option<(seq<Member>, string)>)
    ensures r.Some? ==> |r.value.1| < |s|
  {
    var a := SkipSpace(s);
    if a == "" || a[0] != '{' then None
    else
      var b := SkipSpace(a[1..]);
      if b != "" && b[0] == '}' then Some(([], b[1..]))
      else match ParseMember(a[1..])
        case None => None
        case Some((m, c)) =>
          match ParseTail(c)
          case None => None
          case Some((ms, rest)) => Some(([m] + ms, rest))
  }

  /** A whole text: one object, then nothing but whitespace. */
  function Parse(s: string): Option<seq<Member>> {
    match ParseObject(s)
    case None => None
    case Some((ms, rest)) => if SkipSpace(rest) == "" then Some(ms) else None
  }

  // ------------------------------------------------------------ Round trip

  lemma HexRoundTrip(n: nat)
    requires n < 16
    ensures HexValue(HexDigit(n)) == Some(n)
  {
  }

  lemma ParseEscapedChar(c: char, x: string)
    ensures ParseChars(EscapeChar(c) + x) == Prepend(c, ParseChars(x))
  {
    var n := c as int;
    var e := EscapeChar(c);
    var s := e + x;
    if c != '\"' && c != '\\' && n >= 32 {
      assert s[0] == c && s[1..] == x;
    } else if n >= 32 || n == 8 || n == 9 || n == 10 || n == 12 || n == 13 {
      assert s[0] == '\\' && s[1] == e[1];
      assert s[1..][1..] == x;
    } else {
      HexRoundTrip(n / 16);
      HexRoundTrip(n % 16);
      assert e == ['\\', 'u', '0', '0', HexDigit(n / 16), HexDigit(n % 16)];
      var t := s[1..][1..];
      assert t[0] == '0' && t[1] == '0' && t[2] == HexDigit(n / 16) && t[3] == HexDigit(n % 16);
      assert Hex4(t) == Some(n);
      assert t[4..] == x;
      assert ParseEscape(s[1..]) == Some((c, x));
    }
  }

  lemma ParseQuote(x: string)
    ensures ParseChars("\"" + x) == Some(("", x))
  {
    assert ("\"" + x)[0] == '\"' && ("\"" + x)[1..] == x;
  }

  /** Any string at all, escaped between quotes, is read back as it was. */
  lemma {:induction false} ParseEscaped(v: string, x: string)
    ensures ParseChars(Escape(v) + "\"" + x) == Some((v, x))
  {
    hide ParseChars, EscapeChar;
    if v == "" {
      ParseQuote(x);
      assert Escape(v) + "\"" + x == "\"" + x;
    } else {
      ParseEscaped(v[1..], x);
      ParseEscapedChar(v[0], Escape(v[1..]) + "\"" + x);
      assert Escape(v) + "\"" + x == EscapeChar(v[0]) + (Escape(v[1..]) + "\"" + x);
      assert v == [v[0]] + v[1..];
    }
  }

  lemma ParsePrintedString(t: string, x: string)
    ensures ParseValue(PrintString(t) + x) == Some((Str(t), x))
  {
    hide Escape, ParseChars;
    ParseEscaped(t, x);
    assert (PrintString(t) + x)[1..] == Escape(t) + "\"" + x;
  }

  lemma ParsePrintedValue(v: Value, x: string)
    ensures ParseValue(PrintValue(v) + x) == Some((v, x))
  {
    var s := PrintValue(v) + x;
    match v
    case Str(t) => ParsePrintedString(t, x);
    case Bool(b) =>
      if b {
        assert s[..4] == "true" && s[4..] == x;
      } else {
        assert s[0] == 'f';
        assert s[..5] == "false" && s[5..] == x;
      }
    case Null =>
      assert s[0] == 'n';
      assert s[..4] == "null" && s[4..] == x;
  }

  lemma PrintValueStart(v: Value)
    ensures PrintValue(v) != "" && !IsSpace(PrintValue(v)[0])
  {
  }

  lemma ParseAfterKey(m: Member, x: string)
    ensures var after := PrintValue(m.value) + x;
      ParseMember("\"" + (Escape(m.key) + "\"" + (":" + after))) == Some((m, x))
  {
    var after := PrintValue(m.value) + x;
    var body := Escape(m.key) + "\"" + (":" + after);
    var s := "\"" + body;
    assert SkipSpace(s) == s && s[1..] == body;
    ParseEscaped(m.key, ":" + after);
    var c := ":" + after;
    assert SkipSpace(c) == c && c[1..] == after;
    PrintValueStart(m.value);
    assert SkipSpace(after) == after;
    ParsePrintedValue(m.value, x);
  }

  lemma Regroup(q: string, k: string, c: string, v: string, x: string)
    ensures q + k + q + c + v + x == q + (k + q + (c + (v + x)))
  {
  }

  lemma ParsePrintedMember(m: Member, x: string)
    ensures ParseMember(PrintMember(m) + x) == Some((m, x))
  {
    ParseAfterKey(m, x);
    Regroup("\"", Escape(m.key), ":", PrintValue(m.value), x);
  }

  lemma Regroup2(a: string, b: string, c: string, x: string)
    ensures a + b + c + x == a + (b + (c + x))
  {
  }

  lemma CommaFirst(b: string)
    ensures SkipSpace("," + b) == "," + b && ("," + b)[1..] == b
  {
  }

  lemma {:induction false} ParsePrintedTail(ms: seq<Member>, x: string)
    ensures ParseTail(PrintTail(ms) + x) == Some((ms, x))
  {
    if ms == [] {
      assert (PrintTail(ms) + x)[1..] == x;
    } else {
      var more := PrintTail(ms[1..]) + x;
      Regroup2(",", PrintMember(ms[0]), PrintTail(ms[1..]), x);
      CommaFirst(PrintMember(ms[0]) + more);
      ParsePrintedMember(ms[0], more);
      ParsePrintedTail(ms[1..], x);
      assert ms == [ms[0]] + ms[1..];
    }
  }

  lemma ParsePrintedObject(ms: seq<Member>, x: string)
    ensures ParseObject(Print(ms) + x) == Some((ms, x))
  {
    hide PrintMember, ParseMember, PrintTail, ParseTail;
    if ms == [] {
      var s := Print(ms) + x;
      assert s[1..] == "}" + x;
      assert s[1..][1..] == x;
    } else {
      ParsePrintedMembers(ms, x);
    }
  }

  lemma ParsePrintedMembers(ms: seq<Member>, x: string)
    requires ms != []
    ensures ParseObject(Print(ms) + x) == Some((ms, x))
  {
    hide PrintMember, ParseMember, PrintTail, ParseTail;
    var more := PrintTail(ms[1..]) + x;
    var b := PrintMember(ms[0]) + more;
    Regroup2("{", PrintMember(ms[0]), PrintTail(ms[1..]), x);
    ParsePrintedMember(ms[0], more);
    ParsePrintedTail(ms[1..], x);
    ParseBraced(b);
    assert ms == [ms[0]] + ms[1..];
  }

  lemma ParseBraced(b: string)
    requires b != "" && b[0] == '\"'
    ensures SkipSpace("{" + b) == "{" + b && ("{" + b)[1..] == b && SkipSpace(b) == b
  {
  }

  lemma ParsePrinted(ms: seq<Member>)
    ensures Parse(Print(ms)) == Some(ms)
  {
    ParsePrintedObject(ms, "");
    assert Print(ms) + "" == Print(ms);
  }

  // ------------------------------- Text added at the end changes no token

  lemma {:induction false} SkipSpaceExtends(s: string, x: string)
    ensures SkipSpace(s) != "" ==> SkipSpace(s + x) == SkipSpace(s) + x
    ensures SkipSpace(s) == "" ==> SkipSpace(s + x) == SkipSpace(x)
  {
    if s == "" {
      assert s + x == x;
    } else {
      assert (s + x)[1..] == s[1..] + x;
      if IsSpace(s[0]) {
        SkipSpaceExtends(s[1..], x);
      }
    }
  }

  lemma ParseUnicodeExtends(s: string, x: string)
    requires ParseUnicode(s).Some?
    ensures var (c, rest) := ParseUnicode(s).value; ParseUnicode(s + x) == Some((c, rest + x))
  {
    assert Hex4(s + x) == Hex4(s);
    assert (s + x)[4..] == s[4..] + x;
    var n := Hex4(s).value;
    if 0xD800 <= n < 0xE000 {
      assert (s + x)[4..6] == s[4..6];
      assert (s + x)[6..] == s[6..] + x;
      assert Hex4((s + x)[6..]) == Hex4(s[6..]);
      assert (s + x)[10..] == s[10..] + x;
    }
  }

  lemma ParseEscapeExtends(e: string, x: string)
    requires ParseEscape(e).Some?
    ensures ParseEscape(e + x) == Some((ParseEscape(e).value.0, ParseEscape(e).value.1 + x))
  {
    assert (e + x)[1..] == e[1..] + x;
    if e[0] == 'u' {
      ParseUnicodeExtends(e[1..], x);
    }
  }

  lemma {:induction false} ParseCharsExtends(s: string, x: string)
    requires ParseChars(s).Some?
    ensures var (v, rest) := ParseChars(s).value; ParseChars(s + x) == Some((v, rest + x))
    decreases |s|
  {
    hide ParseEscape;
    assert (s + x)[1..] == s[1..] + x;
    if s[0] == '\"' {
    } else if s[0] == '\\' {
      ParseEscapeExtends(s[1..], x);
      ParseCharsExtends(ParseEscape(s[1..]).value.1, x);
    } else {
      ParseCharsExtends(s[1..], x);
    }
  }

  lemma ParseValueExtends(s: string, x: string)
    requires ParseValue(s).Some?
    ensures var (v, rest) := ParseValue(s).value; ParseValue(s + x) == Some((v, rest + x))
  {
    assert (s + x)[1..] == s[1..] + x;
    if s[0] == '\"' {
      ParseCharsExtends(s[1..], x);
    } else if "true" <= s {
      assert (s + x)[4..] == s[4..] + x;
    } else if "false" <= s {
      assert (s + x)[0] == 'f';
      assert (s + x)[5..] == s[5..] + x;
    } else {
      assert (s + x)[0] == 'n';
      assert (s + x)[4..] == s[4..] + x;
    }
  }

  lemma ParseMemberExtends(s: string, x: string)
    requires ParseMember(s).Some?
    ensures var (m, rest) := ParseMember(s).value; ParseMember(s + x) == Some((m, rest + x))
  {
    var a := SkipSpace(s);
    SkipSpaceExtends(s, x);
    assert (a + x)[1..] == a[1..] + x;
    ParseCharsExtends(a[1..], x);
    var b := ParseChars(a[1..]).value.1;
    SkipSpaceExtends(b, x);
    var c := SkipSpace(b);
    assert (c + x)[1..] == c[1..] + x;
    SkipSpaceExtends(c[1..], x);
    ParseValueExtends(SkipSpace(c[1..]), x);
  }

  lemma {:induction false} ParseTailExtends(s: string, x: string)
    requires ParseTail(s).Some?
    ensures var (ms, rest) := ParseTail(s).value; ParseTail(s + x) == Some((ms, rest + x))
    decreases |s|
  {
    var a := SkipSpace(s);
    SkipSpaceExtends(s, x);
    assert (a + x)[1..] == a[1..] + x;
    if a[0] == ',' {
      ParseMemberExtends(a[1..], x);
      ParseTailExtends(ParseMember(a[1..]).value.1, x);
    }
  }

  lemma ParseObjectExtends(s: string, x: string)
    requires ParseObject(s).Some?
    ensures var (ms, rest) := ParseObject(s).value; ParseObject(s + x) == Some((ms, rest + x))
  {
    var a := SkipSpace(s);
    SkipSpaceExtends(s, x);
    assert (a + x)[1..] == a[1..] + x;
    var b := SkipSpace(a[1..]);
    SkipSpaceExtends(a[1..], x);
    if b != "" && b[0] == '}' {
      assert (b + x)[1..] == b[1..] + x;
    } else {
      ParseMemberExtends(a[1..], x);
      ParseTailExtends(ParseMember(a[1..]).value.1, x);
    }
  }

  // --------------------------------------------------------------- Members

  datatype Field = Absent | One(value: Value) | Repeated

  /** The member with this key, as a serde struct visitor collects it. */
  function Get(ms: seq<Member>, key: string): Field {
    if ms == [] then Absent
    else
      var r := Get(ms[1..], key);
      if ms[0].key != key then r else if r.Absent? then One(ms[0].value) else Repeated
  }

  lemma {:induction false} GetAbsent(ms: seq<Member>, key: string)
    requires forall i :: 0 <= i < |ms| ==> ms[i].key != key
    ensures Get(ms, key) == Absent
  {
    if ms != [] {
      GetAbsent(ms[1..], key);
    }
  }

  lemma {:induction false} GetOne(ms: seq<Member>, k: nat)
    requires k < |ms|
    requires forall i :: 0 <= i < |ms| && i != k ==> ms[i].key != ms[k].key
    ensures Get(ms, ms[k].key) == One(ms[k].value)
  {
    if k == 0 {
      GetAbsent(ms[1..], ms[0].key);
    } else {
      GetOne(ms[1..], k - 1);
    }
  }
}
