/** Flat JSON objects of strings and integers, printed compactly as the protocol header is and parsed back.

    Printing and parsing are written in the same order, and so are the proofs that the one undoes the other: a character
    and its escape, a quoted string, a decimal number with its sign, a field with its key and colon, the fields with
    their commas, and the object in its braces. Every step is stated for a printed part with any text behind it, which
    the parser leaves alone; so a header is found at the front of a message whatever its body is. The parser also
    accepts escapes in forms that the printer never uses. */
module JsonText {
  import opened CodeBlocks

  datatype Option<T> = None | Some(value: T)

  datatype Value = Str(s: string) | Num(n: int)

  // A parsed part and the text after it.
  datatype Parsed<T> = Parsed(part: T, rest: string)

  // ------------------------------------------------------------------ Strings

  const HEX := "0123456789abcdef"

  function HexDigit(c: char): Option<nat> {
    if '0' <= c <= '9' then Some(c as int - '0' as int)
    else if 'a' <= c <= 'f' then Some(c as int - 'a' as int + 10)
    else if 'A' <= c <= 'F' then Some(c as int - 'A' as int + 10)
    else None
  }

  function Escape(c: char): string {
    if c == '"' then "\\\"" else if c == '\\' then "\\\\"
    else if c == '\n' then "\\n" else if c == '\r' then "\\r" else if c == '\t' then "\\t"
    else if c == '\U{8}' then "\\b" else if c == '\U{C}' then "\\f"
    else if c < ' ' then "\\u00" + [HEX[c as int / 16], HEX[c as int % 16]]
    else [c]
  }

  function EscapeAll(s: string): string {
    if s == "" then "" else Escape(s[0]) + EscapeAll(s[1..])
  }

  function Quote(s: string): string {
    "\"" + EscapeAll(s) + "\""
  }

  function SimpleEscape(c: char): Option<char> {
    if c == '"' || c == '\\' || c == '/' then Some(c)
    else if c == 'n' then Some('\n') else if c == 'r' then Some('\r') else if c == 't' then Some('\t')
    else if c == 'b' then Some('\U{8}') else if c == 'f' then Some('\U{C}')
    else None
  }

  // The character of \uXXXX; surrogates are not modelled.
  function UnicodeEscape(a: char, b: char, c: char, d: char): Option<char> {
    var h, i, j, k := HexDigit(a), HexDigit(b), HexDigit(c), HexDigit(d);
    if h.Some? && i.Some? && j.Some? && k.Some? then
      var n := ((h.value * 16 + i.value) * 16 + j.value) * 16 + k.value;
      if n < 0xD800 || 0xE000 <= n < 0x10000 then Some(n as char) else None
    else None
  }

  // One character of a string literal; not the closing quote.
  function UnescapeOne(s: string): (r: Option<Parsed<char>>)
    ensures r.Some? ==> |r.value.rest| < |s|
  {
    if s == "" || s[0] == '"' || s[0] < ' ' then None
    else if s[0] != '\\' then Some(Parsed(s[0], s[1..]))
    else if |s| >= 6 && s[1] == 'u' then
      match UnicodeEscape(s[2], s[3], s[4], s[5])
      case Some(c) => Some(Parsed(c, s[6..]))
      case None => None
    else if |s| >= 2 then
      match SimpleEscape(s[1])
      case Some(c) => Some(Parsed(c, s[2..]))
      case None => None
    else None
  }

  // The literal after its opening quote.
  function Unquote(s: string): (r: Option<Parsed<string>>)
    ensures r.Some? ==> |r.value.rest| < |s|
    decreases |s|
  {
    if s != "" && s[0] == '"' then Some(Parsed("", s[1..]))
    else
      match UnescapeOne(s)
      case None => None
      case Some(one) =>
        match Unquote(one.rest)
        case None => None
        case Some(more) => Some(Parsed([one.part] + more.part, more.rest))
  }

  lemma EscapeBack(c: char, rest: string)
    ensures UnescapeOne(Escape(c) + rest) == Some(Parsed(c, rest))
  {
    var s := Escape(c) + rest;
    if |Escape(c)| == 1 {
      assert s[1..] == rest;
    } else if |Escape(c)| == 2 {
      assert s[2..] == rest;
    } else {
      HexBack(c as int / 16);
      HexBack(c as int % 16);
      assert s[6..] == rest;
    }
  }

  lemma HexBack(n: nat)
    requires n < 16
    ensures HexDigit(HEX[n]) == Some(n)
  {}

  lemma UnquoteCons(c: char, tail: string, more: string, rest: string)
    requires Unquote(tail) == Some(Parsed(more, rest))
    ensures Unquote(Escape(c) + tail) == Some(Parsed([c] + more, rest))
  {
    EscapeBack(c, tail);
    assert (Escape(c) + tail)[0] == Escape(c)[0] != '"';
  }

  lemma Reassociate(a: string, b: string, c: string)
    ensures (a + b) + c == a + (b + c)
  {}

  /** Every string survives quoting, whatever characters it has. */
  lemma {:induction false} QuoteBack(s: string, rest: string)
    ensures Unquote(EscapeAll(s) + ("\"" + rest)) == Some(Parsed(s, rest))
    decreases |s|
  {
    if s == "" {
      assert EscapeAll(s) + ("\"" + rest) == "\"" + rest;
      assert ("\"" + rest)[1..] == rest;
    } else {
      QuoteBack(s[1..], rest);
      Reassociate(Escape(s[0]), EscapeAll(s[1..]), "\"" + rest);
      UnquoteCons(s[0], EscapeAll(s[1..]) + ("\"" + rest), s[1..], rest);
      assert [s[0]] + s[1..] == s;
    }
  }

  // ------------------------------------------------------------------ Integers

  function PrintInt(n: int): string {
    if n < 0 then "-" + Digits(-n) else Digits(n)
  }

  predicate IsDigit(c: char) {
    '0' <= c <= '9'
  }

  // Length of the run of digits in front.
  function DigitRun(s: string): (k: nat)
    ensures k <= |s| && (k < |s| ==> !IsDigit(s[k])) && forall i :: 0 <= i < k ==> IsDigit(s[i])
  {
    if s != "" && IsDigit(s[0]) then 1 + DigitRun(s[1..]) else 0
  }

  function ValueOf(digits: string): nat
    requires forall i :: 0 <= i < |digits| ==> IsDigit(digits[i])
  {
    if digits == "" then 0
    else
      assert IsDigit(digits[|digits| - 1]);
      ValueOf(digits[..|digits| - 1]) * 10 + (digits[|digits| - 1] as int - '0' as int)
  }

  // No leading zero, no fraction or exponent.
  function ParseNat(s: string): (r: Option<Parsed<nat>>)
    ensures r.Some? ==> |r.value.rest| < |s|
  {
    var k := DigitRun(s);
    if k == 0 || (k < |s| && s[k] in ".eE") then None
    else if s[0] == '0' && k > 1 then None
    else Some(Parsed(ValueOf(s[..k]), s[k..]))
  }

  function ParseInt(s: string): (r: Option<Parsed<int>>)
    ensures r.Some? ==> |r.value.rest| < |s|
  {
    if s != "" && s[0] == '-' then
      match ParseNat(s[1..])
      case Some(n) => (var value: int := 0 - n.part; Some(Parsed(value, n.rest)))
      case None => None
    else
      match ParseNat(s)
      case Some(n) => (var value: int := n.part; Some(Parsed(value, n.rest)))
      case None => None
  }

  lemma {:induction false} DigitsAre(n: nat)
    ensures Digits(n) != "" && forall i :: 0 <= i < |Digits(n)| ==> IsDigit(Digits(n)[i])
    ensures ValueOf(Digits(n)) == n
    ensures Digits(n)[0] == '0' ==> n == 0 && |Digits(n)| == 1
    decreases n
  {
    if n < 10 {
      assert Digits(n)[..0] == "";
    } else {
      DigitsAre(n / 10);
      assert Digits(n)[..|Digits(n)| - 1] == Digits(n / 10);
    }
  }

  predicate EndsNumber(rest: string) {
    rest != "" ==> !IsDigit(rest[0]) && rest[0] !in ".eE"
  }

  lemma NatBack(n: nat, rest: string)
    requires EndsNumber(rest)
    ensures ParseNat(Digits(n) + rest) == Some(Parsed(n, rest))
  {
    DigitsAre(n);
    var s := Digits(n) + rest;
    assert s[..|Digits(n)|] == Digits(n) && s[|Digits(n)|..] == rest;
  }

  lemma IntBack(n: int, rest: string)
    requires EndsNumber(rest)
    ensures ParseInt(PrintInt(n) + rest) == Some(Parsed(n, rest))
    ensures PrintInt(n) != "" && (PrintInt(n)[0] == '-' || IsDigit(PrintInt(n)[0]))
  {
    if n < 0 {
      NegativeBack(-n, rest);
    } else {
      PositiveBack(n, rest);
    }
  }

  lemma PositiveBack(n: nat, rest: string)
    requires EndsNumber(rest)
    ensures ParseInt(Digits(n) + rest) == Some(Parsed(n as int, rest))
    ensures Digits(n) != "" && IsDigit(Digits(n)[0])
  {
    NatBack(n, rest);
    DigitsAre(n);
    assert (Digits(n) + rest)[0] == Digits(n)[0];
  }

  lemma NegativeBack(m: nat, rest: string)
    requires EndsNumber(rest)
    ensures ParseInt("-" + Digits(m) + rest) == Some(Parsed(0 - m, rest))
  {
    NatBack(m, rest);
    MinusFirst(Digits(m), rest);
  }

  lemma MinusFirst(digits: string, rest: string)
    ensures ("-" + digits + rest)[0] == '-' && ("-" + digits + rest)[1..] == digits + rest
  {}

  // ------------------------------------------------------------------ Objects

  function PrintValue(v: Value): string {
    match v
    case Str(s) => Quote(s)
    case Num(n) => PrintInt(n)
  }

  datatype Field = Field(key: string, value: Value)

  function PrintFields(fields: seq<Field>): string {
    if fields == [] then ""
    else if |fields| == 1 then PrintField(fields[0])
    else PrintField(fields[0]) + "," + PrintFields(fields[1..])
  }

  function PrintField(f: Field): string {
    Quote(f.key) + ":" + PrintValue(f.value)
  }

  function PrintObject(fields: seq<Field>): string {
    "{" + PrintFields(fields) + "}"
  }

  function SkipSpace(s: string): (r: string)
    ensures |r| <= |s|
  {
    if s != "" && s[0] in " \t\n\r" then SkipSpace(s[1..]) else s
  }

  function ParseValue(s: string): (r: Option<Parsed<Value>>)
    ensures r.Some? ==> |r.value.rest| < |s|
  {
    if s != "" && s[0] == '"' then
      match Unquote(s[1..])
      case Some(t) => Some(Parsed(Str(t.part), t.rest))
      case None => None
    else
      match ParseInt(s)
      case Some(n) => Some(Parsed(Num(n.part), n.rest))
      case None => None
  }

  function ParseField(s: string): (r: Option<Parsed<Field>>)
    ensures r.Some? ==> |r.value.rest| < |s|
  {
    if s == "" || s[0] != '"' then None
    else
      match Unquote(s[1..])
      case None => None
      case Some(key) =>
        var colon := SkipSpace(key.rest);
        if colon == "" || colon[0] != ':' then None
        else
          match ParseValue(SkipSpace(colon[1..]))
          case None => None
          case Some(v) => Some(Parsed(Field(key.part, v.part), v.rest))
  }

  // The members after the opening brace; a repeated key takes its last value.
  function ParseFields(s: string, seen: map<string, Value>): (r: Option<Parsed<map<string, Value>>>)
    decreases |s|
  {
    match ParseField(SkipSpace(s))
    case None => None
    case Some(f) =>
      var fields := seen[f.part.key := f.part.value];
      var after := SkipSpace(f.rest);
      if after == "" then None
      else if after[0] == '}' then Some(Parsed(fields, after[1..]))
      else if after[0] == ',' then ParseFields(after[1..], fields)
      else None
  }

  function ParseObject(s: string): Option<Parsed<map<string, Value>>> {
    if s == "" || s[0] != '{' then None
    else
      var inner := SkipSpace(s[1..]);
      if inner != "" && inner[0] == '}' then Some(Parsed(map[], inner[1..])) else ParseFields(s[1..], map[])
  }

  function Collect(fields: seq<Field>, seen: map<string, Value>): map<string, Value> {
    if fields == [] then seen else Collect(fields[1..], seen[fields[0].key := fields[0].value])
  }

  lemma ValueBack(v: Value, rest: string)
    requires EndsNumber(rest)
    ensures ParseValue(PrintValue(v) + rest) == Some(Parsed(v, rest))
    ensures PrintValue(v) != "" && PrintValue(v)[0] !in " \t\n\r"
  {
    match v
    case Str(t) => StringBack(t, rest);
    case Num(n) =>
      IntBack(n, rest);
      assert (PrintInt(n) + rest)[0] == PrintInt(n)[0];
  }

  lemma StringBack(t: string, rest: string)
    ensures ParseValue(Quote(t) + rest) == Some(Parsed(Str(t), rest))
  {
    QuoteBack(t, rest);
    QuotedTail(EscapeAll(t), rest);
  }

  lemma QuotedTail(inner: string, rest: string)
    ensures ("\"" + inner + "\"" + rest)[0] == '"' && ("\"" + inner + "\"" + rest)[1..] == inner + ("\"" + rest)
  {}

  lemma FieldBack(f: Field, rest: string)
    requires EndsNumber(rest)
    ensures ParseField(PrintField(f) + rest) == Some(Parsed(f, rest))
  {
    var tail := ":" + (PrintValue(f.value) + rest);
    QuoteBack(f.key, tail);
    KeyConcat(f, rest);
    ValueBack(f.value, rest);
  }

  lemma KeyConcat(f: Field, rest: string)
    ensures var s := PrintField(f) + rest;
      s[0] == '"' && s[1..] == EscapeAll(f.key) + ("\"" + (":" + (PrintValue(f.value) + rest)))
  {
    Unroll(EscapeAll(f.key), ":", PrintValue(f.value), rest);
  }

  lemma Unroll(inner: string, colon: string, v: string, rest: string)
    ensures var s := ("\"" + inner + "\"") + colon + v + rest;
      s[0] == '"' && s[1..] == inner + ("\"" + (colon + (v + rest)))
  {}

  lemma {:induction false} FieldsBack(fields: seq<Field>, seen: map<string, Value>, rest: string)
    requires fields != []
    ensures ParseFields(PrintFields(fields) + ("}" + rest), seen) == Some(Parsed(Collect(fields, seen), rest))
    decreases |fields|
  {
    if |fields| == 1 {
      FieldBack(fields[0], "}" + rest);
      assert fields == [fields[0]];
    } else {
      var tail := PrintFields(fields[1..]) + ("}" + rest);
      FieldBack(fields[0], "," + tail);
      FieldsBack(fields[1..], seen[fields[0].key := fields[0].value], rest);
      NextField(fields[0], seen, tail);
      FieldsConcat(fields, "}" + rest);
    }
  }

  lemma FieldsConcat(fields: seq<Field>, after: string)
    requires |fields| > 1
    ensures PrintFields(fields) + after == PrintField(fields[0]) + ("," + (PrintFields(fields[1..]) + after))
  {
    Regroup(PrintField(fields[0]), ",", PrintFields(fields[1..]), after);
  }

  lemma Regroup(a: string, b: string, c: string, d: string)
    ensures a + b + c + d == a + (b + (c + d))
  {}

  lemma NextField(f: Field, seen: map<string, Value>, tail: string)
    requires ParseField(PrintField(f) + ("," + tail)) == Some(Parsed(f, "," + tail))
    ensures ParseFields(PrintField(f) + ("," + tail), seen) == ParseFields(tail, seen[f.key := f.value])
  {
    var s := PrintField(f) + ("," + tail);
    assert s[0] == '"' && SkipSpace(s) == s;
    assert SkipSpace("," + tail) == "," + tail && ("," + tail)[1..] == tail;
  }

  /** Printing and parsing a non-empty object gives its fields back, and what follows it untouched. */
  lemma ObjectBack(fields: seq<Field>, rest: string)
    requires fields != []
    ensures ParseObject(PrintObject(fields) + rest) == Some(Parsed(Collect(fields, map[]), rest))
  {
    var s := PrintObject(fields) + rest;
    var inner := PrintFields(fields);
    Regroup("{", inner, "}", rest);
    FieldsBack(fields, map[], rest);
  }

}
