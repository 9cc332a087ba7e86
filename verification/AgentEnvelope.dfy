/** The peer-Agent message envelope (workbot/collaboration/protocol.py): a marker, a JSON header and a body.

    A message is the marker, the header printed as one JSON object, a line end and the stripped body. Decoding looks for
    the marker at the front or behind a shown prefix, parses the object, checks every field, and strips what follows it.
    The round trips say exactly when decoding an encoded message gives the envelope back: as it was sent, with a prefix
    before it, and after the transport has collapsed all runs of white space, with and without a prefix. The header
    survives the last because it is printed without white space and an acceptable identifier has none either; of the
    body, the collapsed form arrives. */
module AgentEnvelope {
  import opened TextSplit
  import opened Whitespace
  import opened JsonText

  datatype Envelope = Envelope(
    version: int, fromId: string, toId: string, messageType: string, messageId: string, replyTo: Option<string>,
    hop: int)

  const MARKER := "[WBOT]"

  // ------------------------------------------------------------------ Encoding

  // Keys in sorted order; an empty reply_to is left out.
  function HeaderFields(e: Envelope): seq<Field> {
    [Field("from", Str(e.fromId)), Field("hop", Num(e.hop)), Field("id", Str(e.messageId))]
    + (if e.replyTo.Some? && e.replyTo.value != "" then [Field("reply_to", Str(e.replyTo.value))] else [])
    + [Field("to", Str(e.toId)), Field("type", Str(e.messageType)), Field("v", Num(e.version))]
  }

  function Header(e: Envelope): string {
    PrintObject(HeaderFields(e))
  }

  function Encode(e: Envelope, body: string): string {
    RStrip(MARKER + Header(e) + "\n" + Strip(body))
  }

  // ------------------------------------------------------------------ Decoding

  function LowerChar(c: char): char {
    if 'A' <= c <= 'Z' then (c as int + 32) as char else c
  }

  function Lower(s: string): (r: string)
    ensures |r| == |s| && forall i :: 0 <= i < |s| ==> r[i] == LowerChar(s[i])
  {
    seq(|s|, i requires 0 <= i < |s| => LowerChar(s[i]))
  }

  // Index of the first closing bracket, or the length.
  function CloseAt(s: string): (k: nat)
    ensures k <= |s| && (k < |s| ==> s[k] == ']') && forall i :: 0 <= i < k ==> s[i] != ']'
  {
    if s == "" || s[0] == ']' then 0 else 1 + CloseAt(s[1..])
  }

  // The shown bot prefix, such as [AGENT] or [AGENT-A], in any case, and the white space after it.
  function DropPrefix(s: string): string {
    var v := LStrip(s);
    if |v| >= 6 && v[0] == '[' && Lower(v[1..6]) == "agent" then
      var k := CloseAt(v[6..]);
      if 6 + k < |v| then LStrip(v[6 + k + 1..]) else s
    else s
  }

  predicate IdChar(c: char) {
    'A' <= c <= 'Z' || 'a' <= c <= 'z' || '0' <= c <= '9' || c in "_.:-"
  }

  predicate ValidId(s: string) {
    1 <= |s| <= 128 && forall i :: 0 <= i < |s| ==> IdChar(s[i])
  }

  // str(raw.get(key) or "")
  function TextOf(raw: map<string, Value>, key: string): string {
    if key !in raw || raw[key] == Num(0) then "" else match raw[key] case Str(s) => s case Num(n) => PrintInt(n)
  }

  // int(raw.get(key, 0)); a string of digits counts.
  function IntOf(raw: map<string, Value>, key: string): Option<int> {
    if key !in raw then Some(0)
    else
      match raw[key]
      case Num(n) => Some(n)
      case Str(s) =>
        var digits := Strip(s);
        if digits != "" && DigitRun(digits) == |digits| then Some(ValueOf(digits)) else None
  }

  function Optional(s: string): Option<string> {
    if s == "" then None else Some(s)
  }

  predicate Acceptable(e: Envelope) {
    && e.version == 1 && ValidId(e.fromId) && (ValidId(e.toId) || e.toId == "*") && ValidId(e.messageId)
    && e.messageType in {"request", "response", "event"}
    && (e.replyTo.Some? ==> ValidId(e.replyTo.value)) && 0 <= e.hop <= 100
  }

  function ReadEnvelope(raw: map<string, Value>): Option<Envelope> {
    var version, hop := IntOf(raw, "v"), IntOf(raw, "hop");
    if version.None? || hop.None? then None
    else
      var e := Envelope(version.value, Strip(TextOf(raw, "from")), Strip(TextOf(raw, "to")),
        Lower(Strip(TextOf(raw, "type"))), Strip(TextOf(raw, "id")), Optional(Strip(TextOf(raw, "reply_to"))),
        hop.value);
      if Acceptable(e) then Some(e) else None
  }

  function LStripPlain(s: string): string {
    if s != "" && s[0] in " \t\r\n" then LStripPlain(s[1..]) else s
  }

  datatype Message = Message(envelope: Envelope, body: string)

  // A text without shown prefix.
  function DecodeMarked(value: string): Option<Message> {
    if !(MARKER <= value) then None
    else
      match ParseObject(LStrip(value[|MARKER|..]))
      case None => None
      case Some(header) =>
        match ReadEnvelope(header.part)
        case None => None
        case Some(e) => Some(Message(e, LStripPlain(header.rest)))
  }

  function Decode(text: string): Option<Message> {
    DecodeMarked(DropPrefix(Strip(text)))
  }

  // ------------------------------------------------------------------ Reading back a printed header

  // What decoding makes of the fields: outer white space goes, the type is in lower case.
  function Normalize(e: Envelope): Envelope {
    Envelope(e.version, Strip(e.fromId), Strip(e.toId), Lower(Strip(e.messageType)), Strip(e.messageId),
      if e.replyTo.Some? then Optional(Strip(e.replyTo.value)) else None, e.hop)
  }

  function Result(e: Envelope, body: string): Option<Message> {
    if Acceptable(Normalize(e)) then Some(Message(Normalize(e), body)) else None
  }

  lemma CollectCons(f: Field, rest: seq<Field>, seen: map<string, Value>)
    ensures Collect([f] + rest, seen) == Collect(rest, seen[f.key := f.value])
  {
    assert ([f] + rest)[1..] == rest;
  }

  lemma CollectThree(a: Field, b: Field, c: Field, rest: seq<Field>, seen: map<string, Value>)
    ensures Collect([a, b, c] + rest, seen) == Collect(rest, seen[a.key := a.value][b.key := b.value][c.key := c.value])
  {
    assert [a, b, c] + rest == [a] + ([b] + ([c] + rest));
    CollectCons(a, [b] + ([c] + rest), seen);
    CollectCons(b, [c] + rest, seen[a.key := a.value]);
    CollectCons(c, rest, seen[a.key := a.value][b.key := b.value]);
  }

  function HeaderMap(e: Envelope): map<string, Value> {
    var six := map["from" := Str(e.fromId), "hop" := Num(e.hop), "id" := Str(e.messageId),
                   "to" := Str(e.toId), "type" := Str(e.messageType), "v" := Num(e.version)];
    if e.replyTo.Some? && e.replyTo.value != "" then six["reply_to" := Str(e.replyTo.value)] else six
  }

  lemma HeaderCollect(e: Envelope)
    ensures Collect(HeaderFields(e), map[]) == HeaderMap(e)
  {
    var a, b, c := Field("from", Str(e.fromId)), Field("hop", Num(e.hop)), Field("id", Str(e.messageId));
    var x, y, z := Field("to", Str(e.toId)), Field("type", Str(e.messageType)), Field("v", Num(e.version));
    var none: map<string, Value> := map[];
    var start := none[a.key := a.value][b.key := b.value][c.key := c.value];
    var after := [x, y, z] + [];
    assert after == [x, y, z];
    if e.replyTo.Some? && e.replyTo.value != "" {
      var r := Field("reply_to", Str(e.replyTo.value));
      assert HeaderFields(e) == [a, b, c] + ([r] + after);
      CollectThree(a, b, c, [r] + after, none);
      CollectCons(r, after, start);
      CollectThree(x, y, z, [], start[r.key := r.value]);
    } else {
      assert HeaderFields(e) == [a, b, c] + after;
      CollectThree(a, b, c, after, none);
      CollectThree(x, y, z, [], start);
    }
  }

  lemma TextsRead(e: Envelope)
    ensures var raw := HeaderMap(e);
      && TextOf(raw, "from") == e.fromId && TextOf(raw, "to") == e.toId && TextOf(raw, "type") == e.messageType
      && TextOf(raw, "id") == e.messageId
      && TextOf(raw, "reply_to") == (if e.replyTo.Some? then e.replyTo.value else "")
      && IntOf(raw, "v") == Some(e.version) && IntOf(raw, "hop") == Some(e.hop)
  {
  }

  lemma HeaderRead(e: Envelope)
    ensures ReadEnvelope(Collect(HeaderFields(e), map[])) ==
      if Acceptable(Normalize(e)) then Some(Normalize(e)) else None
  {
    HeaderCollect(e);
    TextsRead(e);
    assert Strip("") == "";
  }

  lemma HeaderEnds(e: Envelope)
    ensures Header(e) != "" && Header(e)[0] == '{' && Header(e)[|Header(e)| - 1] == '}'
  {
  }

  lemma BehindMarker(s: string)
    ensures MARKER <= MARKER + s && (MARKER + s)[|MARKER|..] == s
  {
  }

  lemma LStripFrom(a: string, b: string)
    requires StartsSolid(a)
    ensures LStrip(a + b) == a + b
  {
  }

  /** Whatever follows the header becomes the body, less leading white space. */
  lemma MarkedBack(e: Envelope, tail: string)
    ensures DecodeMarked(MARKER + (Header(e) + tail)) == Result(e, LStripPlain(tail))
  {
    var value := MARKER + (Header(e) + tail);
    ObjectBack(HeaderFields(e), tail);
    HeaderRead(e);
    BehindMarker(Header(e) + tail);
    HeaderEnds(e);
    LStripFrom(Header(e), tail);
  }

  // ------------------------------------------------------------------ Round trips

  // What follows the header: nothing, or a separator and the body.
  function Tail(sep: char, t: string): string {
    if t == "" then "" else [sep] + t
  }

  predicate Stripped(t: string) {
    t == "" || (StartsSolid(t) && EndsSolid(t))
  }

  lemma TailStrips(sep: char, t: string)
    requires sep in " \n" && Stripped(t)
    ensures LStripPlain(Tail(sep, t)) == t
  {
    assert t != "" ==> LStripPlain(t) == t && Tail(sep, t)[1..] == t;
  }

  lemma RStripTail(head: string, t: string)
    requires EndsSolid(head) && Stripped(t)
    ensures RStrip(head + "\n" + t) == head + Tail('\n', t) && EndsSolid(head + Tail('\n', t))
  {
    if t == "" {
      EmptyPlus(head);
      EmptyPlus(head + "\n");
      RStripBlank(head, "\n");
    } else {
      Whitespace.Reassociate(head, "\n", t);
      EndsWith(head + "\n", t);
    }
  }

  lemma EndsWith(a: string, b: string)
    requires EndsSolid(b)
    ensures EndsSolid(a + b)
  {
  }

  function Head(e: Envelope): string {
    MARKER + Header(e)
  }

  lemma HeadEnds(e: Envelope)
    ensures EndsSolid(Head(e)) && MARKER <= Head(e)
  {
    HeaderEnds(e);
    assert Head(e)[|Head(e)| - 1] == Header(e)[|Header(e)| - 1] == '}';
  }

  lemma EncodeShape(e: Envelope, body: string)
    ensures Encode(e, body) == Head(e) + Tail('\n', Strip(body)) && Marked(Encode(e, body))
  {
    HeadEnds(e);
    RStripTail(Head(e), Strip(body));
  }

  lemma TailDecodes(e: Envelope, sep: char, t: string)
    requires sep in " \n" && Stripped(t)
    ensures DecodeMarked(Head(e) + Tail(sep, t)) == Result(e, t)
  {
    Whitespace.Reassociate(MARKER, Header(e), Tail(sep, t));
    TailStrips(sep, t);
    MarkedBack(e, Tail(sep, t));
  }

  predicate Marked(m: string) {
    MARKER <= m && EndsSolid(m)
  }

  lemma NotShown(m: string)
    requires MARKER <= m
    ensures DropPrefix(m) == m
  {
    assert m[0] == '[' && m[1] == 'W';
    assert LStrip(m) == m;
    assert Lower(m[1..6])[0] == 'w';
  }

  lemma PlainDecodes(m: string)
    requires Marked(m)
    ensures Decode(m) == DecodeMarked(m)
  {
    NotShown(m);
    assert m[0] == '[';
    StripBlank("", m);
    EmptyPlus(m);
  }

  /** Decoding what encoding gives: exactly the acceptable envelopes come back, normalized, with the stripped body. */
  lemma RoundTrip(e: Envelope, body: string)
    ensures Decode(Encode(e, body)) == Result(e, Strip(body))
  {
    EncodeShape(e, body);
    PlainDecodes(Encode(e, body));
    TailDecodes(e, '\n', Strip(body));
  }

  // The shown prefix of a bot: "[AGENT...]" with the word in any case.
  function Shown(word: string, tag: string): string {
    "[" + word + tag + "]"
  }

  predicate IsPrefix(word: string, tag: string) {
    Lower(word) == "agent" && ']' !in tag
  }

  lemma {:induction false} CloseAtTag(tag: string, rest: string)
    requires ']' !in tag
    ensures CloseAt(tag + ("]" + rest)) == |tag|
    decreases |tag|
  {
    if tag == "" {
      assert tag + ("]" + rest) == "]" + rest;
    } else {
      assert (tag + ("]" + rest))[1..] == tag[1..] + ("]" + rest);
      CloseAtTag(tag[1..], rest);
    }
  }

  lemma DropShown(word: string, tag: string, gap: string, m: string)
    requires IsPrefix(word, tag) && Blank(gap) && StartsSolid(m)
    ensures DropPrefix(Shown(word, tag) + (gap + m)) == m
  {
    var v := Shown(word, tag) + (gap + m);
    assert |word| == 5;
    assert v[0] == '[' && !IsSpace('[') && v[1..6] == word;
    assert v[6..] == tag + ("]" + (gap + m));
    CloseAtTag(tag, gap + m);
    assert v[6 + |tag| + 1..] == gap + m;
    LStripBlank(gap, m);
  }

  lemma ShownDecodes(lead: string, word: string, tag: string, gap: string, m: string)
    requires IsPrefix(word, tag) && Blank(lead) && Blank(gap) && Marked(m)
    ensures Decode(lead + (Shown(word, tag) + (gap + m))) == DecodeMarked(m)
  {
    var v := Shown(word, tag) + (gap + m);
    assert m[0] == '[' && v[0] == '[' && v[|v| - 1] == m[|m| - 1];
    StripBlank(lead, v);
    DropShown(word, tag, gap, m);
  }

  /** A shown prefix, with white space around it, changes nothing. */
  lemma RoundTripWithPrefix(lead: string, word: string, tag: string, gap: string, e: Envelope, body: string)
    requires IsPrefix(word, tag) && Blank(lead) && Blank(gap)
    ensures Decode(lead + (Shown(word, tag) + (gap + Encode(e, body)))) == Result(e, Strip(body))
  {
    EncodeShape(e, body);
    TailDecodes(e, '\n', Strip(body));
    ShownDecodes(lead, word, tag, gap, Encode(e, body));
  }

  // ------------------------------------------------------------------ After the transport collapsed white space

  predicate Solid(s: string) {
    forall i :: 0 <= i < |s| ==> !IsSpace(s[i])
  }

  predicate Plain(s: string) {
    forall i :: 0 <= i < |s| ==> IdChar(s[i]) || s[i] == '*'
  }

  lemma {:induction false} PlainQuote(s: string)
    requires Plain(s)
    ensures Solid(EscapeAll(s)) && Solid(Quote(s))
    decreases |s|
  {
    if s != "" {
      PlainQuote(s[1..]);
      assert Escape(s[0]) == [s[0]];
    }
  }

  predicate PlainField(f: Field) {
    Plain(f.key) && (f.value.Str? ==> Plain(f.value.s))
  }

  lemma PlainPrint(f: Field)
    requires PlainField(f)
    ensures Solid(PrintField(f))
  {
    PlainQuote(f.key);
    if f.value.Str? {
      PlainQuote(f.value.s);
    } else {
      IntSolid(f.value.n);
    }
  }

  lemma IntSolid(n: int)
    ensures Solid(PrintInt(n))
  {
    DigitsAre(if n < 0 then -n else n);
    assert forall c: char :: IsDigit(c) ==> !IsSpace(c);
  }

  lemma {:induction false} FieldsSolid(fields: seq<Field>)
    requires forall i :: 0 <= i < |fields| ==> PlainField(fields[i])
    ensures Solid(PrintFields(fields))
    decreases |fields|
  {
    if fields != [] {
      PlainPrint(fields[0]);
      FieldsSolid(fields[1..]);
    }
  }

  predicate PlainFields(fields: seq<Field>) {
    forall i :: 0 <= i < |fields| ==> PlainField(fields[i])
  }

  lemma HeaderPlain(e: Envelope)
    requires Acceptable(e)
    ensures PlainFields(HeaderFields(e))
  {
    assert Plain("from") && Plain("hop") && Plain("id") && Plain("reply_to") && Plain("to") && Plain("type")
        && Plain("v");
    assert Plain("request") && Plain("response") && Plain("event") && Plain("*");
    var start := [Field("from", Str(e.fromId)), Field("hop", Num(e.hop)), Field("id", Str(e.messageId))];
    var end := [Field("to", Str(e.toId)), Field("type", Str(e.messageType)), Field("v", Num(e.version))];
    assert PlainFields(start) && PlainFields(end);
    if e.replyTo.Some? && e.replyTo.value != "" {
      assert PlainFields([Field("reply_to", Str(e.replyTo.value))]);
      assert HeaderFields(e) == start + [Field("reply_to", Str(e.replyTo.value))] + end;
    } else {
      assert HeaderFields(e) == start + end;
    }
  }

  lemma HeadSolid(e: Envelope)
    requires Acceptable(e)
    ensures Word(Head(e))
  {
    HeaderPlain(e);
    FieldsSolid(HeaderFields(e));
    assert Solid("{") && Solid("}") && Solid(MARKER);
  }

  lemma CollapseTail(head: string, t: string)
    requires Word(head) && Stripped(t)
    ensures Collapse(head + Tail('\n', t)) == head + Tail(' ', Collapse(t))
  {
    CollapseOne(head);
    CollapseSolid(t);
    if t == "" {
      assert Collapse("") == "";
      EmptyPlus(head);
    } else {
      assert Blank("\n");
      CollapseConcat(head, "\n", t);
      Whitespace.Reassociate(head, " ", Collapse(t));
    }
  }

  lemma CollapsedShape(e: Envelope, body: string)
    requires Acceptable(e)
    ensures Collapse(Encode(e, body)) == Head(e) + Tail(' ', Collapse(body))
    ensures Stripped(Collapse(body)) && Marked(Collapse(Encode(e, body)))
  {
    EncodeShape(e, body);
    HeadSolid(e);
    HeadEnds(e);
    CollapseTail(Head(e), Strip(body));
    CollapseStrip(body);
    CollapseSolid(body);
    MarkedTail(Head(e), Collapse(body));
  }

  lemma MarkedTail(head: string, t: string)
    requires Marked(head) && Stripped(t)
    ensures Marked(head + Tail(' ', t))
  {
    var m := head + Tail(' ', t);
    assert m[|m| - 1] == if t == "" then head[|head| - 1] else t[|t| - 1];
  }

  predicate ValidEnvelope(e: Envelope) {
    Acceptable(e) && Normalize(e) == e
  }

  /** After all white space runs were collapsed, a valid envelope still decodes to itself, with the collapsed body. */
  lemma RoundTripCollapsed(e: Envelope, body: string)
    requires ValidEnvelope(e)
    ensures Decode(Collapse(Encode(e, body))) == Some(Message(e, Collapse(body)))
  {
    CollapsedShape(e, body);
    PlainDecodes(Collapse(Encode(e, body)));
    TailDecodes(e, ' ', Collapse(body));
  }

  /** What collapsing leaves of a shown prefix is again one. */
  lemma CollapsedTag(tag: string) returns (t: string)
    requires ']' !in tag
    ensures Collapse(tag + "]") == t + "]" && ']' !in t
  {
    var trail := RStripIs(tag);
    var a := RStrip(tag);
    assert tag + "]" == a + (trail + "]");
    assert StartsSolid("]") && Word("]");
    CollapseOne("]");
    if a == "" {
      EmptyPlus(trail + "]");
      CollapseBlank(trail, "]");
      t := "";
      EmptyPlus("]");
    } else {
      CollapseConcat(a, trail, "]");
      t := Collapse(a) + Joint(trail);
      if ']' in Collapse(a) {
        CollapseChars(a, ']');
      }
    }
  }

  lemma ShownParts(word: string, a: string, b: string)
    ensures ("[" + word) + a + (b + "]") == Shown(word, a + b)
    ensures ("[" + word) + (a + (b + "]")) == Shown(word, a + b)
  {
  }

  lemma CollapsedShown(word: string, tag: string) returns (t: string)
    requires IsPrefix(word, tag)
    ensures Collapse(Shown(word, tag)) == Shown(word, t) && ']' !in t
  {
    var inner := CollapsedTag(tag);
    OpenSolid(word);
    CollapseOne("[" + word);
    t := CollapsedOpen("[" + word, tag + "]", inner + "]");
    ShownParts(word, "", tag);
    EmptyPlus(tag);
    EmptyPlus(tag + "]");
    ShownParts(word, t, inner);
    t := t + inner;
  }

  lemma CollapsedOpen(open: string, q: string, collapsed: string) returns (joint: string)
    requires EndsSolid(open) && Collapse(open) == open && EndsSolid(q) && Collapse(q) == collapsed
    ensures Collapse(open + q) == open + joint + collapsed && joint in {"", " "}
  {
    var gap := LStripIs(q);
    LStripSolid(q);
    CollapseBlank(gap, LStrip(q));
    CollapseConcat(open, gap, LStrip(q));
    joint := Joint(gap);
  }

  lemma OpenSolid(word: string)
    requires Lower(word) == "agent"
    ensures Word("[" + word)
  {
    var open := "[" + word;
    forall i | 0 <= i < |open| ensures !IsSpace(open[i]) {
      assert i > 0 ==> LowerChar(open[i]) == "agent"[i - 1];
    }
  }

  /** So do messages with a shown prefix. */
  lemma RoundTripCollapsedWithPrefix(lead: string, word: string, tag: string, gap: string, e: Envelope, body: string)
    requires ValidEnvelope(e) && IsPrefix(word, tag) && Blank(lead) && Blank(gap)
    ensures Decode(Collapse(lead + (Shown(word, tag) + (gap + Encode(e, body))))) == Some(Message(e, Collapse(body)))
  {
    EncodeShape(e, body);
    CollapsedShape(e, body);
    TailDecodes(e, ' ', Collapse(body));
    var m := Encode(e, body);
    assert m[0] == '[';
    var t := CollapsedMessage(lead, word, tag, gap, m);
    EmptyPlus(Shown(word, t) + (Joint(gap) + Collapse(m)));
    ShownDecodes("", word, t, Joint(gap), Collapse(m));
  }

  lemma CollapsedMessage(lead: string, word: string, tag: string, gap: string, m: string) returns (t: string)
    requires IsPrefix(word, tag) && Blank(lead) && Blank(gap) && StartsSolid(m)
    ensures Collapse(lead + (Shown(word, tag) + (gap + m))) == Shown(word, t) + (Joint(gap) + Collapse(m))
    ensures ']' !in t && Blank(Joint(gap))
  {
    CollapseBlank(lead, Shown(word, tag) + (gap + m));
    ShownEnds(word, tag);
    CollapseConcat(Shown(word, tag), gap, m);
    t := CollapsedShown(word, tag);
    Whitespace.Reassociate(Shown(word, t), Joint(gap), Collapse(m));
  }

  lemma ShownEnds(word: string, tag: string)
    ensures EndsSolid(Shown(word, tag))
  {
    assert Shown(word, tag)[|Shown(word, tag)| - 1] == ']';
  }
}
