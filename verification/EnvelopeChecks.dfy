/** Which messages are taken for envelopes: what decoding lets through, and that it is stable. */
module EnvelopeChecks {
  import opened TextSplit
  import opened CodeBlocks
  import opened Whitespace
  import opened JsonText
  import opened AgentEnvelope

  predicate Identifier(s: string) {
    && 1 <= |s| <= 128
    && forall c :: c in s ==> 'A' <= c <= 'Z' || 'a' <= c <= 'z' || '0' <= c <= '9' || c in {'_', '.', ':', '-'}
  }

  /** What the protocol asks of an envelope. */
  predicate WellFormed(e: Envelope) {
    && e.version == 1
    && Identifier(e.fromId) && Identifier(e.messageId) && (Identifier(e.toId) || e.toId == "*")
    && (e.messageType == "request" || e.messageType == "response" || e.messageType == "event")
    && (e.replyTo.Some? ==> Identifier(e.replyTo.value))
    && 0 <= e.hop <= 100
  }

  lemma IdentifierIs(s: string)
    ensures ValidId(s) <==> Identifier(s)
  {
    if ValidId(s) {
      forall c | c in s ensures IdChar(c) {
        var i :| 0 <= i < |s| && s[i] == c;
      }
    }
    assert forall i :: 0 <= i < |s| ==> s[i] in s;
  }

  lemma AcceptableIs(e: Envelope)
    ensures Acceptable(e) <==> WellFormed(e)
  {
    IdentifierIs(e.fromId);
    IdentifierIs(e.toId);
    IdentifierIs(e.messageId);
    if e.replyTo.Some? {
      IdentifierIs(e.replyTo.value);
    }
  }

  /** Whatever text arrives, only a well-formed envelope comes out of it, and only behind the marker. */
  lemma DecodedIsWellFormed(text: string)
    requires Decode(text).Some?
    ensures WellFormed(Decode(text).value.envelope)
    ensures MARKER <= DropPrefix(Strip(text))
  {
    AcceptableIs(Decode(text).value.envelope);
  }

  lemma SolidStays(s: string)
    requires Identifier(s)
    ensures Strip(s) == s
  {
    assert s[0] in s && s[|s| - 1] in s;
  }

  /** Case is that of the Latin letters, and white space what the chat transport collapses. */
  lemma LowerAndSpace(c: char)
    ensures Lower("ABCDEFGHIJKLMNOPQRSTUVWXYZ") == "abcdefghijklmnopqrstuvwxyz"
    ensures !('A' <= c <= 'Z') ==> Lower([c]) == [c]
    ensures c in {' ', '\t', '\n', '\r'} ==> IsSpace(c)
    ensures '!' <= c <= '~' ==> !IsSpace(c)
  {
  }

  lemma LowerStays(s: string)
    requires forall i :: 0 <= i < |s| ==> 'a' <= s[i] <= 'z'
    ensures Lower(s) == s && (s != "" ==> Strip(s) == s)
  {
  }

  /** A well-formed envelope has nothing to normalize. */
  lemma WellFormedIsNormal(e: Envelope)
    requires WellFormed(e)
    ensures Normalize(e) == e
  {
    SolidStays(e.fromId);
    SolidStays(e.messageId);
    LowerStays(e.messageType);
    if e.toId != "*" {
      SolidStays(e.toId);
    }
    if e.replyTo.Some? {
      SolidStays(e.replyTo.value);
    }
  }

  /** An envelope is read back as it is exactly when it is well formed. */
  lemma ReadBackExactly(e: Envelope, body: string)
    ensures Decode(Encode(e, body)) == Some(Message(e, Strip(body))) <==> WellFormed(e)
  {
    RoundTrip(e, body);
    AcceptableIs(Normalize(e));
    if WellFormed(e) {
      WellFormedIsNormal(e);
    }
  }

  /** What has been decoded, from whatever text, is read back when it is sent on. */
  lemma DecodedIsStable(text: string)
    requires Decode(text).Some?
    ensures var m := Decode(text).value; Decode(Encode(m.envelope, m.body)) == Some(Message(m.envelope, Strip(m.body)))
  {
    DecodedIsWellFormed(text);
    ReadBackExactly(Decode(text).value.envelope, Decode(text).value.body);
  }

  lemma DigitsSolid(n: nat)
    ensures StartsSolid(Digits(n)) && EndsSolid(Digits(n)) && DigitRun(Digits(n)) == |Digits(n)|
  {
    DigitsAre(n);
    assert IsDigit(Digits(n)[0]) && IsDigit(Digits(n)[|Digits(n)| - 1]);
  }

  /** Version and hop may also come as text; other text is refused, an absent field counts as 0. */
  lemma NumberAsText(raw: map<string, Value>, key: string, n: nat, lead: string, trail: string)
    requires Blank(lead) && Blank(trail)
    ensures IntOf(raw[key := Str(lead + (Digits(n) + trail))], key) == Some(n)
    ensures IntOf(raw[key := Str(lead)], key) == None && IntOf(raw - {key}, key) == Some(0)
  {
    DigitsSolid(n);
    DigitsAre(n);
    LStripBlank(lead, Digits(n) + trail);
    RStripBlank(Digits(n), trail);
    assert lead + "" == lead;
    LStripBlank(lead, "");
  }
}
