/** Commands that a peer's request may consist of (workbot/main.py): `/agent discover` and `/agent send`. */
module PeerCommands {
  import opened TextSplit
  import opened Whitespace
  import opened JsonText
  import opened AgentEnvelope

  datatype Command = Discover | Forward(peer: string, body: string) | Other

  // The rest after a word (given in lower case) and at least one white space.
  function AfterWord(s: string, word: string): (r: Option<string>)
    ensures r.Some? ==> |r.value| < |s| || word == ""
  {
    if |s| > |word| && Lower(s[..|word|]) == word && IsSpace(s[|word|]) then Some(LStrip(s[|word|..])) else None
  }

  function IdRun(s: string): (k: nat)
    ensures k <= |s| && (k < |s| ==> !IdChar(s[k])) && forall i :: 0 <= i < k ==> IdChar(s[i])
  {
    if s != "" && IdChar(s[0]) then
      var k := IdRun(s[1..]);
      assert forall i :: 1 <= i < k + 1 ==> s[i] == s[1..][i - 1];
      1 + k
    else 0
  }

  function ForwardOf(text: string): (r: Command)
    ensures r.Forward? ==> |r.body| < |text|
  {
    match AfterWord(text, "/agent")
    case None => Other
    case Some(a) =>
      match AfterWord(a, "send")
      case None => Other
      case Some(b) =>
        var k := IdRun(b);
        if 1 <= k <= 128 && k < |b| && IsSpace(b[k]) && Strip(b[k..]) != "" then
          Forward(b[..k], Strip(b[k..]))
        else Other
  }

  function CommandOf(body: string): (r: Command)
    ensures r.Forward? ==> |r.body| < |body|
  {
    var text := Strip(body);
    if Lower(text) == "/agent discover" then Discover else ForwardOf(text)
  }

  // ------------------------------------------------------------------ What is read

  // `/agent send <peer> <body>`, word by word with the white space between them and at both ends.
  datatype Spelling = Spelling(
    lead: string, agent: string, gap1: string, send: string, gap2: string, peer: string, gap3: string, body: string,
    trail: string)

  predicate Gap(s: string) {
    s != "" && Blank(s)
  }

  function Words(p: Spelling): string {
    p.agent + (p.gap1 + (p.send + (p.gap2 + (p.peer + (p.gap3 + p.body)))))
  }

  predicate Spelled(p: Spelling) {
    && Lower(p.agent) == "/agent" && Lower(p.send) == "send"
    && Gap(p.gap1) && Gap(p.gap2) && Gap(p.gap3)
    && ValidId(p.peer) && StartsSolid(p.body) && EndsSolid(p.body)
  }

  /** The text is this spelling of a command to send `body` to `peer`, in any case and with any white space. */
  predicate Spells(text: string, p: Spelling) {
    Spelled(p) && Blank(p.lead) && Blank(p.trail) && text == p.lead + (Words(p) + p.trail)
  }

  lemma AfterWordRead(c: string, gap: string, rest: string, word: string)
    requires Lower(c) == word && Gap(gap) && StartsSolid(rest)
    ensures AfterWord(c + (gap + rest), word) == Some(rest)
  {
    var s := c + (gap + rest);
    assert s[..|word|] == c && s[|word|..] == gap + rest && s[|word|] == gap[0];
    LStripBlank(gap, rest);
  }

  lemma AfterWordIs(s: string, word: string) returns (c: string, gap: string)
    requires AfterWord(s, word).Some?
    ensures s == c + (gap + AfterWord(s, word).value) && Lower(c) == word && Gap(gap)
  {
    c := s[..|word|];
    gap := LStripIs(s[|word|..]);
    assert s == c + s[|word|..] && s[|word|..][0] == s[|word|];
  }

  lemma {:induction false} IdRunWhole(peer: string, rest: string)
    requires (forall i :: 0 <= i < |peer| ==> IdChar(peer[i])) && rest != "" && !IdChar(rest[0])
    ensures IdRun(peer + rest) == |peer|
    decreases |peer|
  {
    if peer == "" {
      assert peer + rest == rest;
    } else {
      assert (peer + rest)[1..] == peer[1..] + rest;
      IdRunWhole(peer[1..], rest);
    }
  }

  lemma SpacesAreNoIds(gap: string)
    requires Gap(gap)
    ensures !IdChar(gap[0])
  {
    assert IsSpace(gap[0]);
  }

  lemma PeerRead(p: Spelling)
    requires ValidId(p.peer) && Gap(p.gap3) && StartsSolid(p.body) && EndsSolid(p.body)
    ensures var b := p.peer + (p.gap3 + p.body); var k := IdRun(b);
      && k == |p.peer| && k < |b| && IsSpace(b[k]) && b[..k] == p.peer && Strip(b[k..]) == p.body
      && StartsSolid(b)
  {
    var b := p.peer + (p.gap3 + p.body);
    SpacesAreNoIds(p.gap3);
    IdRunWhole(p.peer, p.gap3 + p.body);
    assert b[..|p.peer|] == p.peer && b[|p.peer|..] == p.gap3 + p.body;
    StripBlank(p.gap3, p.body);
    assert IdChar(b[0]) && b[|p.peer|] == p.gap3[0];
  }

  lemma WordsRead(p: Spelling)
    requires Lower(p.agent) == "/agent" && Lower(p.send) == "send" && Gap(p.gap1) && Gap(p.gap2)
    requires StartsSolid(p.peer + (p.gap3 + p.body))
    ensures var b := p.peer + (p.gap3 + p.body); var a := p.send + (p.gap2 + b);
      AfterWord(Words(p), "/agent") == Some(a) && AfterWord(a, "send") == Some(b)
  {
    var b := p.peer + (p.gap3 + p.body);
    AfterWordRead(p.send, p.gap2, b, "send");
    assert Lower(p.send)[0] == 's' && (p.send + (p.gap2 + b))[0] == p.send[0];
    AfterWordRead(p.agent, p.gap1, p.send + (p.gap2 + b), "/agent");
  }

  lemma ForwardRead(p: Spelling, text: string)
    requires Spells(text, p)
    ensures CommandOf(text) == Forward(p.peer, p.body)
  {
    StripWords(p, text);
    PeerRead(p);
    WordsRead(p);
    NotDiscover(p);
  }

  lemma StripWords(p: Spelling, text: string)
    requires Spells(text, p)
    ensures Strip(text) == Words(p)
  {
    var words := Words(p);
    assert Lower(p.agent)[0] == '/' && words[0] == p.agent[0];
    assert words == (p.agent + (p.gap1 + (p.send + (p.gap2 + (p.peer + p.gap3))))) + p.body;
    LStripBlank(p.lead, words + p.trail);
    RStripBlank(words, p.trail);
  }

  lemma NotDiscover(p: Spelling)
    requires Lower(p.agent) == "/agent" && Lower(p.send) == "send" && Gap(p.gap1)
    ensures Lower(Words(p)) != "/agent discover"
  {
    var words := Words(p);
    assert words[|p.agent|] == p.gap1[0];
    if |p.gap1| > 1 {
      assert words[7] == p.gap1[1];
    } else {
      assert words[7] == p.send[0] && Lower(p.send)[0] == 's';
    }
    assert Lower(words)[7] != 'd' && "/agent discover"[7] == 'd';
  }

  lemma EndKept(s: string, c: string, gap: string, rest: string)
    requires s == c + (gap + rest) && rest != "" && EndsSolid(s)
    ensures EndsSolid(rest)
  {
    assert s[|s| - 1] == rest[|rest| - 1];
  }

  lemma ForwardParts(v: string) returns (p: Spelling)
    requires ForwardOf(v).Forward? && EndsSolid(v)
    ensures Spelled(p) && Words(p) == v
    ensures p.peer == ForwardOf(v).peer && p.body == ForwardOf(v).body
  {
    var agent, gap1 := AfterWordIs(v, "/agent");
    var a := AfterWord(v, "/agent").value;
    EndKept(v, agent, gap1, a);
    var send, gap2, peer, gap3, body := SendParts(a);
    p := Spelling("", agent, gap1, send, gap2, peer, gap3, body, "");
  }

  lemma SendParts(a: string) returns (send: string, gap2: string, peer: string, gap3: string, body: string)
    requires AfterWord(a, "send").Some? && EndsSolid(a)
    requires var b := AfterWord(a, "send").value; var k := IdRun(b);
      1 <= k <= 128 && k < |b| && IsSpace(b[k]) && Strip(b[k..]) != ""
    ensures a == send + (gap2 + (peer + (gap3 + body))) && Lower(send) == "send" && Gap(gap2) && Gap(gap3)
    ensures ValidId(peer) && StartsSolid(body) && EndsSolid(body)
    ensures var b := AfterWord(a, "send").value; peer == b[..IdRun(b)] && body == Strip(b[IdRun(b)..])
  {
    send, gap2 := AfterWordIs(a, "send");
    var b := AfterWord(a, "send").value;
    EndKept(a, send, gap2, b);
    peer := b[..IdRun(b)];
    gap3, body := BodyOf(b, IdRun(b));
  }

  lemma ForwardIs(text: string) returns (p: Spelling)
    requires CommandOf(text).Forward?
    ensures Spells(text, p) && p.peer == CommandOf(text).peer && p.body == CommandOf(text).body
  {
    var lead := LStripIs(text);
    var trail := RStripIs(LStrip(text));
    var v := Strip(text);
    assert AfterWord(v, "/agent").Some?;
    var inner := ForwardParts(v);
    p := inner.(lead := lead, trail := trail);
    assert Words(p) == Words(inner) == v;
  }

  lemma BodyOf(b: string, k: nat) returns (gap: string, body: string)
    requires k < |b| && IsSpace(b[k]) && EndsSolid(b) && Strip(b[k..]) != ""
    ensures Gap(gap) && StartsSolid(body) && EndsSolid(body) && body == Strip(b[k..])
    ensures b == b[..k] + (gap + body)
  {
    gap := LStripIs(b[k..]);
    body := LStrip(b[k..]);
    assert EndsSolid(b[k..]) && b[k..][0] == b[k];
    LStripSolid(b[k..]);
    assert b == b[..k] + b[k..];
  }

  /** A request body is taken for a command to send exactly when it is spelled so, with just that peer and body. */
  lemma CommandExactly(text: string, peer: string, body: string)
    ensures CommandOf(text) == Forward(peer, body) <==> exists p :: Spells(text, p) && p.peer == peer && p.body == body
  {
    if CommandOf(text) == Forward(peer, body) {
      var p := ForwardIs(text);
    } else {
      forall p | Spells(text, p) ensures p.peer != peer || p.body != body {
        ForwardRead(p, text);
      }
    }
  }
}
