/** The whole splitter over parsed segments (split_welink_markdown in workbot/im/welink_format.py). */
module ReplySplit {
  import opened TextSplit
  import opened CodeBlocks
  import opened MessagePack

  // What the Markdown parser finds; `lines` is the code cut at its line ends.
  datatype Segment = Text(text: string) | CodeSegment(language: string, code: string, lines: seq<string>)

  /** Parsed segments: text is not empty and, after a code block, starts with the line break behind the fence. */
  predicate Parsed(segments: seq<Segment>) {
    && (forall i :: 0 <= i < |segments| ==> ParsedOne(segments[i]))
    && (forall i :: 0 < i < |segments| ==> Follows(segments[i - 1], segments[i]))
  }

  predicate ParsedOne(s: Segment) {
    match s
    case Text(text) => text != ""
    case CodeSegment(_, code, lines) => Concat(lines) == code && forall l :: l in lines ==> l != ""
  }

  predicate Follows(a: Segment, b: Segment) {
    a.CodeSegment? && b.Text? ==> b.text != "" && b.text[0] == '\n'
  }

  // ------------------------------------------------------------------ Every character of the source

  datatype SourceChar = InText(c: char) | InCode(language: string, c: char)

  function TextChars(s: string): seq<SourceChar> {
    seq(|s|, i requires 0 <= i < |s| => InText(s[i]))
  }

  function CodeChars(language: string, s: string): seq<SourceChar> {
    seq(|s|, i requires 0 <= i < |s| => InCode(language, s[i]))
  }

  function AtomSource(a: Atom): seq<SourceChar> {
    if a.TextAtom? then TextChars(a.text) else CodeChars(a.block.language, a.block.code)
  }

  function AtomsSource(atoms: seq<Atom>): seq<SourceChar> {
    if atoms == [] then [] else AtomsSource(atoms[..|atoms| - 1]) + AtomSource(atoms[|atoms| - 1])
  }

  function SegmentSource(s: Segment): seq<SourceChar> {
    if s.Text? then TextChars(s.text) else CodeChars(s.language, s.code)
  }

  function Source(segments: seq<Segment>): seq<SourceChar> {
    if segments == [] then [] else Source(segments[..|segments| - 1]) + SegmentSource(segments[|segments| - 1])
  }

  // ------------------------------------------------------------------ Atoms of one segment

  function TextAtoms(pieces: seq<string>): (atoms: seq<Atom>)
    ensures |atoms| == |pieces| && forall i :: 0 <= i < |atoms| ==> atoms[i] == TextAtom(pieces[i])
  {
    seq(|pieces|, i requires 0 <= i < |pieces| => TextAtom(pieces[i]))
  }

  function CodeAtoms(language: string, parts: seq<string>): (atoms: seq<Atom>)
    ensures |atoms| == |parts| && forall i :: 0 <= i < |atoms| ==> atoms[i] == CodeAtom(Block(language, parts[i]))
  {
    seq(|parts|, i requires 0 <= i < |parts| => CodeAtom(Block(language, parts[i])))
  }

  lemma {:induction false} TextAtomsSource(pieces: seq<string>)
    ensures AtomsSource(TextAtoms(pieces)) == TextChars(Concat(pieces))
    decreases |pieces|
  {
    if pieces != [] {
      var n := |pieces| - 1;
      assert TextAtoms(pieces)[..n] == TextAtoms(pieces[..n]);
      TextAtomsSource(pieces[..n]);
      ConcatAppend(pieces[..n], pieces[n]);
      assert pieces[..n] + [pieces[n]] == pieces;
    }
  }

  lemma {:induction false} CodeAtomsSource(language: string, parts: seq<string>)
    ensures AtomsSource(CodeAtoms(language, parts)) == CodeChars(language, Concat(parts))
    decreases |parts|
  {
    if parts != [] {
      var n := |parts| - 1;
      assert CodeAtoms(language, parts)[..n] == CodeAtoms(language, parts[..n]);
      CodeAtomsSource(language, parts[..n]);
      ConcatAppend(parts[..n], parts[n]);
      assert parts[..n] + [parts[n]] == parts;
    }
  }

  lemma {:induction false} AtomsSourceConcat(a: seq<Atom>, b: seq<Atom>)
    ensures AtomsSource(a + b) == AtomsSource(a) + AtomsSource(b)
    decreases |b|
  {
    if b == [] {
      assert a + b == a;
    } else {
      var n := |b| - 1;
      assert (a + b)[..|a + b| - 1] == a + b[..n] && (a + b)[|a + b| - 1] == b[n];
      AtomsSourceConcat(a, b[..n]);
      Regroup(AtomsSource(a), AtomsSource(b[..n]), AtomSource(b[n]));
    }
  }

  lemma Regroup(a: seq<SourceChar>, b: seq<SourceChar>, c: seq<SourceChar>)
    ensures (a + b) + c == a + (b + c)
  {
  }

  lemma WellFormedConcat(a: seq<Atom>, b: seq<Atom>, limit: nat)
    requires WellFormed(a, limit) && WellFormed(b, limit)
    requires a != [] && b != [] && a[|a| - 1].CodeAtom? && b[0].TextAtom? ==> b[0].text[0] == '\n'
    ensures WellFormed(a + b, limit)
  {
    var all := a + b;
    assert forall i :: 0 <= i < |all| ==> all[i] == if i < |a| then a[i] else b[i - |a|];
    forall i | 0 < i < |all| && all[i].TextAtom? && all[i - 1].CodeAtom? ensures all[i].text[0] == '\n' {
      if i > |a| {
        assert b[i - |a|].TextAtom? && b[i - |a| - 1].CodeAtom?;
      }
    }
  }

  method AtomizeText(text: string, limit: nat) returns (atoms: seq<Atom>)
    requires limit >= 256 && text != ""
    ensures WellFormed(atoms, limit) && AtomsSource(atoms) == TextChars(text) && atoms != []
    ensures forall i :: 0 <= i < |atoms| ==> atoms[i].TextAtom?
    ensures atoms[0].text[0] == text[0]
  {
    var pieces := SplitPlainText(text, limit);
    PiecesFit(text, limit);
    PiecesKeepText(text, limit);
    TextAtomsSource(pieces);
    assert forall i :: 0 <= i < |pieces| ==> Piece(pieces[i], limit);
    atoms := TextAtoms(pieces);
  }

  method AtomizeCode(language: string, code: string, lines: seq<string>, limit: nat) returns (atoms: seq<Atom>)
    requires limit >= 256 && Concat(lines) == code && forall l :: l in lines ==> l != ""
    ensures WellFormed(atoms, limit) && AtomsSource(atoms) == CodeChars(language, code)
    ensures forall i :: 0 <= i < |atoms| ==> atoms[i].CodeAtom?
  {
    var parts := SplitCodeSegment(code, language, lines, limit);
    CodeAtomsSource(language, parts);
    PartsFit(parts, code, lines, language, limit);
    CodeWellFormed(parts, language, limit);
    atoms := CodeAtoms(language, parts);
  }

  lemma PartsFit(parts: seq<string>, code: string, lines: seq<string>, language: string, limit: nat)
    requires if CodeFits(code, language, limit) then parts == [code] else GoodParts(parts, lines, language, limit)
    ensures forall i :: 0 <= i < |parts| ==> CodeFits(parts[i], language, limit)
  {
    forall i | 0 <= i < |parts| ensures CodeFits(parts[i], language, limit) {
      assert !CodeFits(code, language, limit) ==> GoodPart(parts[i], lines, language, limit);
    }
  }

  lemma CodeWellFormed(parts: seq<string>, language: string, limit: nat)
    requires forall i :: 0 <= i < |parts| ==> CodeFits(parts[i], language, limit)
    ensures WellFormed(CodeAtoms(language, parts), limit)
  {
  }

  /** Cut one segment; every character stays, in order. */
  method Atomize(s: Segment, limit: nat) returns (atoms: seq<Atom>)
    requires limit >= 256 && ParsedOne(s)
    ensures WellFormed(atoms, limit) && AtomsSource(atoms) == SegmentSource(s)
    ensures s.CodeSegment? ==> forall i :: 0 <= i < |atoms| ==> atoms[i].CodeAtom?
    ensures s.Text? ==> atoms != [] && forall i :: 0 <= i < |atoms| ==> atoms[i].TextAtom?
    ensures s.Text? ==> atoms[0].text[0] == s.text[0]
  {
    if s.Text? {
      atoms := AtomizeText(s.text, limit);
    } else {
      atoms := AtomizeCode(s.language, s.code, s.lines, limit);
    }
  }

  /** Every message renders within max(256, maxChars) characters, with at most one native code block and complete
      fences. The atoms are the source cut into pieces, without losing, adding or moving a character; the messages
      carry the atoms in order, up to line breaks of text. */
  method SplitReply(segments: seq<Segment>, maxChars: int) returns (messages: seq<Msg>, ghost atoms: seq<Atom>)
    requires Parsed(segments)
    ensures messages != [] && AllGood(messages, if maxChars < 256 then 256 else maxChars)
    ensures AllItems(messages) == AtomItems(atoms) && AtomsSource(atoms) == Source(segments)
  {
    var limit: nat := if maxChars < 256 then 256 else maxChars;
    var pieces: seq<Atom> := [];
    for i := 0 to |segments|
      invariant WellFormed(pieces, limit) && AtomsSource(pieces) == Source(segments[..i])
      invariant pieces != [] && pieces[|pieces| - 1].CodeAtom? ==> i > 0 && segments[i - 1].CodeSegment?
    {
      var more := Atomize(segments[i], limit);
      assert segments[..i + 1][..i] == segments[..i];
      AtomsSourceConcat(pieces, more);
      assert i > 0 ==> Follows(segments[i - 1], segments[i]);
      WellFormedConcat(pieces, more, limit);
      pieces := pieces + more;
    }
    assert segments[..|segments|] == segments;
    messages := Pack(pieces, limit);
    atoms := pieces;
  }
}
