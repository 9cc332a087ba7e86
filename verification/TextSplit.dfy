/** Splitting plain text for the chat transport (workbot/im/welink_format.py): preferred cut points and the pieces they
    give. */
module TextSplit {

  datatype Break = Paragraph | Line | Sentence | Space

  const PUNCTUATION := "\U{3002}\U{FF01}\U{FF1F}\U{FF1B}.!?;"

  predicate IsSpace(c: char) {
    var n := c as int;
    || 9 <= n <= 13 || 28 <= n <= 32 || n == 0x85 || n == 0xA0 || n == 0x1680 || 0x2000 <= n <= 0x200A
    || n == 0x2028 || n == 0x2029 || n == 0x202F || n == 0x205F || n == 0x3000
  }

  /** A cut after the first `cut` characters ends a paragraph, line, sentence or word. */
  predicate EndsAt(text: string, cut: nat, kind: Break)
    requires cut <= |text|
  {
    match kind
    case Paragraph => cut >= 2 && text[cut - 2] == '\n' && text[cut - 1] == '\n'
    case Line => cut >= 1 && text[cut - 1] == '\n'
    case Sentence => cut >= 1 && text[cut - 1] in PUNCTUATION
    case Space => cut >= 1 && IsSpace(text[cut - 1])
  }

  /** The greatest cut between lo and hi of that kind; 0 when there is none. */
  ghost predicate IsLast(text: string, kind: Break, lo: nat, hi: nat, cut: nat)
    requires hi <= |text|
  {
    if cut == 0 then forall i :: lo <= i <= hi ==> !EndsAt(text, i, kind)
    else lo <= cut <= hi && EndsAt(text, cut, kind) && forall i :: cut < i <= hi ==> !EndsAt(text, i, kind)
  }

  function LastBreak(text: string, kind: Break, lo: nat, hi: nat): (cut: nat)
    requires hi <= |text| && lo >= 1
    ensures IsLast(text, kind, lo, hi, cut)
    decreases hi
  {
    if hi < lo then 0 else if EndsAt(text, hi, kind) then hi else LastBreak(text, kind, lo, hi - 1)
  }

  function MaxNat(a: nat, b: nat): nat {
    if a >= b then a else b
  }

  // First cut allowed for each kind: about a third of the way to the limit.
  function Earliest(kind: Break, limit: nat): nat {
    match kind
    case Paragraph => MaxNat(1, limit / 3) + 2
    case Line => MaxNat(1, limit / 3) + 1
    case _ => limit / 3 + 1
  }

  // Last cut allowed: a line end may be the character after the limit, which rendering strips.
  function Latest(kind: Break, limit: nat): nat {
    if kind.Paragraph? || kind.Line? then limit + 1 else limit
  }

  function CutOf(text: string, limit: nat): nat
    requires limit >= 1
  {
    if |text| <= limit then |text|
    else if LastBreak(text, Paragraph, Earliest(Paragraph, limit), limit + 1) > 0 then
      LastBreak(text, Paragraph, Earliest(Paragraph, limit), limit + 1)
    else if LastBreak(text, Line, Earliest(Line, limit), limit + 1) > 0 then
      LastBreak(text, Line, Earliest(Line, limit), limit + 1)
    else if LastBreak(text, Sentence, Earliest(Sentence, limit), limit) > 0 then
      LastBreak(text, Sentence, Earliest(Sentence, limit), limit)
    else if LastBreak(text, Space, Earliest(Space, limit), limit) > 0 then
      LastBreak(text, Space, Earliest(Space, limit), limit)
    else limit
  }

  // Rendering of plain text: trailing newlines go.
  function StripEnd(s: string): string {
    if s != "" && s[|s| - 1] == '\n' then StripEnd(s[..|s| - 1]) else s
  }

  lemma {:induction false} StripShortens(s: string)
    ensures StripEnd(s) <= s
    decreases |s|
  {
    if s != "" && s[|s| - 1] == '\n' {
      StripShortens(s[..|s| - 1]);
    }
  }

  lemma StripLast(s: string)
    requires s != "" && s[|s| - 1] == '\n'
    ensures |StripEnd(s)| <= |s| - 1
  {
    StripShortens(s[..|s| - 1]);
  }

  predicate Fits(text: string, limit: nat) {
    |StripEnd(text)| <= limit
  }

  /** A cut makes progress and its piece renders within the limit. It may take one character more than the limit only
      when that character is a newline, which rendering strips. */
  lemma CutFits(text: string, limit: nat)
    requires limit >= 1 && text != ""
    ensures var cut := CutOf(text, limit);
      && 1 <= cut <= |text| && Fits(text[..cut], limit)
      && (cut <= limit || (cut == limit + 1 && text[limit] == '\n'))
  {
    var cut := CutOf(text, limit);
    StripShortens(text[..cut]);
    if cut == limit + 1 {
      StripLast(text[..cut]);
    }
  }

  /** Where a break of this kind may be cut: behind the first third of the limit; line ends also at the character after
      the limit. */
  predicate InReach(kind: Break, limit: nat, i: nat) {
    match kind
    case Paragraph => 3 <= i && limit / 3 + 2 <= i <= limit + 1
    case Line => 2 <= i && limit / 3 < i <= limit + 1
    case _ => limit / 3 < i <= limit
  }

  predicate Breaks(text: string, limit: nat, kind: Break, i: nat)
    requires |text| > limit
  {
    InReach(kind, limit, i) && EndsAt(text, i, kind)
  }

  /** The cut is the last break of its kind, and there is none of a kind that is preferred. */
  ghost predicate IsBest(text: string, limit: nat, kind: Break, cut: nat)
    requires |text| > limit
  {
    && Breaks(text, limit, kind, cut)
    && (forall i: nat :: Breaks(text, limit, kind, i) ==> i <= cut)
    && (forall better: Break, i: nat :: Before(better, kind) ==> !Breaks(text, limit, better, i))
  }

  /** The choice: the last paragraph end in reach, else the last line end, else sentence end, else space, else the
      limit. */
  lemma CutExactly(text: string, limit: nat)
    requires limit >= 1 && |text| > limit
    ensures (exists kind: Break :: IsBest(text, limit, kind, CutOf(text, limit)))
      || (CutOf(text, limit) == limit && forall kind: Break, i: nat :: !Breaks(text, limit, kind, i))
  {
    var cut := CutOf(text, limit);
    ReachIs(text, limit);
    var p := LastBreak(text, Paragraph, Earliest(Paragraph, limit), limit + 1);
    var l := LastBreak(text, Line, Earliest(Line, limit), limit + 1);
    var s := LastBreak(text, Sentence, Earliest(Sentence, limit), limit);
    var w := LastBreak(text, Space, Earliest(Space, limit), limit);
    if p > 0 {
      assert IsBest(text, limit, Paragraph, cut);
    } else if l > 0 {
      assert IsBest(text, limit, Line, cut);
    } else if s > 0 {
      assert IsBest(text, limit, Sentence, cut);
    } else if w > 0 {
      assert IsBest(text, limit, Space, cut);
    }
  }

  lemma ReachIs(text: string, limit: nat)
    requires limit >= 1 && |text| > limit
    ensures forall kind: Break, i: nat :: Breaks(text, limit, kind, i) <==>
      Earliest(kind, limit) <= i <= Latest(kind, limit) && EndsAt(text, i, kind)
  {
  }

  predicate Before(a: Break, b: Break) {
    match a
    case Paragraph => !b.Paragraph?
    case Line => b.Sentence? || b.Space?
    case Sentence => b.Space?
    case Space => false
  }

  /** The backward search for a break. */
  method FindBreak(text: string, kind: Break, lo: nat, hi: nat) returns (cut: nat)
    requires hi <= |text| && lo >= 1
    ensures cut == LastBreak(text, kind, lo, hi)
  {
    cut := hi;
    while cut >= lo
      invariant cut <= hi && LastBreak(text, kind, lo, cut) == LastBreak(text, kind, lo, hi)
    {
      if EndsAt(text, cut, kind) {
        return;
      }
      cut := cut - 1;
    }
    cut := 0;
  }

  method PreferredTextCut(text: string, limit: nat) returns (cut: nat)
    requires limit >= 1
    ensures cut == CutOf(text, limit)
  {
    if |text| <= limit {
      return |text|;
    }
    cut := FindBreak(text, Paragraph, MaxNat(1, limit / 3) + 2, limit + 1);
    if cut > 0 {
      return;
    }
    cut := FindBreak(text, Line, MaxNat(1, limit / 3) + 1, limit + 1);
    if cut > 0 {
      return;
    }
    cut := FindBreak(text, Sentence, limit / 3 + 1, limit);
    if cut > 0 {
      return;
    }
    cut := FindBreak(text, Space, limit / 3 + 1, limit);
    if cut == 0 {
      cut := limit;
    }
  }

  // ------------------------------------------------------------------ All pieces of a text

  function PiecesOf(text: string, limit: nat): seq<string>
    requires limit >= 1
    decreases |text|
  {
    if text == "" then []
    else if Fits(text, limit) then [text]
    else
      CutFits(text, limit);
      [text[..CutOf(text, limit)]] + PiecesOf(text[CutOf(text, limit)..], limit)
  }

  function Concat(pieces: seq<string>): string {
    if pieces == [] then "" else pieces[0] + Concat(pieces[1..])
  }

  /** Nothing is lost, added or moved. */
  lemma {:induction false} PiecesKeepText(text: string, limit: nat)
    requires limit >= 1
    ensures Concat(PiecesOf(text, limit)) == text
    decreases |text|
  {
    if text != "" && !Fits(text, limit) {
      CutFits(text, limit);
      var cut := CutOf(text, limit);
      PiecesKeepText(text[cut..], limit);
      ConcatCut(text, cut, PiecesOf(text[cut..], limit));
    } else if text != "" {
      ConcatCons(text, []);
    }
  }

  lemma ConcatCons(first: string, rest: seq<string>)
    ensures Concat([first] + rest) == first + Concat(rest)
  {
    assert ([first] + rest)[1..] == rest;
  }

  lemma ConcatCut(text: string, cut: nat, rest: seq<string>)
    requires cut <= |text| && Concat(rest) == text[cut..]
    ensures Concat([text[..cut]] + rest) == text
  {
    ConcatCons(text[..cut], rest);
  }

  predicate Piece(p: string, limit: nat) {
    p != "" && Fits(p, limit)
  }

  /** Every piece is non-empty and renders within the limit. */
  lemma {:induction false} PiecesFit(text: string, limit: nat)
    requires limit >= 1
    ensures forall i :: 0 <= i < |PiecesOf(text, limit)| ==> Piece(PiecesOf(text, limit)[i], limit)
    ensures text != "" ==> PiecesOf(text, limit) != [] && PiecesOf(text, limit)[0][0] == text[0]
    decreases |text|
  {
    if text != "" && !Fits(text, limit) {
      CutFits(text, limit);
      var cut := CutOf(text, limit);
      PiecesFit(text[cut..], limit);
      assert Piece(text[..cut], limit);
    }
  }

  method SplitPlainText(text: string, limit: nat) returns (out: seq<string>)
    requires limit >= 1
    ensures out == PiecesOf(text, limit)
  {
    var remaining := text;
    out := [];
    while remaining != ""
      invariant out + PiecesOf(remaining, limit) == PiecesOf(text, limit)
      decreases |remaining|
    {
      if Fits(remaining, limit) {
        out := out + [remaining];
        return;
      }
      CutFits(remaining, limit);
      var cut := PreferredTextCut(remaining, limit);
      out := out + [remaining[..cut]];
      remaining := remaining[cut..];
    }
  }
}
