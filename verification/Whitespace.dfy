/** Stripping and collapsing white space: str.strip and " ".join(str.split()).

    Strip removes white space from both ends; Collapse turns every run of it into one space and drops it at the ends,
    as the chat transport does with a message. The lemmas say how either acts on a concatenation. Where the left part
    ends and the right part begins with other characters, both distribute over it, up to one space if there was white
    space between the two; blank parts vanish; a text without any white space stays as it is. The envelope's round
    trips are put together from these, part by part: marker, header, line end, body, and the prefix shown before
    them. */
module Whitespace {
  import opened TextSplit

  predicate Blank(s: string) {
    forall i :: 0 <= i < |s| ==> IsSpace(s[i])
  }

  function LStrip(s: string): (r: string)
    ensures |r| <= |s| && (r != "" ==> !IsSpace(r[0]))
  {
    if s != "" && IsSpace(s[0]) then LStrip(s[1..]) else s
  }

  function RStrip(s: string): (r: string)
    ensures r <= s && (r != "" ==> !IsSpace(r[|r| - 1]))
  {
    if s != "" && IsSpace(s[|s| - 1]) then RStrip(s[..|s| - 1]) else s
  }

  function Strip(s: string): (r: string)
    ensures r != "" ==> !IsSpace(r[0]) && !IsSpace(r[|r| - 1])
  {
    RStrip(LStrip(s))
  }

  // Length of the first word of a text that starts with one.
  function WordEnd(s: string): (k: nat)
    ensures k <= |s| && (k < |s| ==> IsSpace(s[k])) && forall i :: 0 <= i < k ==> !IsSpace(s[i])
    ensures s != "" && !IsSpace(s[0]) ==> k >= 1
  {
    if s == "" || IsSpace(s[0]) then 0 else 1 + WordEnd(s[1..])
  }

  // The words of the text, joined by single spaces.
  function Collapse(s: string): string
    decreases |s|
  {
    var v := LStrip(s);
    if v == "" then ""
    else
      var k := WordEnd(v);
      var rest := Collapse(v[k..]);
      if rest == "" then v[..k] else v[..k] + " " + rest
  }

  predicate StartsSolid(s: string) {
    s != "" && !IsSpace(s[0])
  }

  predicate EndsSolid(s: string) {
    s != "" && !IsSpace(s[|s| - 1])
  }

  lemma {:induction false} LStripBlank(lead: string, s: string)
    requires Blank(lead)
    ensures LStrip(lead + s) == LStrip(s)
    decreases |lead|
  {
    if lead == "" {
      assert lead + s == s;
    } else {
      assert (lead + s)[1..] == lead[1..] + s;
      LStripBlank(lead[1..], s);
    }
  }

  lemma {:induction false} RStripBlank(s: string, trail: string)
    requires Blank(trail)
    ensures RStrip(s + trail) == RStrip(s)
    decreases |trail|
  {
    if trail == "" {
      assert s + trail == s;
    } else {
      assert (s + trail)[..|s + trail| - 1] == s + trail[..|trail| - 1];
      RStripBlank(s, trail[..|trail| - 1]);
    }
  }

  lemma StripBlank(lead: string, s: string)
    requires Blank(lead) && StartsSolid(s) && EndsSolid(s)
    ensures Strip(lead + s) == s
  {
    LStripBlank(lead, s);
  }

  // ------------------------------------------------------------------ Collapsing a concatenation

  lemma CollapseBlank(lead: string, s: string)
    requires Blank(lead)
    ensures Collapse(lead + s) == Collapse(s)
  {
    LStripBlank(lead, s);
  }

  lemma {:induction false} WordEndSplit(a: string, b: string)
    requires forall i :: 0 <= i < |a| ==> !IsSpace(a[i])
    ensures WordEnd(a + b) == |a| + WordEnd(b)
    decreases |a|
  {
    if a == "" {
      assert a + b == b;
    } else {
      assert (a + b)[1..] == a[1..] + b;
      WordEndSplit(a[1..], b);
    }
  }

  lemma {:induction false} WordEndInside(a: string, b: string)
    requires WordEnd(a) < |a|
    ensures WordEnd(a + b) == WordEnd(a)
    decreases |a|
  {
    if !IsSpace(a[0]) {
      assert (a + b)[1..] == a[1..] + b;
      WordEndInside(a[1..], b);
    }
  }

  lemma {:induction false} LStripInside(a: string, b: string)
    requires LStrip(a) != ""
    ensures LStrip(a + b) == LStrip(a) + b
    decreases |a|
  {
    if IsSpace(a[0]) {
      assert (a + b)[1..] == a[1..] + b;
      LStripInside(a[1..], b);
    }
  }

  lemma {:induction false} LStripSolid(a: string)
    requires EndsSolid(a)
    ensures LStrip(a) != "" && EndsSolid(LStrip(a))
    decreases |a|
  {
    if IsSpace(a[0]) {
      assert a[1..] != "";
      LStripSolid(a[1..]);
    }
  }

  lemma {:induction false} CollapseSolid(s: string)
    ensures (Collapse(s) == "" <==> Blank(s))
      && (Collapse(s) != "" ==> StartsSolid(Collapse(s)) && EndsSolid(Collapse(s)))
    decreases |s|
  {
    var v := LStrip(s);
    LStripEmpty(s);
    if v != "" {
      CollapseSolid(v[WordEnd(v)..]);
    }
  }

  lemma {:induction false} LStripEmpty(s: string)
    ensures LStrip(s) == "" <==> Blank(s)
    decreases |s|
  {
    if s != "" && IsSpace(s[0]) {
      LStripEmpty(s[1..]);
      assert forall i :: 1 <= i < |s| ==> s[i] == s[1..][i - 1];
    }
  }

  predicate Word(w: string) {
    w != "" && forall i :: 0 <= i < |w| ==> !IsSpace(w[i])
  }

  function Joined(word: string, rest: string): string {
    if rest == "" then word else word + " " + rest
  }

  lemma CollapseUnfold(word: string, tail: string)
    requires Word(word) && (tail != "" ==> IsSpace(tail[0]))
    ensures Collapse(word + tail) == Joined(word, Collapse(tail))
  {
    var s := word + tail;
    assert s[0] == word[0] && LStrip(s) == s;
    WordEndSplit(word, tail);
    assert WordEnd(tail) == 0;
    assert s[..|word|] == word && s[|word|..] == tail;
  }

  function Joint(gap: string): string {
    if gap == "" then "" else " "
  }

  lemma CutAt(s: string, k: nat)
    requires k <= |s|
    ensures s == s[..k] + s[k..]
  {
  }

  lemma EmptyPlus(s: string)
    ensures "" + s == s && s + "" == s
  {
  }

  lemma SplitWord(s: string) returns (lead: string, word: string, tail: string)
    requires EndsSolid(s)
    ensures Blank(lead) && Word(word) && s == lead + (word + tail)
    ensures tail != "" ==> IsSpace(tail[0]) && EndsSolid(tail)
  {
    lead := LStripIs(s);
    LStripSolid(s);
    word, tail := FirstWord(LStrip(s));
  }

  lemma FirstWord(v: string) returns (word: string, tail: string)
    requires StartsSolid(v) && EndsSolid(v)
    ensures Word(word) && v == word + tail
    ensures tail != "" ==> IsSpace(tail[0]) && EndsSolid(tail)
  {
    var k := WordEnd(v);
    word, tail := v[..k], v[k..];
    CutAt(v, k);
    EndOfTail(v, k);
  }

  lemma EndOfTail(v: string, k: nat)
    requires k <= |v| && EndsSolid(v)
    ensures v[k..] != "" ==> EndsSolid(v[k..])
  {
  }

  lemma Reassociate(a: string, b: string, c: string)
    ensures (a + b) + c == a + (b + c)
  {
  }

  /** Two halves that meet at solid characters collapse by themselves; a space stands between them exactly when white
      space did. */
  lemma {:induction false} CollapseConcat(a: string, gap: string, b: string)
    requires EndsSolid(a) && StartsSolid(b) && Blank(gap)
    ensures Collapse(a + (gap + b)) == Collapse(a) + Joint(gap) + Collapse(b)
    decreases |a|
  {
    var lead, word, tail := SplitWord(a);
    var c := gap + b;
    Reassociate(lead, word + tail, c);
    Reassociate(word, tail, c);
    CollapseBlank(lead, word + (tail + c));
    CollapseBlank(lead, word + tail);
    if tail != "" {
      CollapseConcat(tail, gap, b);
      CollapseTwoWords(word, tail, gap, b);
    } else {
      assert word + tail == word && tail + c == c;
      CollapseLastWord(word, gap, b);
    }
  }

  lemma CollapseTwoWords(word: string, tail: string, gap: string, b: string)
    requires Word(word) && tail != "" && IsSpace(tail[0]) && EndsSolid(tail)
    requires Collapse(tail + (gap + b)) == Collapse(tail) + Joint(gap) + Collapse(b)
    ensures Collapse(word + (tail + (gap + b))) == Collapse(word + tail) + Joint(gap) + Collapse(b)
  {
    CollapseUnfold(word, tail);
    CollapseUnfold(word, tail + (gap + b));
    CollapseSolid(tail);
    CollapseJoin(word, Collapse(tail), Joint(gap), Collapse(b));
  }

  lemma CollapseJoin(word: string, rest: string, joint: string, after: string)
    requires rest != ""
    ensures Joined(word, rest + joint + after) == Joined(word, rest) + joint + after
  {
  }

  lemma CollapseOne(v: string)
    requires Word(v)
    ensures Collapse(v) == v
  {
    CollapseUnfold(v, "");
    assert v + "" == v && Collapse("") == "";
  }

  lemma CollapseLastWord(v: string, gap: string, b: string)
    requires Word(v) && StartsSolid(b) && Blank(gap)
    ensures Collapse(v + (gap + b)) == Collapse(v) + Joint(gap) + Collapse(b)
  {
    CollapseOne(v);
    if gap == "" {
      EmptyPlus(b);
      EmptyPlus(v);
      CollapseGrow(v, b);
    } else {
      CollapseNext(v, gap, b);
    }
  }

  lemma CollapseNext(v: string, gap: string, b: string)
    requires Word(v) && StartsSolid(b) && Blank(gap) && gap != ""
    ensures Collapse(v + (gap + b)) == v + " " + Collapse(b)
  {
    assert (gap + b)[0] == gap[0];
    CollapseUnfold(v, gap + b);
    CollapseBlank(gap, b);
    CollapseSolid(b);
  }

  lemma CollapseGrow(v: string, b: string)
    requires Word(v) && StartsSolid(b)
    ensures Collapse(v + b) == v + Collapse(b)
  {
    var j := WordEnd(b);
    var w, t := b[..j], b[j..];
    assert b == w + t;
    CollapseUnfold(w, t);
    Reassociate(v, w, t);
    CollapseUnfold(v + w, t);
    WordJoin(v, w, Collapse(t));
  }

  lemma WordJoin(v: string, w: string, rest: string)
    ensures Joined(v + w, rest) == v + Joined(w, rest)
  {
  }

  /** Trailing white space does not matter. */
  lemma {:induction false} CollapseTrail(s: string, trail: string)
    requires Blank(trail)
    ensures Collapse(s + trail) == Collapse(s)
    decreases |s|
  {
    if Blank(s) {
      CollapseSolid(s);
      CollapseSolid(s + trail);
    } else {
      LStripEmpty(s);
      LStripInside(s, trail);
      var v := LStrip(s);
      var k := WordEnd(v);
      if k < |v| {
        WordEndInside(v, trail);
        assert (v + trail)[..k] == v[..k] && (v + trail)[k..] == v[k..] + trail;
        CollapseTrail(v[k..], trail);
      } else {
        WordEndSplit(v, trail);
        assert WordEnd(trail) == 0;
        assert (v + trail)[..k] == v && (v + trail)[k..] == trail && v[..k] == v && v[k..] == "";
        CollapseSolid(trail);
      }
    }
  }

  lemma {:induction false} RStripIs(s: string) returns (trail: string)
    ensures Blank(trail) && s == RStrip(s) + trail
    decreases |s|
  {
    if s != "" && IsSpace(s[|s| - 1]) {
      var t := RStripIs(s[..|s| - 1]);
      trail := t + [s[|s| - 1]];
      assert s == s[..|s| - 1] + [s[|s| - 1]];
    } else {
      trail := "";
    }
  }

  lemma {:induction false} LStripIs(s: string) returns (lead: string)
    ensures Blank(lead) && s == lead + LStrip(s)
    decreases |s|
  {
    if s != "" && IsSpace(s[0]) {
      var t := LStripIs(s[1..]);
      lead := [s[0]] + t;
      assert s == [s[0]] + s[1..];
    } else {
      lead := "";
    }
  }

  lemma CollapseStrip(s: string)
    ensures Collapse(Strip(s)) == Collapse(s)
  {
    var lead := LStripIs(s);
    CollapseBlank(lead, LStrip(s));
    var trail := RStripIs(LStrip(s));
    CollapseTrail(Strip(s), trail);
  }

  /** Collapsing adds no character but the space. */
  lemma {:induction false} CollapseChars(s: string, c: char)
    requires c != ' ' && c in Collapse(s)
    ensures c in s
    decreases |s|
  {
    var lead := LStripIs(s);
    var v := LStrip(s);
    var k := WordEnd(v);
    if c in Collapse(v[k..]) {
      CollapseChars(v[k..], c);
    }
  }
}
