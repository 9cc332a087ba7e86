/** What a rendered message shows: its blocks, and every visible character of its text, in order. */
module RenderShown {
  import opened TextSplit
  import opened CodeBlocks
  import opened MessagePack

  predicate Gap(c: char) {
    c == ' ' || c == '\t' || c == '\r' || c == '\n'
  }

  function Visible(s: string): string {
    if s == "" then "" else if Gap(s[0]) then Visible(s[1..]) else [s[0]] + Visible(s[1..])
  }

  lemma {:induction false} VisibleAppend(s: string, t: string)
    ensures Visible(s + t) == Visible(s) + Visible(t)
    decreases |s|
  {
    if s == "" {
      assert s + t == t;
    } else {
      assert (s + t)[1..] == s[1..] + t;
      VisibleAppend(s[1..], t);
    }
  }

  lemma {:induction false} VisibleCut(s: string, n: nat)
    requires n <= |s| && forall i :: 0 <= i < n ==> Gap(s[i])
    ensures Visible(s[n..]) == Visible(s)
    decreases n
  {
    if n > 0 {
      assert s[1..][n - 1..] == s[n..];
      VisibleCut(s[1..], n - 1);
    } else {
      assert s[0..] == s;
    }
  }

  /** The text starts with a line of spaces and tabs only. */
  ghost predicate StartsBlank(s: string) {
    exists k: nat :: BlankUpTo(s, k) && (s[k] == '\n' || (s[k] == '\r' && k + 1 < |s| && s[k + 1] == '\n'))
  }

  predicate BlankUpTo(s: string, k: nat) {
    k < |s| && forall i :: 0 <= i < k ==> s[i] == ' ' || s[i] == '\t'
  }

  lemma {:induction false} BlankLineExactly(s: string)
    ensures BlankLine(s) > 0 <==> StartsBlank(s)
    ensures forall i :: 0 <= i < BlankLine(s) ==> Gap(s[i])
    decreases |s|
  {
    if s != "" && (s[0] == ' ' || s[0] == '\t') {
      BlankLineExactly(s[1..]);
      var n := BlankLine(s[1..]);
      assert forall i :: 1 <= i < n + 1 ==> s[i] == s[1..][i - 1];
      if StartsBlank(s) {
        var k: nat :| BlankUpTo(s, k) && (s[k] == '\n' || (s[k] == '\r' && k + 1 < |s| && s[k + 1] == '\n'));
        assert BlankUpTo(s[1..], k - 1) && s[1..][k - 1] == s[k];
      }
      if StartsBlank(s[1..]) {
        var k: nat :| BlankUpTo(s[1..], k)
          && (s[1..][k] == '\n' || (s[1..][k] == '\r' && k + 1 < |s[1..]| && s[1..][k + 1] == '\n'));
        assert BlankUpTo(s, k + 1) && s[k + 1] == s[1..][k];
      }
    } else if s != "" {
      assert BlankUpTo(s, 0);
      assert StartsBlank(s) ==> BlankLine(s) > 0;
    }
  }

  lemma {:induction false} LeadingBreaksEnd(s: string)
    ensures BlankLine(s[LeadingBreaks(s)..]) == 0
    decreases |s|
  {
    var n := BlankLine(s);
    if n > 0 {
      LeadingBreaksEnd(s[n..]);
      assert s[n..][LeadingBreaks(s[n..])..] == s[LeadingBreaks(s)..];
    } else {
      assert s[0..] == s;
    }
  }

  lemma {:induction false} LeadingBreaksAreGaps(s: string)
    ensures forall i :: 0 <= i < LeadingBreaks(s) ==> Gap(s[i])
    decreases |s|
  {
    var n := BlankLine(s);
    BlankLineExactly(s);
    if n > 0 {
      LeadingBreaksAreGaps(s[n..]);
      forall i | n <= i < LeadingBreaks(s) ensures Gap(s[i]) {
        assert s[i] == s[n..][i - n];
      }
    }
  }

  /** Behind a code block, blank lines at the front give way to one line break; a text without any stays as it is, and
      nothing visible is lost. */
  lemma CompactExactly(s: string)
    ensures if StartsBlank(s) then
              Compact(s) == "" || (Compact(s)[0] == '\n' && !StartsBlank(Compact(s)[1..]) && Compact(s)[1..] != "")
            else Compact(s) == s
    ensures Visible(Compact(s)) == Visible(s)
  {
    var n := LeadingBreaks(s);
    BlankLineExactly(s);
    LeadingBreaksAreGaps(s);
    LeadingBreaksEnd(s);
    BlankLineExactly(s[n..]);
    VisibleCut(s, n);
    assert ("\n" + s[n..])[1..] == s[n..];
  }

  lemma {:induction false} VisibleStripEnd(s: string)
    ensures Visible(StripEnd(s)) == Visible(s)
    decreases |s|
  {
    if s != "" && s[|s| - 1] == '\n' {
      var n := |s| - 1;
      VisibleStripEnd(s[..n]);
      assert s == s[..n] + "\n";
      VisibleAppend(s[..n], "\n");
      assert Visible("\n") == "";
    }
  }

  /** Nothing visible of a message is lost by rendering it, and its one block stands where it belongs. */
  lemma RenderShows(m: Msg)
    requires |m.blocks| <= 1
    ensures m.blocks == [] ==> Visible(Render(m)) == Visible(m.pre)
    ensures m.blocks != [] ==>
      exists post: string :: Visible(post) == Visible(m.post)
        && Render(m) == m.pre + EncodeBlock(m.blocks[0].code, m.blocks[0].language) + post
  {
    VisibleStripEnd(m.pre);
    VisibleStripEnd(m.post);
    CompactExactly(StripEnd(m.post));
    if m.blocks != [] {
      assert m.blocks[1..] == [] && EncodeAll(m.blocks[1..]) == "";
      assert EncodeAll(m.blocks) == EncodeBlock(m.blocks[0].code, m.blocks[0].language);
      assert Visible(Compact(StripEnd(m.post))) == Visible(m.post);
    }
  }
}
