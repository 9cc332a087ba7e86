/** Packing text and code into messages of bounded rendered length (workbot/im/welink_format.py).

    A message has text, at most one native code block, and text after it. The packer fills the current message, starts
    another when the next item does not fit, and cuts a text at a preferred place. What a message carries are its items:
    the characters of its text but for line breaks, which packing may add or drop at borders, and its blocks. */
module MessagePack {
  import opened TextSplit
  import opened CodeBlocks

  datatype Block = Block(language: string, code: string)

  // A message: text, native code blocks, text after them.
  datatype Msg = Msg(pre: string, blocks: seq<Block>, post: string)

  const EMPTY := Msg("", [], "")

  // ------------------------------------------------------------------ Rendering

  // Length of a blank line at the start of `s`, its line break included; 0 if there is none.
  function BlankLine(s: string): (n: nat)
    ensures n <= |s|
  {
    if s == "" then 0
    else if s[0] == '\n' then 1
    else if s[0] == '\r' then (if |s| > 1 && s[1] == '\n' then 2 else 0)
    else if s[0] == ' ' || s[0] == '\t' then (var n := BlankLine(s[1..]); if n == 0 then 0 else n + 1)
    else 0
  }

  function LeadingBreaks(s: string): (n: nat)
    ensures n <= |s| && (n == 0 <==> BlankLine(s) == 0)
    decreases |s|
  {
    var n := BlankLine(s);
    if n == 0 then 0 else n + LeadingBreaks(s[n..])
  }

  // Text after a code block keeps at most one line break in front.
  function Compact(s: string): (r: string)
    ensures |r| <= |s|
  {
    var n := LeadingBreaks(s);
    if n == 0 then s else if s[n..] == "" then "" else "\n" + s[n..]
  }

  function EncodeAll(blocks: seq<Block>): string {
    if blocks == [] then "" else EncodeBlock(blocks[0].code, blocks[0].language) + EncodeAll(blocks[1..])
  }

  function Render(m: Msg): string {
    if m.blocks == [] then StripEnd(m.pre) else m.pre + EncodeAll(m.blocks) + Compact(StripEnd(m.post))
  }

  function RenderLength(m: Msg): nat {
    |Render(m)|
  }

  /** Fences stand on lines of their own. */
  predicate Complete(m: Msg) {
    if m.blocks == [] then m.post == ""
    else (m.pre == "" || m.pre[|m.pre| - 1] == '\n') && (m.post == "" || m.post[0] == '\n')
  }

  predicate Good(m: Msg, limit: nat) {
    RenderLength(m) <= limit && |m.blocks| <= 1 && Complete(m)
  }

  predicate AllGood(messages: seq<Msg>, limit: nat) {
    forall i {:trigger Good(messages[i], limit)} :: 0 <= i < |messages| ==> Good(messages[i], limit)
  }

  // ------------------------------------------------------------------ What a message carries

  datatype Item = Ch(c: char) | Code(block: Block)

  // Text without its line breaks, which packing may add or drop at block and message borders.
  function Chars(s: string): seq<Item> {
    if s == "" then []
    else Chars(s[..|s| - 1]) + if s[|s| - 1] == '\n' then [] else [Ch(s[|s| - 1])]
  }

  function CodeItems(blocks: seq<Block>): seq<Item> {
    seq(|blocks|, i requires 0 <= i < |blocks| => Code(blocks[i]))
  }

  function Items(m: Msg): seq<Item> {
    Chars(m.pre) + CodeItems(m.blocks) + Chars(m.post)
  }

  function AllItems(messages: seq<Msg>): seq<Item> {
    if messages == [] then [] else AllItems(messages[..|messages| - 1]) + Items(messages[|messages| - 1])
  }

  lemma {:induction false} CharsAppend(s: string, t: string)
    ensures Chars(s + t) == Chars(s) + Chars(t)
    decreases |t|
  {
    if t == "" {
      assert s + t == s;
    } else {
      var n := |t| - 1;
      assert (s + t)[..|s + t| - 1] == s + t[..n];
      CharsAppend(s, t[..n]);
    }
  }

  lemma {:induction false} CharsStripEnd(s: string)
    ensures Chars(StripEnd(s)) == Chars(s)
    decreases |s|
  {
    if s != "" && s[|s| - 1] == '\n' {
      CharsStripEnd(s[..|s| - 1]);
    }
  }

  lemma AllItemsAppend(messages: seq<Msg>, m: Msg)
    ensures AllItems(messages + [m]) == AllItems(messages) + Items(m)
  {
    assert (messages + [m])[..|messages + [m]| - 1] == messages;
  }

  // current + text
  function Append(m: Msg, text: string): Msg {
    if m.blocks == [] then m.(pre := m.pre + text) else m.(post := m.post + text)
  }

  // The block, on a line of its own after the current text.
  function WithBlock(m: Msg, b: Block): Msg
    requires m.blocks == []
  {
    if m == EMPTY then Msg("", [b], "") else Msg(StripEnd(m.pre) + "\n", [b], "")
  }

  lemma AppendItems(m: Msg, text: string)
    requires Complete(m)
    ensures Items(Append(m, text)) == Items(m) + Chars(text)
  {
    if m.blocks == [] {
      CharsAppend(m.pre, text);
      assert CodeItems([]) == [];
    } else {
      CharsAppend(m.post, text);
    }
  }

  lemma WithBlockItems(m: Msg, b: Block)
    requires Complete(m) && m.blocks == []
    ensures Items(WithBlock(m, b)) == Items(m) + [Code(b)]
  {
    CharsStripEnd(m.pre);
    CharsAppend(StripEnd(m.pre), "\n");
    assert Chars("\n") == [] by {
      assert "\n"[..0] == "";
    }
    assert CodeItems([b]) == [Code(b)] && CodeItems([]) == [];
  }

  lemma EmptyIsGood(limit: nat)
    ensures Good(EMPTY, limit) && Items(EMPTY) == []
  {
    assert Render(EMPTY) == "" && CodeItems([]) == [];
  }

  lemma FlushItems(messages: seq<Msg>, m: Msg)
    ensures AllItems(messages + [m]) + Items(EMPTY) == AllItems(messages) + Items(m)
  {
    AllItemsAppend(messages, m);
    EmptyIsGood(0);
    AppendNothing(AllItems(messages) + Items(m));
  }

  lemma AppendNothing(s: seq<Item>)
    ensures s + [] == s
  {
  }

  lemma GoodAppend(messages: seq<Msg>, m: Msg, limit: nat)
    requires AllGood(messages, limit) && Good(m, limit)
    ensures AllGood(messages + [m], limit)
  {
    var all := messages + [m];
    forall i | 0 <= i < |all| ensures Good(all[i], limit) {
      assert i < |messages| ==> Good(messages[i], limit);
    }
  }

  // ------------------------------------------------------------------ Packing

  class Packer {
    const limit: nat
    var messages: seq<Msg>
    var current: Msg
    var currentCodeBlocks: nat

    constructor (limit: nat)
      requires limit >= 256
      ensures this.limit == limit && Valid() && messages == [] && current == EMPTY
    {
      this.limit := limit;
      messages, current, currentCodeBlocks := [], EMPTY, 0;
      new;
      EmptyIsGood(limit);
    }

    ghost predicate Valid()
      reads this
    {
      limit >= 256 && AllGood(messages, limit) && Good(current, limit) && currentCodeBlocks == |current.blocks|
    }

    ghost function Carried(): seq<Item>
      reads this
    {
      AllItems(messages) + Items(current)
    }

    method Flush()
      requires Valid()
      modifies this
      ensures Valid() && current == EMPTY && Carried() == old(Carried())
      ensures messages ==
        if old(current) != EMPTY || old(messages) == [] then old(messages) + [old(current)] else old(messages)
    {
      FlushItems(messages, current);
      EmptyIsGood(limit);
      if current != EMPTY || messages == [] {
        GoodAppend(messages, current, limit);
        messages := messages + [current];
      }
      current, currentCodeBlocks := EMPTY, 0;
    }

    method AddCode(b: Block)
      requires Valid() && CodeFits(b.code, b.language, limit)
      modifies this
      ensures Valid() && current.blocks == [b] && current.post == ""
      ensures Carried() == old(Carried()) + [Code(b)]
    {
      if currentCodeBlocks >= 1 {
        Flush();
      }
      var fits := current == EMPTY || RenderLength(WithBlock(current, b)) <= limit;
      if !fits {
        Flush();
      }
      PutBlock(b);
    }

    method PutBlock(b: Block)
      requires Valid() && CodeFits(b.code, b.language, limit) && current.blocks == []
      requires current == EMPTY || RenderLength(WithBlock(current, b)) <= limit
      modifies this`current, this`currentCodeBlocks
      ensures Valid() && current == WithBlock(old(current), b) && current.blocks == [b] && current.post == ""
      ensures Carried() == old(Carried()) + [Code(b)]
    {
      BlockIsGood(current, b, limit);
      BlockItems(AllItems(messages), current, b);
      current, currentCodeBlocks := WithBlock(current, b), 1;
    }

    method AddText(text: string)
      requires Valid() && text != "" && Joins(current, text)
      modifies this
      ensures Valid() && (current.blocks != [] ==> current.post != "")
      ensures Carried() == old(Carried()) + Chars(text)
    {
      var remaining := text;
      while remaining != ""
        invariant Valid() && Carried() + Chars(remaining) == old(Carried()) + Chars(text)
        invariant if remaining == "" then current.blocks != [] ==> current.post != "" else Joins(current, remaining)
        decreases |remaining|, current != EMPTY
      {
        var candidate := Append(current, remaining);
        if RenderLength(candidate) <= limit {
          assert remaining[..|remaining|] == remaining;
          remaining := Take(remaining, |remaining|);
        } else if current != EMPTY {
          remaining := Fill(remaining);
          Flush();
        } else {
          CutFits(remaining, limit);
          PieceAlone(remaining, limit);
          var cut := PreferredTextCut(remaining, limit);
          remaining := Take(remaining, cut);
          Flush();
        }
      }
    }

    /** Move the first characters of `remaining` into the current message. */
    method Take(remaining: string, cut: nat) returns (rest: string)
      requires Valid() && 1 <= cut <= |remaining| && Joins(current, remaining)
      requires RenderLength(Append(current, remaining[..cut])) <= limit
      modifies this`current
      ensures Valid() && rest == remaining[cut..] && current == Append(old(current), remaining[..cut])
      ensures Carried() + Chars(rest) == old(Carried()) + Chars(remaining)
    {
      AppendIsGood(current, remaining[..cut], limit);
      TakeItems(AllItems(messages), current, remaining, cut);
      current := Append(current, remaining[..cut]);
      rest := remaining[cut..];
    }

    /** Fill what is left of the limit, at a preferred cut. */
    method Fill(remaining: string) returns (rest: string)
      requires Valid() && remaining != "" && Joins(current, remaining)
      modifies this`current
      ensures Valid() && |rest| <= |remaining|
      ensures Carried() + Chars(rest) == old(Carried()) + Chars(remaining)
    {
      rest := remaining;
      var available := limit - RenderLength(current);
      if available > 0 {
        CutFits(remaining, available);
        var cut := PreferredTextCut(remaining, available);
        if RenderLength(Append(current, remaining[..cut])) <= limit {
          rest := Take(remaining, cut);
        }
      }
    }
  }

  /** The text may follow: right after a code block it begins on a new line. */
  predicate Joins(m: Msg, text: string)
    requires text != ""
  {
    m.blocks != [] && m.post == "" ==> text[0] == '\n'
  }

  lemma AppendIsGood(m: Msg, text: string, limit: nat)
    requires Good(m, limit) && text != "" && Joins(m, text) && RenderLength(Append(m, text)) <= limit
    ensures Good(Append(m, text), limit)
  {
  }

  lemma PieceAlone(text: string, limit: nat)
    requires limit >= 1 && text != "" && CutOf(text, limit) <= |text| && Fits(text[..CutOf(text, limit)], limit)
    ensures RenderLength(Append(EMPTY, text[..CutOf(text, limit)])) <= limit
  {
    var piece := text[..CutOf(text, limit)];
    assert "" + piece == piece;
  }

  lemma TakeItems(before: seq<Item>, m: Msg, text: string, cut: nat)
    requires cut <= |text| && Complete(m)
    ensures before + Items(Append(m, text[..cut])) + Chars(text[cut..]) == before + Items(m) + Chars(text)
  {
    SplitChars(text, cut);
    AppendItems(m, text[..cut]);
    Regroup(before, Items(m), Chars(text[..cut]), Chars(text[cut..]));
  }

  lemma Regroup(a: seq<Item>, b: seq<Item>, c: seq<Item>, d: seq<Item>)
    ensures a + (b + c) + d == a + b + (c + d)
  {
  }

  lemma BlockItems(before: seq<Item>, m: Msg, b: Block)
    requires Complete(m) && m.blocks == []
    ensures before + Items(WithBlock(m, b)) == before + Items(m) + [Code(b)]
  {
    WithBlockItems(m, b);
  }

  lemma BlockIsGood(m: Msg, b: Block, limit: nat)
    requires Good(m, limit) && m.blocks == [] && CodeFits(b.code, b.language, limit)
    requires m == EMPTY || RenderLength(WithBlock(m, b)) <= limit
    ensures Good(WithBlock(m, b), limit) && WithBlock(m, b).blocks == [b] && WithBlock(m, b).post == ""
  {
    if m == EMPTY {
      BlockAlone(b);
    }
  }

  lemma SplitChars(s: string, cut: nat)
    requires cut <= |s|
    ensures Chars(s) == Chars(s[..cut]) + Chars(s[cut..])
  {
    CharsAppend(s[..cut], s[cut..]);
    assert s[..cut] + s[cut..] == s;
  }

  lemma Surrounded(s: string)
    ensures "" + s + "" == s
  {
  }

  lemma EncodeOne(b: Block)
    ensures EncodeAll([b]) == EncodeBlock(b.code, b.language)
  {
    assert [b][1..] == [] && EncodeAll([]) == "";
  }

  lemma BlockAlone(b: Block)
    ensures Render(Msg("", [b], "")) == EncodeBlock(b.code, b.language)
  {
    EncodeOne(b);
    assert Compact(StripEnd("")) == "";
    Surrounded(EncodeBlock(b.code, b.language));
  }

  // ------------------------------------------------------------------ The whole splitter

  datatype Atom = TextAtom(text: string) | CodeAtom(block: Block)

  /** Text is not empty, a code block fits by itself, and text after a block begins on a new line. */
  predicate WellFormed(atoms: seq<Atom>, limit: nat) {
    && (forall i :: 0 <= i < |atoms| && atoms[i].TextAtom? ==> atoms[i].text != "")
    && (forall i :: 0 <= i < |atoms| && atoms[i].CodeAtom? ==>
          CodeFits(atoms[i].block.code, atoms[i].block.language, limit))
    && (forall i :: 0 < i < |atoms| && atoms[i].TextAtom? && atoms[i - 1].CodeAtom? ==> atoms[i].text[0] == '\n')
  }

  function AtomItems(atoms: seq<Atom>): seq<Item> {
    if atoms == [] then []
    else
      var last := atoms[|atoms| - 1];
      AtomItems(atoms[..|atoms| - 1]) + if last.TextAtom? then Chars(last.text) else [Code(last.block)]
  }

  /** Every message renders within the limit, with at most one code block and complete fences; in order, the text
      (line breaks aside) and the code blocks of the messages are those given. */
  method Pack(atoms: seq<Atom>, limit: nat) returns (messages: seq<Msg>)
    requires limit >= 256 && WellFormed(atoms, limit)
    ensures messages != [] && AllGood(messages, limit) && AllItems(messages) == AtomItems(atoms)
  {
    var packer := new Packer(limit);
    EmptyIsGood(limit);
    for i := 0 to |atoms|
      invariant fresh(packer) && packer.Valid() && packer.limit == limit
      invariant packer.Carried() == AtomItems(atoms[..i])
      invariant packer.current.blocks != [] && packer.current.post == "" ==> i > 0 && atoms[i - 1].CodeAtom?
    {
      AtomItemsNext(atoms, i);
      if atoms[i].CodeAtom? {
        packer.AddCode(atoms[i].block);
      } else {
        packer.AddText(atoms[i].text);
      }
    }
    assert atoms[..|atoms|] == atoms;
    if packer.current != EMPTY || packer.messages == [] {
      packer.Flush();
    }
    messages := packer.messages;
  }

  lemma AtomItemsNext(atoms: seq<Atom>, i: nat)
    requires i < |atoms|
    ensures AtomItems(atoms[..i + 1]) ==
      AtomItems(atoms[..i]) + if atoms[i].TextAtom? then Chars(atoms[i].text) else [Code(atoms[i].block)]
  {
    assert atoms[..i + 1][..i] == atoms[..i];
  }
}
