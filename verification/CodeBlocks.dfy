/** Native code blocks of the chat transport and how an oversized one is split (workbot/im/welink_format.py). */
module CodeBlocks {
  import opened TextSplit

  const CODE_START := "\U{2009}\U{2009}\U{2009}\U{200B}\U{200B}\U{200B}"
  const CODE_END := "\U{2009}\U{2009}\U{200B}\U{200B}"

  const LANGUAGES: set<string> := {
    "c", "cpp", "css", "go", "html", "java", "javascript", "python", "rust", "sql", "typescript", "xml"
  }

  const ALIASES: map<string, string> := map[
    "c++" := "cpp", "cc" := "cpp", "cxx" := "cpp", "py" := "python", "js" := "javascript", "jsx" := "javascript",
    "node" := "javascript", "json" := "javascript", "ts" := "typescript", "tsx" := "typescript", "rs" := "rust",
    "golang" := "go"
  ]

  // For a value already stripped and in lower case. Aliases that stand for "python" need no entry: it is the fallback.
  function NormalizeLanguage(value: string): (lang: string)
    ensures lang in LANGUAGES && |lang| <= 10
    ensures value in LANGUAGES ==> lang == value
  {
    var lang := if value in ALIASES then ALIASES[value] else value;
    if lang in LANGUAGES then lang else "python"
  }

  function Digits(n: nat): string {
    if n < 10 then [('0' as int + n) as char] else Digits(n / 10) + [('0' as int + n % 10) as char]
  }

  function Newlines(s: string): nat {
    if s == "" then 0 else Newlines(s[..|s| - 1]) + if s[|s| - 1] == '\n' then 1 else 0
  }

  // The code without the newline before the closing fence.
  function BodyOf(code: string): string {
    if code != "" && code[|code| - 1] == '\n' then code[..|code| - 1] else code
  }

  function TotalLines(body: string): nat {
    if body == "" then 0 else Newlines(body) + 1
  }

  function Meta(lang: string, lines: nat): string {
    "{\"lang\":\"" + lang + "\",\"lineBreak\":false,\"totalLines\":" + Digits(lines) + "}"
  }

  /** One native block, as sent. */
  function EncodeBlock(code: string, language: string): string {
    CODE_START + BodyOf(code) + "\n" + Meta(NormalizeLanguage(language), TotalLines(BodyOf(code))) + CODE_END
  }

  predicate CodeFits(code: string, language: string, limit: nat) {
    |EncodeBlock(code, language)| <= limit
  }

  /** The newline a fence adds after a code that lacks one is not sent. */
  lemma FenceNewline(code: string, language: string)
    requires code != "" && code[|code| - 1] != '\n'
    ensures EncodeBlock(code + "\n", language) == EncodeBlock(code, language)
  {
    assert BodyOf(code + "\n") == code == BodyOf(code);
  }

  // ------------------------------------------------------------------ Rendered length grows with the code

  lemma {:induction false} DigitsGrow(m: nat, n: nat)
    requires m <= n
    ensures |Digits(m)| <= |Digits(n)|
    decreases n
  {
    if m >= 10 {
      DigitsGrow(m / 10, n / 10);
    }
  }

  lemma {:induction false} NewlinesAppend(s: string, t: string)
    ensures Newlines(s + t) == Newlines(s) + Newlines(t)
    decreases |t|
  {
    if t == "" {
      assert s + t == s;
    } else {
      var n := |t| - 1;
      assert (s + t)[..|s + t| - 1] == s + t[..n];
      NewlinesAppend(s, t[..n]);
    }
  }

  /** A part of a code, from anywhere in it, never renders longer than the whole. */
  lemma PartRendersShorter(before: string, part: string, rest: string, language: string)
    ensures |EncodeBlock(part, language)| <= |EncodeBlock(before + part + rest, language)|
  {
    var whole := before + part + rest;
    var small, large := BodyOf(part), BodyOf(whole);
    var tail := whole[|before| + |small|..];
    assert whole == before + small + tail by {
      assert part == small + part[|small|..];
    }
    var end := if |large| >= |before + small| then large[|before + small|..] else "";
    if |large| >= |before + small| {
      assert large == before + small + end;
      NewlinesAppend(before + small, end);
    }
    NewlinesAppend(before, small);
    DigitsGrow(TotalLines(small), TotalLines(large));
  }

  /** One character always fits. */
  lemma OneFits(c: char, language: string, limit: nat)
    requires limit >= 256
    ensures CodeFits([c], language, limit)
  {
    var body := BodyOf([c]);
    assert |body| <= 1;
    assert body != "" ==> body[..|body| - 1] == "";
    assert Newlines("") == 0;
    assert |Digits(TotalLines(body))| == 1;
  }

  lemma PrefixFits(code: string, language: string, limit: nat, k: nat, n: nat)
    requires k <= n <= |code| && CodeFits(code[..n], language, limit)
    ensures CodeFits(code[..k], language, limit)
  {
    PartOf("", code[..k], code[k..n], code[..n], language);
  }

  lemma PartOf(before: string, part: string, rest: string, whole: string, language: string)
    requires whole == before + part + rest
    ensures |EncodeBlock(part, language)| <= |EncodeBlock(whole, language)|
  {
    PartRendersShorter(before, part, rest, language);
  }

  /** A line that does not fit by itself does not fit behind buffered lines either. */
  lemma OversizedFlushes(current: string, line: string, language: string, limit: nat)
    requires !CodeFits(line, language, limit)
    ensures !CodeFits(current + line, language, limit)
  {
    PartOf(current, line, "", current + line, language);
  }

  // ------------------------------------------------------------------ Splitting an oversized block

  /** The binary search over prefix lengths, for a test that fails from some length on. */
  method LargestPassing(n: nat, passes: nat -> bool) returns (best: nat)
    requires n >= 1 && passes(1)
    requires forall j: nat, k: nat :: j <= k <= n && passes(k) ==> passes(j)
    ensures 1 <= best <= n && passes(best) && (best < n ==> !passes(best + 1))
  {
    var lo, hi := 1, n;
    best := 1;
    while lo <= hi
      invariant 1 <= lo <= hi + 1 <= n + 1
      invariant best == (if lo == 1 then 1 else lo - 1) && passes(best)
      invariant hi < n ==> !passes(hi + 1)
    {
      var mid := (lo + hi) / 2;
      if passes(mid) {
        best := mid;
        lo := mid + 1;
      } else {
        hi := mid - 1;
      }
    }
  }

  /** The longest prefix that fits: every prefix up to it fits, no longer one does. */
  method LargestPrefix(rest: string, language: string, limit: nat) returns (best: nat)
    requires rest != "" && limit >= 256
    ensures 1 <= best <= |rest|
    ensures forall k :: 0 <= k <= |rest| ==> (CodeFits(rest[..k], language, limit) <==> k <= best)
  {
    FirstFits(rest, language, limit);
    PrefixesMonotone(rest, language, limit);
    best := LargestPassing(|rest|, (k: nat) => PrefixPasses(rest, language, limit, k));
    PrefixesFit(rest, language, limit, best);
  }

  predicate PrefixPasses(rest: string, language: string, limit: nat, k: nat) {
    k <= |rest| && CodeFits(rest[..k], language, limit)
  }

  lemma PrefixesMonotone(rest: string, language: string, limit: nat)
    ensures forall j: nat, k: nat :: j <= k <= |rest| && PrefixPasses(rest, language, limit, k) ==>
      PrefixPasses(rest, language, limit, j)
  {
    forall j: nat, k: nat | j <= k <= |rest| && PrefixPasses(rest, language, limit, k)
      ensures PrefixPasses(rest, language, limit, j)
    {
      PrefixFits(rest, language, limit, j, k);
    }
  }

  lemma FirstFits(rest: string, language: string, limit: nat)
    requires rest != "" && limit >= 256
    ensures CodeFits(rest[..1], language, limit)
  {
    OneFits(rest[0], language, limit);
    assert rest[..1] == [rest[0]];
  }

  lemma PrefixesFit(code: string, language: string, limit: nat, best: nat)
    requires best <= |code| && CodeFits(code[..best], language, limit)
    requires best < |code| ==> !CodeFits(code[..best + 1], language, limit)
    ensures forall k :: 0 <= k <= |code| ==> (CodeFits(code[..k], language, limit) <==> k <= best)
  {
    forall k | 0 <= k <= |code| ensures CodeFits(code[..k], language, limit) <==> k <= best {
      PrefixFitsIff(code, language, limit, best, k);
    }
  }

  lemma PrefixFitsIff(code: string, language: string, limit: nat, best: nat, k: nat)
    requires best <= |code| && CodeFits(code[..best], language, limit) && k <= |code|
    requires best < |code| ==> !CodeFits(code[..best + 1], language, limit)
    ensures CodeFits(code[..k], language, limit) <==> k <= best
  {
    if k <= best {
      PrefixFits(code, language, limit, k, best);
    } else if CodeFits(code[..k], language, limit) {
      PrefixFits(code, language, limit, best + 1, k);
    }
  }

  predicate CodePart(part: string, language: string, limit: nat) {
    part != "" && CodeFits(part, language, limit)
  }

  predicate SliceAt(part: string, line: string, i: nat, j: nat) {
    i <= j <= |line| && part == line[i..j]
  }

  ghost predicate IsSlice(part: string, line: string) {
    exists i, j :: SliceAt(part, line, i, j)
  }

  /** Whole lines, or a slice of one line that does not fit by itself. */
  ghost predicate Justified(part: string, lines: seq<string>, language: string, limit: nat) {
    || (exists i, j :: WholeLines(part, lines, i, j))
    || (exists line :: line in lines && !CodeFits(line, language, limit) && IsSlice(part, line))
  }

  predicate WholeLines(part: string, lines: seq<string>, i: nat, j: nat) {
    i <= j <= |lines| && part == Concat(lines[i..j])
  }

  lemma {:induction false} ConcatAppend(parts: seq<string>, last: string)
    ensures Concat(parts + [last]) == Concat(parts) + last
    decreases |parts|
  {
    if parts == [] {
      assert [last][1..] == [];
    } else {
      assert (parts + [last])[1..] == parts[1..] + [last];
      ConcatAppend(parts[1..], last);
    }
  }

  /** The slices of one line too large for a message: they make up the line, and each fits. */
  method SplitLine(line: string, language: string, limit: nat) returns (slices: seq<string>)
    requires limit >= 256 && !CodeFits(line, language, limit)
    ensures Concat(slices) == line
    ensures forall k :: 0 <= k < |slices| ==> SlicePart(slices[k], line, language, limit)
  {
    var rest := line;
    slices := [];
    ghost var at := 0;
    while rest != ""
      invariant at <= |line| && Concat(slices) == line[..at] && rest == line[at..]
      invariant forall k :: 0 <= k < |slices| ==> SlicePart(slices[k], line, language, limit)
      decreases |rest|
    {
      var best := LargestPrefix(rest, language, limit);
      assert CodeFits(rest[..best], language, limit);
      NextSlice(slices, line, at, best, language, limit);
      slices := slices + [rest[..best]];
      rest := rest[best..];
      at := at + best;
    }
  }

  ghost predicate SlicePart(p: string, line: string, language: string, limit: nat) {
    CodePart(p, language, limit) && IsSlice(p, line)
  }

  lemma NextSlice(slices: seq<string>, line: string, at: nat, best: nat, language: string, limit: nat)
    requires at + best <= |line| && best >= 1 && Concat(slices) == line[..at]
    requires CodeFits(line[at..][..best], language, limit)
    ensures var p := line[at..][..best];
      && SlicePart(p, line, language, limit) && Concat(slices + [p]) == line[..at + best]
      && line[at..][best..] == line[at + best..]
  {
    var p := line[at..][..best];
    assert SliceAt(p, line, at, at + best);
    ConcatAppend(slices, p);
  }

  /** `current` buffers the lines from `from` up to `i`; the parts hold all before. */
  predicate Buffers(parts: seq<string>, current: string, lines: seq<string>, from: nat, i: nat) {
    && from <= i <= |lines|
    && current == Concat(lines[from..i]) && Concat(parts) + current == Concat(lines[..i])
  }

  lemma FlushKeeps(parts: seq<string>, current: string, lines: seq<string>, from: nat, i: nat)
    requires Buffers(parts, current, lines, from, i)
    ensures Buffers(parts + [current], "", lines, i, i) && WholeLines(current, lines, from, i)
  {
    ConcatAppend(parts, current);
  }

  lemma TakeKeeps(parts: seq<string>, current: string, lines: seq<string>, from: nat, i: nat)
    requires Buffers(parts, current, lines, from, i) && i < |lines|
    ensures Buffers(parts, current + lines[i], lines, from, i + 1)
  {
    ConcatNext(lines, from, i);
    ConcatNext(lines, 0, i);
    assert lines[0..i] == lines[..i] && lines[0..i + 1] == lines[..i + 1];
  }

  lemma ConcatNext(lines: seq<string>, from: nat, i: nat)
    requires from <= i < |lines|
    ensures Concat(lines[from..i + 1]) == Concat(lines[from..i]) + lines[i]
  {
    assert lines[from..i + 1] == lines[from..i] + [lines[i]];
    ConcatAppend(lines[from..i], lines[i]);
  }

  lemma SlicesKeep(parts: seq<string>, slices: seq<string>, lines: seq<string>, from: nat, i: nat)
    requires Buffers(parts, "", lines, from, i) && i < |lines| && Concat(slices) == lines[i]
    ensures Buffers(parts + slices, "", lines, i + 1, i + 1)
  {
    assert lines[..i + 1] == lines[..i] + [lines[i]];
    ConcatAppend(lines[..i], lines[i]);
    ConcatConcat(parts, slices);
  }

  ghost predicate GoodPart(p: string, lines: seq<string>, language: string, limit: nat) {
    CodePart(p, language, limit) && Justified(p, lines, language, limit)
  }

  ghost predicate GoodParts(parts: seq<string>, lines: seq<string>, language: string, limit: nat) {
    forall k {:trigger GoodPart(parts[k], lines, language, limit)} ::
      0 <= k < |parts| ==> GoodPart(parts[k], lines, language, limit)
  }

  /** The sources of the parts concatenate to the code; each part fits with its own metadata; a part ends inside a line
      only where that line does not fit by itself. `lines` is the code cut at its line ends. */
  method SplitCodeSegment(code: string, language: string, lines: seq<string>, limit: nat) returns (parts: seq<string>)
    requires limit >= 256 && Concat(lines) == code && forall l :: l in lines ==> l != ""
    ensures Concat(parts) == code
    ensures if CodeFits(code, language, limit) then parts == [code] else GoodParts(parts, lines, language, limit)
  {
    if CodeFits(code, language, limit) {
      assert Concat([code][1..]) == "";
      return [code];
    }
    parts := [];
    var current := "";
    ghost var from := 0;
    for i := 0 to |lines|
      invariant Buffers(parts, current, lines, from, i) && GoodParts(parts, lines, language, limit)
      invariant current != "" ==> CodePart(current, language, limit)
    {
      assert lines[i] in lines;
      parts, current, from := AddLine(parts, current, language, limit, lines, from, i);
    }
    if current != "" {
      parts := FlushBuffer(parts, current, language, limit, lines, from, |lines|);
    }
    assert lines[..|lines|] == lines;
  }

  /** One source line: the buffer is flushed first if the line does not fit behind it; an oversized line is cut up. */
  method AddLine(parts: seq<string>, current: string, language: string, limit: nat,
                 lines: seq<string>, ghost from: nat, i: nat)
    returns (after: seq<string>, buffer: string, ghost start: nat)
    requires limit >= 256 && i < |lines| && lines[i] != ""
    requires Buffers(parts, current, lines, from, i) && GoodParts(parts, lines, language, limit)
    requires current != "" ==> CodePart(current, language, limit)
    ensures Buffers(after, buffer, lines, start, i + 1) && GoodParts(after, lines, language, limit)
    ensures buffer != "" ==> CodePart(buffer, language, limit)
  {
    var line := lines[i];
    after, buffer, start := parts, current, from;
    if current != "" && !CodeFits(current + line, language, limit) {
      after := FlushBuffer(parts, current, language, limit, lines, from, i);
      buffer, start := "", i;
    }
    if CodeFits(line, language, limit) {
      TakeKeeps(after, buffer, lines, start, i);
      LineFits(buffer, line, language, limit);
      buffer := buffer + line;
    } else {
      // Lines still buffered would be overtaken; there are none, since the line alone is too large.
      OversizedFlushes(current, line, language, limit);
      after := CutLine(after, line, language, limit, lines, start, i);
      buffer, start := "", i + 1;
    }
  }

  lemma LineFits(buffer: string, line: string, language: string, limit: nat)
    requires CodeFits(line, language, limit) && line != ""
    requires buffer != "" ==> CodeFits(buffer + line, language, limit)
    ensures CodePart(buffer + line, language, limit)
  {
    assert buffer == "" ==> buffer + line == line;
  }

  method CutLine(parts: seq<string>, line: string, language: string, limit: nat,
                 ghost lines: seq<string>, ghost from: nat, ghost i: nat) returns (after: seq<string>)
    requires limit >= 256 && i < |lines| && line == lines[i] && !CodeFits(line, language, limit)
    requires Buffers(parts, "", lines, from, i) && GoodParts(parts, lines, language, limit)
    ensures Buffers(after, "", lines, i + 1, i + 1) && GoodParts(after, lines, language, limit)
  {
    var slices := SplitLine(line, language, limit);
    SlicesKeep(parts, slices, lines, from, i);
    after := parts + slices;
  }

  method FlushBuffer(parts: seq<string>, current: string, language: string, limit: nat,
                     ghost lines: seq<string>, ghost from: nat, ghost i: nat) returns (flushed: seq<string>)
    requires Buffers(parts, current, lines, from, i) && GoodParts(parts, lines, language, limit)
    requires CodePart(current, language, limit)
    ensures flushed == parts + [current] && Buffers(flushed, "", lines, i, i)
      && GoodParts(flushed, lines, language, limit)
  {
    FlushKeeps(parts, current, lines, from, i);
    assert GoodPart(current, lines, language, limit);
    flushed := parts + [current];
  }

  lemma {:induction false} ConcatConcat(a: seq<string>, b: seq<string>)
    ensures Concat(a + b) == Concat(a) + Concat(b)
    decreases |a|
  {
    if a == [] {
      assert a + b == b;
    } else {
      assert (a + b)[1..] == a[1..] + b;
      ConcatConcat(a[1..], b);
    }
  }
}
