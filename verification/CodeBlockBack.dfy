/** What a native block says: its body, its language and how many lines it has can be read back from it. */
module CodeBlockBack {
  import opened CodeBlocks
  import opened JsonText

  datatype Block = Block(body: string, lang: string, lines: nat)

  // Length of the part before the last newline, or -1.
  function LastNewline(s: string): (k: int)
    ensures -1 <= k < |s| && (k >= 0 ==> s[k] == '\n') && forall i :: k < i < |s| ==> s[i] != '\n'
  {
    if s == "" then -1 else if s[|s| - 1] == '\n' then |s| - 1 else LastNewline(s[..|s| - 1])
  }

  function Until(s: string, c: char): (k: nat)
    ensures k <= |s| && (k < |s| ==> s[k] == c) && forall i :: 0 <= i < k ==> s[i] != c
  {
    if s == "" || s[0] == c then 0 else 1 + Until(s[1..], c)
  }

  function After(s: string, prefix: string): Option<string> {
    if prefix <= s then Some(s[|prefix|..]) else None
  }

  const LANG := "{\"lang\":\""
  const TOTAL := "\",\"lineBreak\":false,\"totalLines\":"

  // {"lang":"...","lineBreak":false,"totalLines":n}
  function ReadMeta(meta: string): Option<(string, nat)> {
    match After(meta, LANG)
    case None => None
    case Some(s) =>
      var k := Until(s, '\"');
      match After(s[k..], TOTAL)
      case None => None
      case Some(t) =>
        var n := DigitRun(t);
        if n > 0 && t[n..] == "}" then Some((s[..k], ValueOf(t[..n]))) else None
  }

  function ReadBlock(text: string): Option<Block> {
    if |text| < |CODE_START| + |CODE_END| || text[..|CODE_START|] != CODE_START
       || text[|text| - |CODE_END|..] != CODE_END then None
    else
      var inner := text[|CODE_START|..|text| - |CODE_END|];
      var k := LastNewline(inner);
      if k < 0 then None
      else
        match ReadMeta(inner[k + 1..])
        case None => None
        case Some((lang, lines)) => Some(Block(inner[..k], lang, lines))
  }

  /** A body without newline characters has one line, and each adds one; an empty body has none. */
  function LineCount(body: string): nat {
    if body == "" then 0 else 1 + |set i | 0 <= i < |body| && body[i] == '\n'|
  }

  lemma {:induction false} NewlinesCount(s: string)
    ensures Newlines(s) == |set i | 0 <= i < |s| && s[i] == '\n'|
    decreases |s|
  {
    var places := set i | 0 <= i < |s| && s[i] == '\n';
    if s != "" {
      var n := |s| - 1;
      NewlinesCount(s[..n]);
      var before := set i | 0 <= i < |s[..n]| && s[..n][i] == '\n';
      assert places == if s[n] == '\n' then before + {n} else before;
    }
  }

  lemma LanguageIsPlain(lang: string)
    requires lang in LANGUAGES
    ensures '\"' !in lang && '\n' !in lang
  {
  }

  lemma MetaParts(a: string, b: string, c: string, d: string, e: string)
    ensures a + b + c + d + e == a + (b + (c + (d + e)))
  {
  }

  lemma MetaBack(lang: string, lines: nat)
    requires '\"' !in lang
    ensures ReadMeta(Meta(lang, lines)) == Some((lang, lines))
  {
    var digits := Digits(lines);
    var t := digits + "}";
    var s := lang + (TOTAL + t);
    MetaParts(LANG, lang, TOTAL, digits, "}");
    assert (LANG + s)[|LANG|..] == s;
    UntilAt(lang, TOTAL + t, '\"');
    assert s[|lang|..] == TOTAL + t && s[..|lang|] == lang;
    assert (TOTAL + t)[|TOTAL|..] == t;
    DigitsAre(lines);
    RunAt(digits, "}");
    assert t[..|digits|] == digits && t[|digits|..] == "}";
  }

  lemma UntilAt(a: string, b: string, c: char)
    requires c !in a && b != "" && b[0] == c
    ensures Until(a + b, c) == |a|
  {
    assert (a + b)[|a|] == c && forall i :: 0 <= i < |a| ==> (a + b)[i] == a[i];
  }

  lemma RunAt(a: string, b: string)
    requires (forall i :: 0 <= i < |a| ==> IsDigit(a[i])) && b != "" && !IsDigit(b[0])
    ensures DigitRun(a + b) == |a|
  {
    assert (a + b)[|a|] == b[0] && forall i :: 0 <= i < |a| ==> (a + b)[i] == a[i];
  }

  lemma MetaIsOneLine(lang: string, lines: nat)
    requires '\n' !in lang
    ensures '\n' !in Meta(lang, lines)
  {
    DigitsAre(lines);
    assert Meta(lang, lines) == LANG + lang + TOTAL + Digits(lines) + "}";
    assert forall c :: c in Digits(lines) ==> IsDigit(c);
  }

  /** Common names of a supported language stand for it, and what is not known is shown as Python. */
  lemma LanguageNames(other: string)
    requires other !in LANGUAGES && other !in ALIASES
    ensures NormalizeLanguage("c++") == NormalizeLanguage("cc") == NormalizeLanguage("cxx") == "cpp"
    ensures NormalizeLanguage("js") == NormalizeLanguage("jsx") == NormalizeLanguage("node") == "javascript"
    ensures NormalizeLanguage("json") == "javascript" && NormalizeLanguage("golang") == "go"
    ensures NormalizeLanguage("ts") == NormalizeLanguage("tsx") == "typescript" && NormalizeLanguage("rs") == "rust"
    ensures NormalizeLanguage("py") == NormalizeLanguage("bash") == NormalizeLanguage(other) == "python"
  {
  }

  lemma WrappedBack(text: string, body: string, meta: string, lang: string, lines: nat)
    requires text == CODE_START + (body + "\n" + meta) + CODE_END
    requires '\n' !in meta && ReadMeta(meta) == Some((lang, lines))
    ensures ReadBlock(text) == Some(Block(body, lang, lines))
  {
    InnerBack(body, meta);
    Unwrapped(body + "\n" + meta);
  }

  lemma Regroup(a: string, b: string, c: string, d: string, e: string)
    ensures a + b + c + d + e == a + (b + c + d) + e
  {
  }

  lemma BlockRead(code: string, lang: string, language: string)
    requires lang == NormalizeLanguage(language) && '\"' !in lang && '\n' !in lang
    ensures var body := BodyOf(code);
      ReadBlock(EncodeBlock(code, language)) == Some(Block(body, lang, TotalLines(body)))
  {
    var body := BodyOf(code);
    var meta := Meta(lang, TotalLines(body));
    MetaIsOneLine(lang, TotalLines(body));
    MetaBack(lang, TotalLines(body));
    Regroup(CODE_START, body, "\n", meta, CODE_END);
    WrappedBack(EncodeBlock(code, language), body, meta, lang, TotalLines(body));
  }

  /** The block of a code shows the code but for one newline at its end, a supported language (the one asked for if that
      is supported) and the number of lines shown. */
  lemma BlockBack(code: string, language: string)
    ensures var r := ReadBlock(EncodeBlock(code, language));
      && r.Some?
      && code == r.value.body + (if code != "" && code[|code| - 1] == '\n' then "\n" else "")
      && r.value.lang in LANGUAGES && (language in LANGUAGES ==> r.value.lang == language)
      && r.value.lines == LineCount(r.value.body)
  {
    var lang := NormalizeLanguage(language);
    LanguageIsPlain(lang);
    BlockRead(code, lang, language);
    NewlinesCount(BodyOf(code));
  }

  lemma InnerBack(body: string, meta: string)
    requires '\n' !in meta
    ensures var inner := body + "\n" + meta; var k := LastNewline(inner);
      k == |body| && inner[..k] == body && inner[k + 1..] == meta
  {
    var inner := body + "\n" + meta;
    assert inner[|body|] == '\n' && forall i :: |body| < i < |inner| ==> inner[i] == meta[i - |body| - 1];
  }

  lemma Unwrapped(inner: string)
    ensures var text := CODE_START + inner + CODE_END;
      && |text| == |CODE_START| + |inner| + |CODE_END| && text[..|CODE_START|] == CODE_START
      && text[|text| - |CODE_END|..] == CODE_END && text[|CODE_START|..|text| - |CODE_END|] == inner
  {
  }
}
