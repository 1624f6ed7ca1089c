/** The modelled part of content.js: the `onMessage` dispatcher, the three
    language tables with their lookups, and the escape that puts Nowcoder
    code inside a JavaScript template literal. */
module Content {
  import opened Strings
  import opened Wire

  /** A message delivered to the tab: `{url, code, language}`. */
  datatype Message = Message(url: Option<string>, code: Code, language: Option<string>)

  /** The message a router's submission becomes. */
  function Deliver(s: Submission): Message {
    Message(Some(s.url), s.code, Some(s.language))
  }

  /** What the dispatcher hands each site handler, with the languages
      already resolved through the handler's table.  `source`/`problem` of
      the Codeforces form are None when `code` is not the nested object;
      the Nowcoder escape is None when `code` is not a string (`replace`
      throws). */
  datatype Action =
    | Ignored
    | LuoguEditor(code: Code, luoguLanguage: string)
    | CodeforcesForm(source: Option<string>, problem: Option<string>, fragment: Option<string>)
    | NowcoderScript(escaped: Option<string>, nowcoderLanguage: string)
    | Logged

  /** Shown when a table has no entry: "auto-detect language". */
  const AutoDetect := "自动识别语言"

  const LuoguLanguages: map<string, string> := map[
    "c" := "C", "cpp" := "C++23", "python" := "Python 3", "lua" := "Lua",
    "javascript" := "Node.js LTS", "typescript" := "TypeScript", "java" := "Java 8",
    "rust" := "Rust", "go" := "Go"]

  const NowcoderLanguages: map<string, string> := map[
    "c" := "C(gcc 10)", "cpp" := "C++（clang++18）", "python" := "Python3", "lua" := "Lua",
    "javascript" := "JavaScript Node", "typescript" := "TypeScript", "java" := "Java",
    "rust" := "Rust", "go" := "Go"]

  const CodeforcesLanguages: map<string, string> := map[
    "c" := "GNU GCC C11", "cpp" := "GNU G++23", "python" := "Python 3", "java" := "Java 8",
    "rust" := "Rust", "go" := "Go", "javascript" := "Node.js", "typescript" := "Node.js"]

  /** `table[language?.toLowerCase()]`: an absent language, or one whose
      lower case is not a key, has no entry. */
  function Lookup(table: map<string, string>, language: Option<string>): (r: Option<string>)
    ensures r.Some? <==> language.Some? && Lower(language.value) in table
    ensures r.Some? ==> r.value == table[Lower(language.value)]
  {
    if language.Some? && Lower(language.value) in table then Some(table[Lower(language.value)]) else None
  }

  /** `langMap[(language || "").toLowerCase()] || "自动识别语言"`: a known
      key, in any letter case, gives its entry; an absent, empty or unknown
      language gives the default. */
  function LuoguLanguage(language: Option<string>): (r: string)
    ensures language.Some? && Lower(language.value) in LuoguLanguages ==>
              r == LuoguLanguages[Lower(language.value)]
    ensures !(language.Some? && Lower(language.value) in LuoguLanguages) ==> r == AutoDetect
  {
    TableValues();
    assert Lower("") == "";
    Or(Lookup(LuoguLanguages, if Truthy(language) then language else Some("")), AutoDetect)
  }

  /** `NOWCODER_LANG_MAP[language?.toLowerCase()] || '自动识别语言'`: the
      same shape through optional chaining. */
  function NowcoderLanguage(language: Option<string>): (r: string)
    ensures language.Some? && Lower(language.value) in NowcoderLanguages ==>
              r == NowcoderLanguages[Lower(language.value)]
    ensures !(language.Some? && Lower(language.value) in NowcoderLanguages) ==> r == AutoDetect
  {
    TableValues();
    Or(Lookup(NowcoderLanguages, language), AutoDetect)
  }

  /** `CF_LANG_MAP[language?.toLowerCase()] || null`: the `|| null` never
      discards an entry, so the fragment is null exactly on a missing key. */
  function CodeforcesLanguage(language: Option<string>): (r: Option<string>)
    ensures r == Lookup(CodeforcesLanguages, language)
    ensures r.None? <==> !(language.Some? && Lower(language.value) in CodeforcesLanguages)
  {
    TableValues();
    match Lookup(CodeforcesLanguages, language)
    case Some(v) => if v != "" then Some(v) else None
    case None => None
  }

  /** `s.replace(/c/g, rep)` for a single-character pattern: every
      occurrence goes, and a text without c is left alone. */
  function ReplaceAll(s: string, c: char, rep: string): (r: string)
    ensures c !in rep ==> c !in r
    ensures c !in s ==> r == s
  {
    if s == [] then []
    else (if s[0] == c then rep else [s[0]]) + ReplaceAll(s[1..], c, rep)
  }

  /** The characters a template literal treats specially. */
  predicate Special(c: char) {
    c == '\\' || c == '`' || c == '$'
  }

  /** The escape chain: backslashes first, then backticks, then dollars.
      It escapes each character on its own, so the text grows by the
      number of special characters. */
  function Escape(s: string): (r: string)
    ensures r == EscapeEach(s)
    ensures |r| == |s| + Count(s)
  {
    ChainEach(s);
    ReplaceAll(ReplaceAll(ReplaceAll(s, '\\', "\\\\"), '`', "\\`"), '$', "\\$")
  }

  /** The reference escape: one backslash before each special character. */
  function EscapeEach(s: string): (r: string)
    ensures |r| == |s| + Count(s)
  {
    if s == [] then []
    else (if Special(s[0]) then ['\\', s[0]] else [s[0]]) + EscapeEach(s[1..])
  }

  /** How many special characters s holds. */
  function Count(s: string): nat {
    if s == [] then 0 else (if Special(s[0]) then 1 else 0) + Count(s[1..])
  }

  /** Removes the backslash of every `\c` pair. */
  function Unescape(s: string): string
    decreases |s|
  {
    if |s| >= 2 && s[0] == '\\' then [s[1]] + Unescape(s[2..])
    else if s == [] then []
    else [s[0]] + Unescape(s[1..])
  }

  /** The string value a template literal with body t evaluates to, when t
      has no substitution: `\\`, `` \` `` and `\$` stand for the character,
      CR LF and CR read as LF.  None for an unescaped backtick (the literal
      would end there), an unescaped `${` (a substitution), a lone final
      backslash or any other escape sequence (not modelled). */
  function ReadTemplate(t: string): Option<string>
    decreases |t|
  {
    if t == [] then Some([])
    else if t[0] == '`' then None
    else if t[0] == '$' && |t| >= 2 && t[1] == '{' then None
    else if t[0] == '\\' then
      if |t| >= 2 && Special(t[1]) then Prepend(t[1], ReadTemplate(t[2..])) else None
    else if t[0] == '\r' then
      if |t| >= 2 && t[1] == '\n' then Prepend('\n', ReadTemplate(t[2..])) else Prepend('\n', ReadTemplate(t[1..]))
    else Prepend(t[0], ReadTemplate(t[1..]))
  }

  function Prepend(c: char, o: Option<string>): Option<string> {
    if o.Some? then Some([c] + o.value) else None
  }

  /** `onMessage`: ignored without a truthy `url`; otherwise Luogu, then
      Codeforces (unpacking the nested code), then Nowcoder, else a log. */
  function Dispatch(m: Message): (r: Action)
    ensures r.Ignored? <==> !Truthy(m.url)
    ensures r.Logged? <==> Truthy(m.url) && SiteOf(m.url.value) == Elsewhere
  {
    if !Truthy(m.url) then Ignored
    else match SiteOf(m.url.value)
      case Luogu => LuoguEditor(m.code, LuoguLanguage(m.language))
      case Codeforces =>
        (match m.code
         case Nested(source, problem, _) => CodeforcesForm(Some(source), Some(problem), CodeforcesLanguage(m.language))
         case Plain(_) => CodeforcesForm(None, None, CodeforcesLanguage(m.language)))
      case Nowcoder =>
        (match m.code
         case Plain(text) => NowcoderScript(Some(Escape(text)), NowcoderLanguage(m.language))
         case Nested(_, _, _) => NowcoderScript(None, NowcoderLanguage(m.language)))
      case Elsewhere => Logged
  }

  // ---------- language tables ----------

  /** Every table entry is a non-empty name other than the default, so
      `|| default` fires exactly on a missing key. */
  lemma TableValues()
    ensures forall k :: k in LuoguLanguages ==> LuoguLanguages[k] != "" && LuoguLanguages[k] != AutoDetect
    ensures forall k :: k in NowcoderLanguages ==> NowcoderLanguages[k] != "" && NowcoderLanguages[k] != AutoDetect
    ensures forall k :: k in CodeforcesLanguages ==> CodeforcesLanguages[k] != ""
  {
  }

  /** The lookups ignore letter case. */
  lemma LookupIgnoresCase(s: string)
    ensures LuoguLanguage(Some(s)) == LuoguLanguage(Some(Lower(s)))
    ensures NowcoderLanguage(Some(s)) == NowcoderLanguage(Some(Lower(s)))
    ensures CodeforcesLanguage(Some(s)) == CodeforcesLanguage(Some(Lower(s)))
  {
    LowerIdempotent(s);
    if s == [] {
      assert Lower(s) == [];
    }
  }

  /** Both script languages share the Codeforces entry "Node.js". */
  lemma NodeEntries(js: string, ts: string)
    requires Lower(js) == "javascript" && Lower(ts) == "typescript"
    ensures CodeforcesLanguage(Some(js)) == Some("Node.js") && CodeforcesLanguage(Some(ts)) == Some("Node.js")
  {
    var a, b := "javascript", "typescript";
    assert a in CodeforcesLanguages && CodeforcesLanguages[a] == "Node.js";
    assert b in CodeforcesLanguages && CodeforcesLanguages[b] == "Node.js";
  }

  /** `cpp`, in any letter case, is Luogu's "C++23". */
  lemma CppEntry(cpp: string)
    requires Lower(cpp) == "cpp"
    ensures LuoguLanguage(Some(cpp)) == "C++23"
  {
    var k := "cpp";
    assert |cpp| == 3;
    assert k in LuoguLanguages && LuoguLanguages[k] == "C++23";
  }

  /** Codeforces has no Lua entry: the fragment is null. */
  lemma LuaMissing(lua: string)
    requires Lower(lua) == "lua"
    ensures CodeforcesLanguage(Some(lua)).None?
  {
    var k := "lua";
    assert k !in CodeforcesLanguages;
  }

  // ---------- escape ----------

  lemma {:induction false} ReplaceAllAppend(a: string, b: string, c: char, rep: string)
    ensures ReplaceAll(a + b, c, rep) == ReplaceAll(a, c, rep) + ReplaceAll(b, c, rep)
    decreases |a|
  {
    if a == [] {
      assert a + b == b;
    } else {
      assert (a + b)[1..] == a[1..] + b;
      ReplaceAllAppend(a[1..], b, c, rep);
    }
  }

  /** The chain escapes each character on its own: a later replacement
      never touches what an earlier one inserted. */
  lemma {:induction false} ChainEach(s: string)
    ensures ReplaceAll(ReplaceAll(ReplaceAll(s, '\\', "\\\\"), '`', "\\`"), '$', "\\$") == EscapeEach(s)
    decreases |s|
  {
    if s != [] {
      var h, t := [s[0]], s[1..];
      assert s == h + t;
      ReplaceAllAppend(h, t, '\\', "\\\\");
      var a1, a2 := ReplaceAll(h, '\\', "\\\\"), ReplaceAll(t, '\\', "\\\\");
      ReplaceAllAppend(a1, a2, '`', "\\`");
      var b1, b2 := ReplaceAll(a1, '`', "\\`"), ReplaceAll(a2, '`', "\\`");
      ReplaceAllAppend(b1, b2, '$', "\\$");
      ChainEach(t);
      ChainHead(s[0]);
    }
  }

  /** One character through the chain. */
  lemma ChainHead(c: char)
    ensures ReplaceAll(ReplaceAll(ReplaceAll([c], '\\', "\\\\"), '`', "\\`"), '$', "\\$")
            == if Special(c) then ['\\', c] else [c]
  {
    var bs, bt, dl := "\\\\", "\\`", "\\$";
    var e := ReplaceAll([c], '\\', bs);
    assert e == (if c == '\\' then bs else [c]) by {
      assert ReplaceAll([c], '\\', bs) == (if c == '\\' then bs else [c]) + ReplaceAll([], '\\', bs);
    }
    if c != '\\' {
      assert ReplaceAll([c], '`', bt) == (if c == '`' then bt else [c]) + ReplaceAll([], '`', bt);
      if c != '`' {
        assert ReplaceAll([c], '$', dl) == (if c == '$' then dl else [c]) + ReplaceAll([], '$', dl);
      }
    }
  }

  /** Un-escaping recovers the input. */
  lemma UnescapeEscape(s: string)
    ensures Unescape(Escape(s)) == s
  {
    UnescapeEach(s);
  }

  lemma {:induction false} UnescapeEach(s: string)
    ensures Unescape(EscapeEach(s)) == s
    decreases |s|
  {
    if s != [] {
      UnescapeEach(s[1..]);
      var r := EscapeEach(s[1..]);
      if Special(s[0]) {
        assert EscapeEach(s) == ['\\', s[0]] + r;
        assert (['\\', s[0]] + r)[2..] == r;
      } else {
        assert EscapeEach(s) == [s[0]] + r;
        assert ([s[0]] + r)[1..] == r;
      }
    }
  }

  /** The injected script's template literal evaluates to the original code
      for any code without a carriage return. */
  lemma ReadEscaped(s: string)
    requires '\r' !in s
    ensures ReadTemplate(Escape(s)) == Some(s)
  {
    ReadEach(s);
  }

  lemma {:induction false} ReadEach(s: string)
    requires '\r' !in s
    ensures ReadTemplate(EscapeEach(s)) == Some(s)
    decreases |s|
  {
    if s != [] {
      ReadEach(s[1..]);
      var r := EscapeEach(s[1..]);
      if Special(s[0]) {
        assert EscapeEach(s) == ['\\', s[0]] + r;
        assert (['\\', s[0]] + r)[2..] == r;
      } else {
        assert EscapeEach(s) == [s[0]] + r;
        assert ([s[0]] + r)[1..] == r;
      }
      assert [s[0]] + s[1..] == s;
    }
  }

  // ---------- dispatcher ----------

  /** A truthy URL reaches the handler of its judge, in the routers' order;
      the Codeforces form receives the nested code's own fields. */
  lemma DispatchSites(m: Message)
    requires Truthy(m.url)
    ensures SiteOf(m.url.value) == Luogu <==> Dispatch(m).LuoguEditor?
    ensures SiteOf(m.url.value) == Codeforces <==> Dispatch(m).CodeforcesForm?
    ensures SiteOf(m.url.value) == Nowcoder <==> Dispatch(m).NowcoderScript?
    ensures SiteOf(m.url.value) == Codeforces && m.code.Nested? ==>
              Dispatch(m) == CodeforcesForm(Some(m.code.source), Some(m.code.problem), CodeforcesLanguage(m.language))
  {
  }
}
