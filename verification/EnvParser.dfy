/**
 * The parser for environment files: one `KEY=VALUE` a line, comment lines, and
 * quotes around a value. Parsing a file line by line has three meanings that
 * agree: the loop, a merge of the parts of the file, and "the last line that
 * sets a key wins".
 */
module EnvParser {
  import opened Wrappers

  type Env = map<string, string>

  datatype Pair = Pair(key: string, value: string)

  const FORBIDDEN_KEYS: set<string> := {"__proto__", "constructor", "prototype"}

  // ------------------------------------------------------- the string library

  /** White space and line terminators, as String.prototype.trim removes them. */
  predicate IsSpace(c: char) {
    || '\t' <= c <= '\r' || c == ' ' || c == '\U{A0}' || c == '\U{1680}' || '\U{2000}' <= c <= '\U{200A}'
    || c in {'\U{2028}', '\U{2029}', '\U{202F}', '\U{205F}', '\U{3000}', '\U{FEFF}'}
  }

  predicate Trimmed(s: string) {
    s != "" ==> !IsSpace(s[0]) && !IsSpace(s[|s| - 1])
  }

  function TrimStart(s: string): (r: string)
    ensures |r| <= |s| && r == s[|s| - |r|..]
    ensures r != "" ==> !IsSpace(r[0])
    ensures forall i | 0 <= i < |s| - |r| :: IsSpace(s[i])
  {
    if s != "" && IsSpace(s[0]) then TrimStart(s[1..]) else s
  }

  function TrimEnd(s: string): (r: string)
    ensures |r| <= |s| && r == s[..|r|]
    ensures r != "" ==> !IsSpace(r[|r| - 1])
    ensures forall i | |r| <= i < |s| :: IsSpace(s[i])
  {
    if s != "" && IsSpace(s[|s| - 1]) then TrimEnd(s[..|s| - 1]) else s
  }

  function Trim(s: string): (r: string)
    ensures Trimmed(r)
    ensures r == s <==> Trimmed(s)
    ensures forall c | c in r :: c in s
    ensures s != "" && !IsSpace(s[0]) ==> r != "" && r[0] == s[0]
  {
    TrimEnd(TrimStart(s))
  }

  /** The first place of `c` in `s`. */
  function IndexOf(s: string, c: char): (r: Option<nat>)
    ensures r.Some? ==> r.value < |s| && s[r.value] == c && forall j | 0 <= j < r.value :: s[j] != c
    ensures r.None? ==> c !in s
  {
    if s == "" then None
    else if s[0] == c then Some(0)
    else match IndexOf(s[1..], c)
         case None => None
         case Some(i) => Some(i + 1)
  }

  predicate CommentAt(s: string, i: int) {
    0 <= i < |s| - 1 && s[i] == ' ' && s[i + 1] == '#'
  }

  /** The first ` #` in `s`. */
  function IndexOfComment(s: string, from: nat := 0): (r: Option<nat>)
    ensures r.Some? ==> r.value >= from && CommentAt(s, r.value) && forall i | from <= i < r.value :: !CommentAt(s, i)
    ensures r.None? ==> forall i | from <= i :: !CommentAt(s, i)
    decreases |s| - from
  {
    if from >= |s| then None
    else if CommentAt(s, from) then Some(from)
    else IndexOfComment(s, from + 1)
  }

  /** content.split("\n") */
  function Lines(content: string): (r: seq<string>)
    ensures |r| >= 1
    decreases |content|
  {
    match IndexOf(content, '\n')
    case None => [content]
    case Some(i) => [content[..i]] + Lines(content[i + 1..])
  }

  // ------------------------------------------------------------------- parsing

  predicate IsQuoted(s: string) {
    |s| >= 2 && s[0] == s[|s| - 1] && s[0] in {'"', '\''}
  }

  function ParseEnvValue(value: string): (r: string)
    ensures forall c | c in r :: c in value
    ensures |r| <= |value|
  {
    if IsQuoted(value) then value[1..|value| - 1]
    else
      var bare := match IndexOfComment(value)
                  case None => value
                  case Some(i) => TrimEnd(value[..i]);
      if IsQuoted(bare) then bare[1..|bare| - 1] else bare
  }

  /** What one line sets, if anything. */
  function ParseLine(rawLine: string): Option<Pair> {
    var line := Trim(rawLine);
    if line == "" || line[0] == '#' then None
    else match IndexOf(line, '=')
         case None => None
         case Some(i) =>
           var key := Trim(line[..i]);
           if key in FORBIDDEN_KEYS then None else Some(Pair(key, ParseEnvValue(Trim(line[i + 1..]))))
  }

  function Set(env: Env, p: Option<Pair>): Env {
    if p.None? then env else env[p.value.key := p.value.value]
  }

  function ParsedLines(lines: seq<string>): Env {
    if lines == [] then map[] else Set(ParsedLines(lines[..|lines| - 1]), ParseLine(lines[|lines| - 1]))
  }

  function Parsed(content: string): Env {
    ParsedLines(Lines(content))
  }

  method ParseEnvFile(content: string) returns (env: Env)
    ensures env == Parsed(content)
  {
    hide Lines, IndexOf, Trim, TrimStart, TrimEnd, ParseEnvValue, IsSpace, Trimmed;
    env := map[];
    var lines := Lines(content);
    for n := 0 to |lines|
      invariant env == ParsedLines(lines[..n])
    {
      assert lines[..n + 1][..n] == lines[..n];
      var line := Trim(lines[n]);
      if line == "" || line[0] == '#' { continue; }
      var eq := IndexOf(line, '=');
      if eq.None? { continue; }
      var key := Trim(line[..eq.value]);
      if key in FORBIDDEN_KEYS { continue; }
      env := env[key := ParseEnvValue(Trim(line[eq.value + 1..]))];
    }
    assert lines[..|lines|] == lines;
  }

  // --------------------------------------------------------- lines of a content

  function Join(lines: seq<string>): string
    requires lines != []
  {
    if |lines| == 1 then lines[0] else lines[0] + "\n" + Join(lines[1..])
  }

  /** The lines of a content are the only newline-free strings that joined give it back. */
  lemma {:induction false} LinesInvertJoin(content: string)
    ensures Join(Lines(content)) == content
    ensures forall i | 0 <= i < |Lines(content)| :: '\n' !in Lines(content)[i]
    decreases |content|
  {
    hide IndexOf;
    var at := IndexOf(content, '\n');
    if at.Some? {
      var rest := content[at.value + 1..];
      LinesInvertJoin(rest);
      assert Lines(content)[1..] == Lines(rest);
      assert content == content[..at.value] + "\n" + rest;
      forall i | 0 <= i < |Lines(content)|
        ensures '\n' !in Lines(content)[i]
      {
        if i > 0 { assert Lines(content)[i] == Lines(rest)[i - 1]; }
      }
    }
  }

  /** The first place is determined by being the first. */
  lemma FirstIsFirst(s: string, c: char, i: nat)
    requires i < |s| && s[i] == c && forall j | 0 <= j < i :: s[j] != c
    ensures IndexOf(s, c) == Some(i)
  {
    var r := IndexOf(s, c);
    assert r.Some?;
    assert !(i < r.value);
  }

  lemma LinesFromFirst(s: string, i: nat)
    requires i < |s| && s[i] == '\n' && forall j | 0 <= j < i :: s[j] != '\n'
    ensures Lines(s) == [s[..i]] + Lines(s[i + 1..])
  {
    hide IndexOf;
    FirstIsFirst(s, '\n', i);
  }

  lemma LinesOfLine(s: string)
    requires '\n' !in s
    ensures Lines(s) == [s]
  {
    hide IndexOf;
    assert IndexOf(s, '\n').None?;
  }

  lemma {:induction false} LinesOfConcat(a: string, b: string)
    ensures Lines(a + "\n" + b) == Lines(a) + Lines(b)
    decreases |a|
  {
    hide Lines, IndexOf;
    var whole := a + "\n" + b;
    var at := IndexOf(a, '\n');
    if at.None? {
      LinesFromFirst(whole, |a|);
      LinesOfLine(a);
      assert whole[..|a|] == a && whole[|a| + 1..] == b;
    } else {
      var i := at.value;
      var rest := a[i + 1..];
      LinesFromFirst(whole, i);
      LinesFromFirst(a, i);
      LinesOfConcat(rest, b);
      assert whole[..i] == a[..i] && whole[i + 1..] == rest + "\n" + b;
    }
  }

  // ------------------------------------------------------------ parts of a file

  lemma {:induction false} ParsedConcat(a: seq<string>, b: seq<string>)
    ensures ParsedLines(a + b) == ParsedLines(a) + ParsedLines(b)
    decreases |b|
  {
    hide ParseLine;
    if b == [] {
      assert a + b == a;
    } else {
      var init := b[..|b| - 1];
      assert (a + b)[..|a + b| - 1] == a + init;
      ParsedConcat(a, init);
    }
  }

  /** A file in two parts means the first part overridden by the second. */
  lemma {:induction false} PartsMerge(a: string, b: string)
    ensures Parsed(a + "\n" + b) == Parsed(a) + Parsed(b)
  {
    LinesOfConcat(a, b);
    ParsedConcat(Lines(a), Lines(b));
  }

  /** Line `i` sets `key` to `value`. */
  predicate Sets(lines: seq<string>, i: int, key: string, value: string) {
    0 <= i < |lines| && ParseLine(lines[i]) == Some(Pair(key, value))
  }

  predicate Mentions(lines: seq<string>, i: int, key: string) {
    0 <= i < |lines| && ParseLine(lines[i]).Some? && ParseLine(lines[i]).value.key == key
  }

  predicate NoMentionAfter(lines: seq<string>, i: int, key: string) {
    forall j | i < j < |lines| :: !Mentions(lines, j, key)
  }

  /** The history meaning: a key has a value exactly when the last line that mentions it sets it so. */
  lemma {:induction false} LastLineWins(lines: seq<string>, key: string, value: string)
    ensures (key in ParsedLines(lines) && ParsedLines(lines)[key] == value)
            <==> exists i :: Sets(lines, i, key, value) && NoMentionAfter(lines, i, key)
  {
    hide ParseLine;
    if lines != [] {
      var n := |lines| - 1;
      var init := lines[..n];
      LastLineWins(init, key, value);
      assert forall i | i < n :: Mentions(lines, i, key) <==> Mentions(init, i, key);
      assert forall i | i < n :: Sets(lines, i, key, value) <==> Sets(init, i, key, value);
      if Mentions(lines, n, key) {
        assert NoMentionAfter(lines, n, key);
        assert forall i | i < n :: !NoMentionAfter(lines, i, key);
      } else {
        assert forall i | i < n :: NoMentionAfter(lines, i, key) <==> NoMentionAfter(init, i, key);
      }
    }
  }

  // ----------------------------------------------------------------- round trip

  /** The pairs that survive being written as KEY="value" on a line. */
  predicate Renderable(p: Pair) {
    && Trimmed(p.key) && '=' !in p.key && '\n' !in p.key && p.key !in FORBIDDEN_KEYS
    && (p.key != "" ==> p.key[0] != '#')
    && '\n' !in p.value
  }

  function RenderPair(p: Pair): string {
    p.key + "=\"" + p.value + "\""
  }

  function Render(pairs: seq<Pair>): string {
    if pairs == [] then "" else RenderPair(pairs[0]) + "\n" + Render(pairs[1..])
  }

  /** The right-biased map of the pairs. */
  function Merge(pairs: seq<Pair>): Env {
    if pairs == [] then map[] else map[pairs[0].key := pairs[0].value] + Merge(pairs[1..])
  }

  lemma {:induction false} QuotedValueParses(v: string)
    ensures Trim("\"" + v + "\"") == "\"" + v + "\""
    ensures ParseEnvValue("\"" + v + "\"") == v
  {
    var quoted := "\"" + v + "\"";
    assert quoted[0] == '"' && quoted[|quoted| - 1] == '"';
    assert quoted[1..|quoted| - 1] == v;
  }

  lemma {:induction false} RenderedLineIsTrimmed(p: Pair)
    requires Trimmed(p.key)
    ensures Trim(RenderPair(p)) == RenderPair(p)
  {
    var line := RenderPair(p);
    assert line[|line| - 1] == '"';
    assert line[0] == if p.key == "" then '=' else p.key[0];
    hide TrimStart, TrimEnd;
  }

  lemma {:induction false} RenderedLineParses(p: Pair)
    requires Renderable(p)
    ensures ParseLine(RenderPair(p)) == Some(p)
  {
    hide ParseEnvValue, IsSpace, TrimStart, TrimEnd, IndexOf, IsQuoted, Trim;
    var line, n := RenderPair(p), |p.key|;
    RenderedLineIsTrimmed(p);
    assert line[0] == if n == 0 then '=' else p.key[0];
    assert line[..n] == p.key;
    FirstIsFirst(line, '=', n);
    assert line[n + 1..] == "\"" + p.value + "\"";
    QuotedValueParses(p.value);
    hide Trimmed, RenderPair;
  }

  lemma OneLine(s: string)
    requires '\n' !in s
    ensures Parsed(s) == Set(map[], ParseLine(s))
  {
    LinesOfLine(s);
    assert ParsedLines([s][..0]) == map[];
  }

  /** Parsing inverts rendering, whatever quotes, `#` or `=` the values hold. */
  lemma {:induction false} RoundTrip(pairs: seq<Pair>)
    requires forall i | 0 <= i < |pairs| :: Renderable(pairs[i])
    ensures Parsed(Render(pairs)) == Merge(pairs)
  {
    if pairs == [] {
      OneLine("");
    } else {
      var head := RenderPair(pairs[0]);
      PartsMerge(head, Render(pairs[1..]));
      OneLine(head);
      RenderedLineParses(pairs[0]);
      RoundTrip(pairs[1..]);
    }
  }

  /** Whatever the content, a line only ever sets a renderable pair. */
  lemma LineSetsRenderable(rawLine: string)
    requires '\n' !in rawLine && ParseLine(rawLine).Some?
    ensures Renderable(ParseLine(rawLine).value)
  {
    var line := Trim(rawLine);
    var i := IndexOf(line, '=').value;
    var key := Trim(line[..i]);
    assert forall c | c in line[..i] :: c in line;
    if i > 0 { assert line[..i][0] == line[0]; }
    var right := Trim(line[i + 1..]);
    assert forall c | c in right :: c in line;
    assert forall c | c in ParseEnvValue(right) :: c in line;
  }

  ghost predicate AllRenderable(env: Env) {
    forall k | k in env :: Renderable(Pair(k, env[k]))
  }

  lemma {:induction false} LinesSetRenderable(lines: seq<string>)
    requires forall i | 0 <= i < |lines| :: '\n' !in lines[i]
    ensures AllRenderable(ParsedLines(lines))
  {
    hide ParseLine, Renderable;
    if lines != [] {
      var n := |lines| - 1;
      LinesSetRenderable(lines[..n]);
      if ParseLine(lines[n]).Some? { LineSetsRenderable(lines[n]); }
    }
  }

  /** No content, however malformed, yields a forbidden key or a pair that could not be written back. */
  lemma ParsedIsRenderable(content: string)
    ensures AllRenderable(Parsed(content))
    ensures forall k | k in Parsed(content) ::
              k !in FORBIDDEN_KEYS && k != "__proto__" && k != "constructor" && k != "prototype"
  {
    LinesInvertJoin(content);
    LinesSetRenderable(Lines(content));
    forall k | k in Parsed(content)
      ensures k !in FORBIDDEN_KEYS && k != "__proto__" && k != "constructor" && k != "prototype"
    {
      assert Renderable(Pair(k, Parsed(content)[k]));
    }
  }

  ghost predicate DistinctKeys(pairs: seq<Pair>) {
    forall i, j | 0 <= i < j < |pairs| :: pairs[i].key != pairs[j].key
  }

  lemma {:induction false} MergeKeepsDistinct(pairs: seq<Pair>, i: nat)
    requires DistinctKeys(pairs) && i < |pairs|
    ensures pairs[i].key in Merge(pairs) && Merge(pairs)[pairs[i].key] == pairs[i].value
  {
    if i > 0 {
      MergeKeepsDistinct(pairs[1..], i - 1);
    } else {
      MergeHasOnly(pairs[1..], pairs[0].key);
    }
  }

  lemma {:induction false} MergeHasOnly(pairs: seq<Pair>, key: string)
    requires forall i | 0 <= i < |pairs| :: pairs[i].key != key
    ensures key !in Merge(pairs)
  {
    if pairs != [] { MergeHasOnly(pairs[1..], key); }
  }

  /** The conditions of the round trip are exact: a map survives if and only if each of its pairs meets them. */
  lemma {:induction false} RoundTripIff(pairs: seq<Pair>)
    requires DistinctKeys(pairs)
    ensures Parsed(Render(pairs)) == Merge(pairs) <==> forall i | 0 <= i < |pairs| :: Renderable(pairs[i])
  {
    if forall i | 0 <= i < |pairs| :: Renderable(pairs[i]) {
      RoundTrip(pairs);
    }
    if Parsed(Render(pairs)) == Merge(pairs) {
      ParsedIsRenderable(Render(pairs));
      forall i | 0 <= i < |pairs|
        ensures Renderable(pairs[i])
      {
        MergeKeepsDistinct(pairs, i);
        assert pairs[i] == Pair(pairs[i].key, Merge(pairs)[pairs[i].key]);
      }
    }
  }

  // ------------------------------------------------------- files as people write them

  predicate AllSpace(s: string) {
    forall c | c in s :: IsSpace(c) && c != '\n'
  }

  /** How a pair is written: its kind of quotes, and white space around everything. */
  datatype Style = Style(quote: char, indent: string, beforeEq: string, afterEq: string, trail: string)

  predicate StyleOk(s: Style) {
    s.quote in {'"', '\''} && AllSpace(s.indent) && AllSpace(s.beforeEq) && AllSpace(s.afterEq) && AllSpace(s.trail)
  }

  datatype Entry = Assign(pair: Pair, style: Style) | Comment(indent: string, text: string) | Blank(spaces: string)

  predicate EntryOk(e: Entry) {
    match e
    case Assign(pair, style) => Renderable(pair) && StyleOk(style)
    case Comment(indent, text) => AllSpace(indent) && '\n' !in text
    case Blank(spaces) => AllSpace(spaces)
  }

  function Quoted(v: string, quote: char): string {
    [quote] + v + [quote]
  }

  function Written(e: Entry): string {
    match e
    case Assign(p, s) =>
      s.indent + (p.key + s.beforeEq + "=" + (s.afterEq + Quoted(p.value, s.quote))) + s.trail
    case Comment(indent, text) => indent + ("#" + text)
    case Blank(spaces) => spaces
  }

  function WrittenFile(entries: seq<Entry>): string {
    if entries == [] then "" else Written(entries[0]) + "\n" + WrittenFile(entries[1..])
  }

  function Pairs(entries: seq<Entry>): seq<Pair> {
    if entries == [] then []
    else (if entries[0].Assign? then [entries[0].pair] else []) + Pairs(entries[1..])
  }

  lemma {:induction false} TrimStartSkips(a: string, s: string)
    requires AllSpace(a)
    ensures TrimStart(a + s) == TrimStart(s)
  {
    if a == "" {
      assert a + s == s;
    } else {
      assert a[0] in a && (a + s)[1..] == a[1..] + s;
      TrimStartSkips(a[1..], s);
    }
  }

  lemma {:induction false} TrimEndSkips(s: string, b: string)
    requires AllSpace(b)
    ensures TrimEnd(s + b) == TrimEnd(s)
  {
    if b == "" {
      assert s + b == s;
    } else {
      var n := |b| - 1;
      assert b[n] in b && (s + b)[..|s + b| - 1] == s + b[..n];
      TrimEndSkips(s, b[..n]);
    }
  }

  lemma {:induction false} TrimStartKeeps(s: string, b: string)
    requires AllSpace(b)
    ensures TrimStart(s + b) == if TrimStart(s) == "" then "" else TrimStart(s) + b
  {
    if s == "" {
      assert s + b == b && b + "" == b;
      TrimStartSkips(b, "");
    } else if IsSpace(s[0]) {
      assert (s + b)[1..] == s[1..] + b;
      TrimStartKeeps(s[1..], b);
    }
  }

  /** White space around does not matter to trimming. */
  lemma TrimSkips(a: string, s: string, b: string)
    requires AllSpace(a) && AllSpace(b)
    ensures Trim(a + s + b) == Trim(s)
  {
    hide TrimStart, TrimEnd, IsSpace, AllSpace;
    assert a + s + b == a + (s + b);
    TrimStartSkips(a, s + b);
    TrimStartKeeps(s, b);
    if TrimStart(s) != "" { TrimEndSkips(TrimStart(s), b); }
  }

  lemma EitherQuoteParses(v: string, quote: char)
    requires quote in {'"', '\''}
    ensures Trim(Quoted(v, quote)) == Quoted(v, quote) && ParseEnvValue(Quoted(v, quote)) == v
  {
    var quoted := Quoted(v, quote);
    assert quoted[0] == quote == quoted[|quoted| - 1] && !IsSpace(quote);
    assert quoted[1..|quoted| - 1] == v;
  }

  /** What is left of `=` is the key, what is right of it the value, each trimmed. */
  lemma SidesParse(line: string, left: string, right: string)
    requires Trim(line) == left + "=" + right && '=' !in left && (left == "" || left[0] != '#')
    requires Trim(left) !in FORBIDDEN_KEYS
    ensures ParseLine(line) == Some(Pair(Trim(left), ParseEnvValue(Trim(right))))
  {
    hide Trim, ParseEnvValue, IndexOf;
    var t := left + "=" + right;
    assert t[..|left|] == left && t[|left| + 1..] == right && t[|left|] == '=';
    FirstIsFirst(t, '=', |left|);
  }

  lemma NoEqualsIn(key: string, spaces: string)
    requires '=' !in key && AllSpace(spaces)
    ensures '=' !in key + spaces
  {
  }

  lemma AssignParses(p: Pair, s: Style)
    requires Renderable(p) && StyleOk(s)
    ensures ParseLine(Written(Assign(p, s))) == Some(p)
  {
    hide ParseEnvValue, TrimStart, TrimEnd, Trim, ParseLine;
    var right := s.afterEq + Quoted(p.value, s.quote);
    var body := p.key + s.beforeEq + "=" + right;
    TrimSkips(s.indent, body, s.trail);
    NoEqualsIn(p.key, s.beforeEq);
    EitherQuoteParses(p.value, s.quote);
    TrimSkips(s.afterEq, Quoted(p.value, s.quote), "");
    assert s.afterEq + Quoted(p.value, s.quote) + "" == right;
    if p.key == "" {
      var rest := "=" + right;
      TrimSkips(s.beforeEq, rest, "");
      assert s.beforeEq + rest + "" == body;
      assert Trimmed(rest) by { EndsInQuote(rest, p.value, s.quote); }
      assert "" + "=" + right == rest;
      SidesParse(Written(Assign(p, s)), "", right);
    } else {
      assert Trimmed(body) by { EndsInQuote(body, p.value, s.quote); assert body[0] == p.key[0]; }
      TrimSkips("", p.key, s.beforeEq);
      assert "" + p.key + s.beforeEq == p.key + s.beforeEq;
      SidesParse(Written(Assign(p, s)), p.key + s.beforeEq, right);
    }
  }

  lemma EndsInQuote(s: string, v: string, quote: char)
    requires quote in {'"', '\''} && |s| > |v| + 2 && s[|s| - |v| - 2..] == Quoted(v, quote)
    ensures !IsSpace(s[|s| - 1])
  {
    assert s[|s| - 1] == Quoted(v, quote)[|v| + 1];
  }

  lemma NoiseParses(e: Entry)
    requires EntryOk(e) && !e.Assign?
    ensures ParseLine(Written(e)).None?
  {
    hide TrimStart, TrimEnd, Trim, IndexOf, ParseEnvValue, IsSpace;
    match e
    case Comment(indent, text) =>
      TrimSkips(indent, "#" + text, "");
      assert indent + ("#" + text) + "" == Written(e);
      CommentStays(text);
    case Blank(spaces) =>
      TrimSkips(spaces, "", "");
      assert spaces + "" + "" == spaces;
  }

  lemma CommentStays(text: string)
    ensures Trim("#" + text) != "" && Trim("#" + text)[0] == '#'
  {
    var s := "#" + text;
    assert s[0] == '#' && !IsSpace('#');
    hide TrimStart, TrimEnd;
  }

  lemma WrittenIsOneLine(e: Entry)
    requires EntryOk(e)
    ensures '\n' !in Written(e)
  {
  }

  /**
   * Either kind of quotes, white space around keys, `=` and values, comment lines
   * and blank lines: parsing the file gives the right-biased map of its pairs.
   */
  lemma {:induction false} WrittenFileParses(entries: seq<Entry>)
    requires forall i | 0 <= i < |entries| :: EntryOk(entries[i])
    ensures Parsed(WrittenFile(entries)) == Merge(Pairs(entries))
  {
    hide ParseLine, Written, EntryOk, Parsed;
    if entries == [] {
      NothingParsed();
    } else {
      var e := entries[0];
      PartsMerge(Written(e), WrittenFile(entries[1..]));
      WrittenIsOneLine(e);
      OneLine(Written(e));
      WrittenFileParses(entries[1..]);
      if e.Assign? {
        AssignParses(e.pair, e.style) by { AssignIsOk(e); }
        MergeFirst(e.pair, Pairs(entries[1..]));
      } else {
        NoiseParses(e);
        assert [] + Pairs(entries[1..]) == Pairs(entries[1..]);
        assert map[] + Merge(Pairs(entries[1..])) == Merge(Pairs(entries[1..]));
      }
    }
  }

  lemma NothingParsed()
    ensures Parsed("") == map[]
  {
    OneLine("");
  }

  lemma AssignIsOk(e: Entry)
    requires EntryOk(e) && e.Assign?
    ensures Renderable(e.pair) && StyleOk(e.style) && e == Assign(e.pair, e.style)
  {
  }

  lemma MergeFirst(p: Pair, rest: seq<Pair>)
    ensures Merge([p] + rest) == map[p.key := p.value] + Merge(rest)
  {
    assert ([p] + rest)[1..] == rest;
  }

  // -------------------------------------------------------------- bare values

  /** Written without quotes, a trimmed value survives exactly when it is not quoted and holds no comment. */
  lemma BareValueIff(value: string)
    requires Trimmed(value)
    ensures ParseEnvValue(value) == value <==> !IsQuoted(value) && forall i :: !CommentAt(value, i)
  {
    if !IsQuoted(value) {
      var at := IndexOfComment(value);
      if at.Some? {
        assert |TrimEnd(value[..at.value])| < |value|;
      } else {
        assert forall i | i < 0 :: !CommentAt(value, i);
      }
    }
  }

  /** A trailing comment goes with the white space before it, and the quotes of what is left of it go too. */
  lemma CommentIsStripped(value: string, spaces: string, comment: string)
    requires Trimmed(value) && AllSpace(spaces) && forall i :: !CommentAt(value, i)
    requires !IsQuoted(value + spaces + " #" + comment)
    ensures ParseEnvValue(value + spaces + " #" + comment)
            == if IsQuoted(value) then value[1..|value| - 1] else value
  {
    var bare := value + spaces;
    var whole := bare + " #" + comment;
    var n := |bare|;
    assert whole[n] == ' ' && whole[n + 1] == '#' && CommentAt(whole, n);
    assert forall i | 0 <= i < n :: whole[i] == bare[i];
    NoCommentIn(value, spaces);
    assert forall i | 0 <= i < n :: CommentAt(whole, i) ==> CommentAt(bare, i);
    assert IndexOfComment(whole) == Some(n);
    assert whole[..n] == bare;
    TrimEndSkips(value, spaces);
    assert TrimEnd(value) == value;
  }

  lemma NoCommentIn(value: string, spaces: string)
    requires AllSpace(spaces) && forall i :: !CommentAt(value, i)
    ensures forall i :: !CommentAt(value + spaces, i)
  {
    var bare := value + spaces;
    assert forall i | |value| <= i < |bare| :: bare[i] == spaces[i - |value|] && IsSpace(bare[i]);
    assert forall i | 0 <= i < |value| - 1 :: CommentAt(bare, i) ==> CommentAt(value, i);
  }
}
