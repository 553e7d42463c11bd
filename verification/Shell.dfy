/** The commands the executor prints (shellQuote and buildCommand of internal/compose/executor.go)
    and how a shell reads them back: the quoting rules of sections 2.2.1 and 2.2.2 and the token
    rules of section 2.3 of the POSIX.1-2017 Shell Command Language. */
module Shell {
  import opened Base

  // ---- Reading ----

  datatype Token = Word(text: string) | Operator(text: string)

  /** Outside quotes, between single quotes, after a backslash, after a first ampersand, or past
      something that is an error or not read here. */
  datatype Mode = Unquoted | Quoted | Escaped | Ampersand | Broken

  /** The tokens read so far and the word begun after them, if one is. */
  datatype Reader = Reader(tokens: seq<Token>, word: Option<string>, mode: Mode)

  const BROKEN := Reader([], None, Broken)

  /** Characters that mean more than themselves to a shell outside quotes and are not read here. */
  predicate Special(c: char) {
    c in "\n|;<>()$`\"*?[#~=%!{}\0"
  }

  function Flush(word: Option<string>): seq<Token> {
    if word.None? then [] else [Word(word.value)]
  }

  function Text(word: Option<string>): string {
    if word.None? then "" else word.value
  }

  /** The reader between two words. */
  function Between(tokens: seq<Token>): Reader {
    Reader(tokens, None, Unquoted)
  }

  function Grown(r: Reader, c: char): Reader {
    Reader(r.tokens, Some(Text(r.word) + [c]), r.mode)
  }

  function StepUnquoted(r: Reader, c: char): Reader {
    if c == ' ' || c == '\t' then Between(r.tokens + Flush(r.word))
    else if c == '\'' then Reader(r.tokens, Some(Text(r.word)), Quoted)
    else if c == '\\' then r.(mode := Escaped)
    else if c == '&' then r.(mode := Ampersand)
    else if Special(c) then BROKEN
    else Grown(r, c)
  }

  function Step(r: Reader, c: char): Reader {
    match r.mode
    case Unquoted => StepUnquoted(r, c)
    case Quoted =>
      // every character but the closing quote stands for itself
      if c == '\'' then r.(mode := Unquoted) else if c == '\0' then BROKEN else Grown(r, c)
    case Escaped =>
      if c == '\n' then r.(mode := Unquoted)
      else if c == '\0' then BROKEN
      else Grown(r, c).(mode := Unquoted)
    case Ampersand =>
      if c == '&' then Between(r.tokens + Flush(r.word) + [Operator("&&")]) else BROKEN
    case Broken => BROKEN
  }

  function Read(s: string, r: Reader): Reader {
    if s == "" then r else Read(s[1..], Step(r, s[0]))
  }

  /** The tokens at the end of the input, None where that is unfinished. */
  function Finished(r: Reader): Option<seq<Token>> {
    if r.mode.Unquoted? then Some(r.tokens + Flush(r.word)) else None
  }

  function Tokenise(s: string): Option<seq<Token>> {
    Finished(Read(s, Between([])))
  }

  lemma {:induction false} ReadConcat(a: string, b: string, r: Reader)
    ensures Read(a + b, r) == Read(b, Read(a, r))
  {
    if a == "" {
      assert a + b == b;
    } else {
      ReadConcat(a[1..], b, Step(r, a[0]));
      assert (a + b)[1..] == a[1..] + b && (a + b)[0] == a[0];
    }
  }

  lemma ReadOne(c: char, r: Reader)
    ensures Read([c], r) == Step(r, c)
  {
    assert [c][1..] == "";
  }

  lemma {:induction false} BrokenStays(s: string)
    ensures Read(s, BROKEN) == BROKEN
  {
    if s != "" {
      BrokenStays(s[1..]);
    }
  }

  // ---- Printing ----

  /** strings.ReplaceAll(argument, "'", "'\\''"). */
  function ReplaceQuotes(argument: string): string {
    if argument == "" then ""
    else (if argument[0] == '\'' then "'\\''" else [argument[0]]) + ReplaceQuotes(argument[1..])
  }

  function ShellQuote(argument: string): string {
    "'" + ReplaceQuotes(argument) + "'"
  }

  predicate NulFree(s: string) {
    '\0' !in s
  }

  /** Between quotes, a quote printed as quote, backslash, quote, quote is read as itself. */
  lemma ReplacedQuote(r: Reader)
    requires r.mode.Quoted? && r.word.Some?
    ensures Read("'\\''", r) == Grown(r, '\'')
  {
    assert "'\\''" == ['\''] + (['\\'] + (['\''] + ['\'']));
    ReadConcat(['\''], ['\\'] + (['\''] + ['\'']), r);
    ReadOne('\'', r);
    var out := Step(r, '\'');
    ReadConcat(['\\'], ['\''] + ['\''], out);
    ReadOne('\\', out);
    var escaped := Step(out, '\\');
    ReadConcat(['\''], ['\''], escaped);
    ReadOne('\'', escaped);
    ReadOne('\'', Step(escaped, '\''));
  }

  /** What ReplaceQuotes printed for one character. */
  lemma CharReads(c: char, r: Reader)
    requires r.mode.Quoted? && r.word.Some?
    ensures Read(if c == '\'' then "'\\''" else [c], r) == if c == '\0' then BROKEN else Grown(r, c)
  {
    if c == '\'' {
      ReplacedQuote(r);
    } else {
      ReadOne(c, r);
    }
  }

  /** Reading what ReplaceQuotes printed, between the quotes. */
  lemma {:induction false} QuotedReads(argument: string, r: Reader)
    requires r.mode.Quoted? && r.word.Some?
    ensures Read(ReplaceQuotes(argument), r)
         == if NulFree(argument) then r.(word := Some(r.word.value + argument)) else BROKEN
    decreases |argument|
  {
    if argument == "" {
      assert r.word.value + argument == r.word.value;
    } else {
      var c, tail := argument[0], argument[1..];
      ReadConcat(if c == '\'' then "'\\''" else [c], ReplaceQuotes(tail), r);
      CharReads(c, r);
      assert argument == [c] + tail;
      if c == '\0' {
        BrokenStays(ReplaceQuotes(tail));
      } else {
        QuotedReads(tail, Grown(r, c));
        assert r.word.value + [c] + tail == r.word.value + argument;
      }
    }
  }

  /** A quoted argument that stands between two blanks. */
  lemma ShellQuoteReads(argument: string, tokens: seq<Token>)
    ensures Read(ShellQuote(argument), Between(tokens))
         == if NulFree(argument) then Reader(tokens, Some(argument), Unquoted) else BROKEN
  {
    var inside := ReplaceQuotes(argument);
    var quoting := Reader(tokens, Some(""), Quoted);
    ReadConcat("'" + inside, "'", Between(tokens));
    ReadConcat("'", inside, Between(tokens));
    ReadOne('\'', Between(tokens));
    assert Read("'", Between(tokens)) == quoting;
    QuotedReads(argument, quoting);
    assert "" + argument == argument;
    ReadOne('\'', Read(inside, quoting));
  }

  /** A quoted argument is read back as the one word it was, whatever it contains short of NUL. */
  lemma QuoteRoundTrip(argument: string)
    ensures Tokenise(ShellQuote(argument)) == if NulFree(argument) then Some([Word(argument)]) else None
  {
    ShellQuoteReads(argument, []);
    assert [] + [Word(argument)] == [Word(argument)];
  }

  // ---- Commands ----

  /** A printed part of a command line and what it is meant to be read as. */
  datatype Part = Part(text: string, meant: Option<seq<Token>>)

  function ConcatTokens(a: Option<seq<Token>>, b: Option<seq<Token>>): Option<seq<Token>> {
    if a.None? || b.None? then None else Some(a.value + b.value)
  }

  /** From between two words the part is read as meant, or past recovery if it means nothing. */
  ghost predicate ReadsAs(p: Part) {
    forall tokens :: PartReads(p, tokens, Read(p.text, Between(tokens)))
  }

  predicate PartReads(p: Part, tokens: seq<Token>, r: Reader) {
    if p.meant.None? then r == BROKEN else Finished(r) == Some(tokens + p.meant.value)
  }

  function QuotedPart(argument: string): Part {
    Part(ShellQuote(argument), if NulFree(argument) then Some([Word(argument)]) else None)
  }

  predicate PlainChar(c: char) {
    'a' <= c <= 'z' || c == '-'
  }

  predicate Plain(s: string) {
    s != "" && forall i :: 0 <= i < |s| ==> PlainChar(s[i])
  }

  function PlainPart(word: string): Part {
    Part(word, Some([Word(word)]))
  }

  lemma QuotedPartReads(argument: string)
    ensures ReadsAs(QuotedPart(argument))
  {
    forall tokens
      ensures PartReads(QuotedPart(argument), tokens, Read(ShellQuote(argument), Between(tokens)))
    {
      ShellQuoteReads(argument, tokens);
    }
  }

  lemma PlainCharReads(c: char, tokens: seq<Token>, word: Option<string>)
    requires PlainChar(c)
    ensures Step(Reader(tokens, word, Unquoted), c) == Reader(tokens, Some(Text(word) + [c]), Unquoted)
  {
  }

  lemma Regroup(word: string, s: string)
    requires s != ""
    ensures word + [s[0]] + s[1..] == word + s
  {
  }

  lemma {:induction false} PlainReads(s: string, tokens: seq<Token>, word: string)
    requires forall i :: 0 <= i < |s| ==> PlainChar(s[i])
    ensures Read(s, Reader(tokens, Some(word), Unquoted)) == Reader(tokens, Some(word + s), Unquoted)
    decreases |s|
  {
    if s == "" {
      assert word + s == word;
    } else {
      PlainCharReads(s[0], tokens, Some(word));
      PlainReads(s[1..], tokens, word + [s[0]]);
      Regroup(word, s);
    }
  }

  lemma PlainPartReads(word: string)
    requires Plain(word)
    ensures ReadsAs(PlainPart(word))
  {
    forall tokens
      ensures PartReads(PlainPart(word), tokens, Read(word, Between(tokens)))
    {
      PlainCharReads(word[0], tokens, None);
      PlainReads(word[1..], tokens, "" + [word[0]]);
      assert "" + [word[0]] + word[1..] == word;
    }
  }

  const AND_PART := Part("&&", Some([Operator("&&")]))

  lemma AndReads()
    ensures ReadsAs(AND_PART)
  {
    forall tokens
      ensures PartReads(AND_PART, tokens, Read("&&", Between(tokens)))
    {
      assert "&&" == ['&'] + ['&'];
      ReadConcat(['&'], ['&'], Between(tokens));
      ReadOne('&', Between(tokens));
      ReadOne('&', Step(Between(tokens), '&'));
      assert tokens + [] + [Operator("&&")] + [] == tokens + [Operator("&&")];
    }
  }

  function Texts(parts: seq<Part>): seq<string> {
    if parts == [] then [] else [parts[0].text] + Texts(parts[1..])
  }

  function Meant(parts: seq<Part>): Option<seq<Token>> {
    if parts == [] then Some([]) else ConcatTokens(parts[0].meant, Meant(parts[1..]))
  }

  /** A part, a blank and the rest of the line. */
  lemma PartThenBlank(p: Part, rest: string, tokens: seq<Token>)
    requires ReadsAs(p)
    ensures Read(p.text + " " + rest, Between(tokens))
         == if p.meant.None? then BROKEN else Read(rest, Between(tokens + p.meant.value))
  {
    var r := Read(p.text, Between(tokens));
    assert PartReads(p, tokens, r);
    ReadConcat(p.text + " ", rest, Between(tokens));
    ReadConcat(p.text, " ", Between(tokens));
    ReadOne(' ', r);
    if p.meant.None? {
      BrokenStays(rest);
    }
  }

  lemma JoinedTexts(parts: seq<Part>)
    requires |parts| > 1
    ensures Join(Texts(parts), " ") == parts[0].text + " " + Join(Texts(parts[1..]), " ")
  {
    assert Texts(parts)[1..] == Texts(parts[1..]);
  }

  /** Parts that read as meant one by one do so joined by spaces. */
  lemma {:induction false} JoinedReads(parts: seq<Part>, tokens: seq<Token>)
    requires forall p :: p in parts ==> ReadsAs(p)
    ensures Finished(Read(Join(Texts(parts), " "), Between(tokens))) == ConcatTokens(Some(tokens), Meant(parts))
    decreases |parts|
  {
    if |parts| == 1 {
      var p := parts[0];
      assert parts[1..] == [] && Texts(parts) == [p.text];
      assert ReadsAs(p) && PartReads(p, tokens, Read(p.text, Between(tokens)));
      assert p.meant.Some? ==> p.meant.value + [] == p.meant.value;
    } else if |parts| > 1 {
      var p, others := parts[0], parts[1..];
      JoinedTexts(parts);
      PartThenBlank(p, Join(Texts(others), " "), tokens);
      if p.meant.Some? {
        JoinedReads(others, tokens + p.meant.value);
        ConcatThree(tokens, p.meant.value, Meant(others));
      }
    }
  }

  lemma ConcatThree(a: seq<Token>, b: seq<Token>, c: Option<seq<Token>>)
    ensures ConcatTokens(Some(a + b), c) == ConcatTokens(Some(a), ConcatTokens(Some(b), c))
  {
    assert c.Some? ==> a + b + c.value == a + (b + c.value);
  }

  // ---- buildCommand ----

  const DOCKER_COMPOSE := Part("docker compose", Some([Word("docker"), Word("compose")]))

  lemma TwoWordsRead(a: string, b: string)
    requires Plain(a) && Plain(b)
    ensures ReadsAs(Part(a + " " + b, Some([Word(a), Word(b)])))
  {
    PlainPartReads(a);
    PlainPartReads(b);
    var both := Part(a + " " + b, Some([Word(a), Word(b)]));
    forall tokens
      ensures PartReads(both, tokens, Read(both.text, Between(tokens)))
    {
      PartThenBlank(PlainPart(a), b, tokens);
      assert PartReads(PlainPart(b), tokens + [Word(a)], Read(b, Between(tokens + [Word(a)])));
      assert tokens + [Word(a)] + [Word(b)] == tokens + [Word(a), Word(b)];
    }
  }

  lemma DockerComposeReads()
    ensures ReadsAs(DOCKER_COMPOSE)
  {
    TwoWordsRead("docker", "compose");
    assert "docker" + " " + "compose" == "docker compose";
  }

  function FileParts(files: seq<string>): seq<Part> {
    if files == [] then []
    else FileParts(files[..|files| - 1]) + [PlainPart("-f"), QuotedPart(files[|files| - 1])]
  }

  function PlainParts(words: seq<string>): seq<Part> {
    if words == [] then [] else [PlainPart(words[0])] + PlainParts(words[1..])
  }

  function HeadParts(dir: string, project: string): seq<Part> {
    [PlainPart("cd"), QuotedPart(dir), AND_PART, DOCKER_COMPOSE]
    + (if project != "" then [PlainPart("--project-name"), QuotedPart(project)] else [])
  }

  function CommandParts(dir: string, project: string, files: seq<string>, subcommand: string,
                        args: seq<string>): seq<Part> {
    HeadParts(dir, project) + FileParts(files) + PlainParts([subcommand] + args)
  }

  lemma {:induction false} TextsConcat(a: seq<Part>, b: seq<Part>)
    ensures Texts(a + b) == Texts(a) + Texts(b)
  {
    if a == [] {
      assert a + b == b;
    } else {
      assert (a + b)[1..] == a[1..] + b;
      TextsConcat(a[1..], b);
    }
  }

  lemma {:induction false} PlainTexts(words: seq<string>)
    ensures Texts(PlainParts(words)) == words
  {
    if words != [] {
      PlainTexts(words[1..]);
      assert PlainParts(words)[1..] == PlainParts(words[1..]);
    }
  }

  lemma HeadTexts(dir: string, project: string)
    ensures Texts(HeadParts(dir, project))
         == ["cd", ShellQuote(dir), "&&", "docker compose"]
           + (if project != "" then ["--project-name", ShellQuote(project)] else [])
  {
    var head := [PlainPart("cd"), QuotedPart(dir), AND_PART, DOCKER_COMPOSE];
    var named := [PlainPart("--project-name"), QuotedPart(project)];
    TextsConcat([PlainPart("cd")], [QuotedPart(dir)]);
    TextsConcat([PlainPart("cd")] + [QuotedPart(dir)], [AND_PART]);
    TextsConcat([PlainPart("cd")] + [QuotedPart(dir)] + [AND_PART], [DOCKER_COMPOSE]);
    assert head == [PlainPart("cd")] + [QuotedPart(dir)] + [AND_PART] + [DOCKER_COMPOSE];
    TextsConcat([PlainPart("--project-name")], [QuotedPart(project)]);
    assert named == [PlainPart("--project-name")] + [QuotedPart(project)];
    TextsConcat(head, if project != "" then named else []);
  }

  lemma FileTextsStep(files: seq<string>, n: nat)
    requires n < |files|
    ensures Texts(FileParts(files[..n + 1])) == Texts(FileParts(files[..n])) + ["-f", ShellQuote(files[n])]
  {
    assert files[..n + 1][..n] == files[..n];
    TextsConcat([PlainPart("-f")], [QuotedPart(files[n])]);
    assert [PlainPart("-f"), QuotedPart(files[n])] == [PlainPart("-f")] + [QuotedPart(files[n])];
    TextsConcat(FileParts(files[..n]), [PlainPart("-f"), QuotedPart(files[n])]);
  }

  method BuildCommand(dir: string, project: string, files: seq<string>, subcommand: string, args: seq<string>)
    returns (command: string)
    ensures command == Join(Texts(CommandParts(dir, project, files, subcommand, args)), " ")
  {
    var parts := ["cd", ShellQuote(dir), "&&", "docker compose"];
    if project != "" {
      parts := parts + ["--project-name", ShellQuote(project)];
    }
    HeadTexts(dir, project);
    ghost var head := parts;
    for i := 0 to |files|
      invariant parts == head + Texts(FileParts(files[..i]))
    {
      FileTextsStep(files, i);
      parts := parts + ["-f", ShellQuote(files[i])];
    }
    assert files[..|files|] == files;
    parts := parts + [subcommand];
    parts := parts + args;
    PlainTexts([subcommand] + args);
    TextsConcat(HeadParts(dir, project), FileParts(files));
    TextsConcat(HeadParts(dir, project) + FileParts(files), PlainParts([subcommand] + args));
    assert parts == Texts(CommandParts(dir, project, files, subcommand, args));
    command := Join(parts, " ");
  }

  // ---- What the command is meant to be ----

  function Words(words: seq<string>): seq<Token> {
    if words == [] then [] else [Word(words[0])] + Words(words[1..])
  }

  function FileWords(files: seq<string>): seq<string> {
    if files == [] then [] else FileWords(files[..|files| - 1]) + ["-f", files[|files| - 1]]
  }

  /** cd to the directory, then run docker compose on the files. */
  function IntendedTokens(dir: string, project: string, files: seq<string>, subcommand: string,
                          args: seq<string>): seq<Token> {
    Words(["cd", dir]) + [Operator("&&")]
    + Words(["docker", "compose"] + (if project != "" then ["--project-name", project] else []) + FileWords(files)
            + [subcommand] + args)
  }

  lemma {:induction false} WordsConcat(a: seq<string>, b: seq<string>)
    ensures Words(a + b) == Words(a) + Words(b)
  {
    if a == [] {
      assert a + b == b;
    } else {
      assert (a + b)[1..] == a[1..] + b;
      WordsConcat(a[1..], b);
    }
  }

  lemma {:induction false} MeantConcat(a: seq<Part>, b: seq<Part>)
    ensures Meant(a + b) == ConcatTokens(Meant(a), Meant(b))
  {
    if a == [] {
      assert a + b == b;
      assert Meant(b).Some? ==> [] + Meant(b).value == Meant(b).value;
    } else {
      assert (a + b)[1..] == a[1..] + b && (a + b)[0] == a[0];
      MeantConcat(a[1..], b);
      var x, y, z := a[0].meant, Meant(a[1..]), Meant(b);
      assert x.Some? && y.Some? && z.Some? ==> x.value + (y.value + z.value) == x.value + y.value + z.value;
    }
  }

  predicate AllNulFree(words: seq<string>) {
    forall i :: 0 <= i < |words| ==> NulFree(words[i])
  }

  lemma MeantOne(p: Part)
    ensures Meant([p]) == p.meant
  {
    assert Meant([p]) == ConcatTokens(p.meant, Meant([]));
    assert p.meant.Some? ==> p.meant.value + [] == p.meant.value;
  }

  lemma {:induction false} MeantFiles(files: seq<string>)
    ensures Meant(FileParts(files)) == if AllNulFree(files) then Some(Words(FileWords(files))) else None
    decreases |files|
  {
    if files != [] {
      var n := |files| - 1;
      MeantFiles(files[..n]);
      var tail := [PlainPart("-f"), QuotedPart(files[n])];
      MeantConcat(FileParts(files[..n]), tail);
      assert tail == [PlainPart("-f")] + [QuotedPart(files[n])];
      MeantConcat([PlainPart("-f")], [QuotedPart(files[n])]);
      MeantOne(PlainPart("-f"));
      MeantOne(QuotedPart(files[n]));
      WordsConcat(FileWords(files[..n]), ["-f", files[n]]);
      WordsConcat(["-f"], [files[n]]);
      assert ["-f"] + [files[n]] == ["-f", files[n]];
      assert AllNulFree(files) <==> AllNulFree(files[..n]) && NulFree(files[n]);
    }
  }

  lemma {:induction false} MeantPlain(words: seq<string>)
    ensures Meant(PlainParts(words)) == Some(Words(words))
  {
    if words != [] {
      MeantPlain(words[1..]);
      assert PlainParts(words)[1..] == PlainParts(words[1..]);
    }
  }

  lemma MeantHead(dir: string, project: string)
    ensures Meant(HeadParts(dir, project)) ==
      if NulFree(dir) && NulFree(project) then
        Some(Words(["cd", dir]) + [Operator("&&")]
             + Words(["docker", "compose"] + (if project != "" then ["--project-name", project] else [])))
      else None
  {
    var named := if project != "" then [PlainPart("--project-name"), QuotedPart(project)] else [];
    var words := if project != "" then ["--project-name", project] else [];
    var a, b := [PlainPart("cd"), QuotedPart(dir)], [AND_PART, DOCKER_COMPOSE];
    assert HeadParts(dir, project) == a + b + named;
    MeantConcat(a + b, named);
    MeantConcat(a, b);
    MeantTwo(PlainPart("cd"), QuotedPart(dir));
    MeantTwo(AND_PART, DOCKER_COMPOSE);
    WordsTwo("cd", dir);
    WordsTwo("docker", "compose");
    WordsConcat(["docker", "compose"], words);
    if project != "" {
      MeantTwo(PlainPart("--project-name"), QuotedPart(project));
      WordsTwo("--project-name", project);
      assert [Word("--project-name")] + [Word(project)] == Words(words);
      assert Meant(named) == if NulFree(project) then Some(Words(words)) else None;
    }
    if NulFree(dir) && NulFree(project) {
      assert [Word("cd")] + [Word(dir)] == [Word("cd"), Word(dir)];
      assert Meant(a) == Some(Words(["cd", dir]));
      assert DOCKER_COMPOSE.meant.value == Words(["docker", "compose"]);
      assert Meant(b) == Some([Operator("&&")] + Words(["docker", "compose"]));
      assert Meant(named) == Some(Words(words));
      assert Words(["cd", dir]) + ([Operator("&&")] + Words(["docker", "compose"])) + Words(words)
          == Words(["cd", dir]) + [Operator("&&")] + (Words(["docker", "compose"]) + Words(words));
    }
  }

  lemma MeantTwo(p: Part, q: Part)
    ensures Meant([p, q]) == ConcatTokens(p.meant, q.meant)
  {
    assert [p, q] == [p] + [q];
    MeantConcat([p], [q]);
    MeantOne(p);
    MeantOne(q);
  }

  lemma WordsTwo(a: string, b: string)
    ensures Words([a, b]) == [Word(a), Word(b)]
  {
    assert [a, b][1..] == [b];
    assert [b][1..] == [];
    assert Words([b]) == [Word(b)] + Words([]);
    assert Words([a, b]) == [Word(a)] + Words([b]);
  }

  predicate AllPlain(words: seq<string>) {
    forall i :: 0 <= i < |words| ==> Plain(words[i])
  }

  lemma {:induction false} PlainPartsRead(words: seq<string>)
    requires AllPlain(words)
    ensures forall p :: p in PlainParts(words) ==> ReadsAs(p)
  {
    if words != [] {
      PlainPartReads(words[0]);
      PlainPartsRead(words[1..]);
    }
  }

  lemma {:induction false} FilePartsRead(files: seq<string>)
    ensures forall p :: p in FileParts(files) ==> ReadsAs(p)
    decreases |files|
  {
    if files != [] {
      FilePartsRead(files[..|files| - 1]);
      PlainPartReads("-f");
      QuotedPartReads(files[|files| - 1]);
    }
  }

  lemma HeadPartsRead(dir: string, project: string)
    ensures forall p :: p in HeadParts(dir, project) ==> ReadsAs(p)
  {
    PlainPartReads("cd");
    QuotedPartReads(dir);
    AndReads();
    DockerComposeReads();
    PlainPartReads("--project-name");
    QuotedPartReads(project);
  }

  lemma IntendedSplits(dir: string, project: string, files: seq<string>, subcommand: string, args: seq<string>)
    ensures IntendedTokens(dir, project, files, subcommand, args)
         == Words(["cd", dir]) + [Operator("&&")]
           + Words(["docker", "compose"] + (if project != "" then ["--project-name", project] else []))
            + Words(FileWords(files)) + Words([subcommand] + args)
  {
    var first := ["docker", "compose"] + (if project != "" then ["--project-name", project] else []);
    WordsConcat(first, FileWords(files));
    WordsConcat(first + FileWords(files), [subcommand] + args);
    assert first + FileWords(files) + [subcommand] + args == first + FileWords(files) + ([subcommand] + args);
    var lead, w := Words(["cd", dir]) + [Operator("&&")], Words([subcommand] + args);
    assert lead + Words(first) + Words(FileWords(files)) + w == lead + (Words(first) + Words(FileWords(files)) + w);
  }

  lemma CommandMeant(dir: string, project: string, files: seq<string>, subcommand: string, args: seq<string>)
    ensures Meant(CommandParts(dir, project, files, subcommand, args))
         == if NulFree(dir) && NulFree(project) && AllNulFree(files)
            then Some(IntendedTokens(dir, project, files, subcommand, args)) else None
  {
    var head, middle, tail := HeadParts(dir, project), FileParts(files), PlainParts([subcommand] + args);
    MeantConcat(head + middle, tail);
    MeantConcat(head, middle);
    MeantHead(dir, project);
    MeantFiles(files);
    MeantPlain([subcommand] + args);
    IntendedSplits(dir, project, files, subcommand, args);
  }

  /** For any directory, project and compose file names a shell reads the printed command as exactly
      the intended words, or cannot be given it at all because a name contains a NUL. */
  lemma CommandRoundTrip(dir: string, project: string, files: seq<string>, subcommand: string, args: seq<string>)
    requires AllPlain([subcommand] + args)
    ensures Tokenise(Join(Texts(CommandParts(dir, project, files, subcommand, args)), " "))
         == if NulFree(dir) && NulFree(project) && AllNulFree(files)
            then Some(IntendedTokens(dir, project, files, subcommand, args)) else None
  {
    HeadPartsRead(dir, project);
    FilePartsRead(files);
    PlainPartsRead([subcommand] + args);
    JoinedReads(CommandParts(dir, project, files, subcommand, args), []);
    CommandMeant(dir, project, files, subcommand, args);
    var meant := Meant(CommandParts(dir, project, files, subcommand, args));
    assert meant.Some? ==> [] + meant.value == meant.value;
  }

  // ---- The four calls ----

  const CONFIG_CALL := ["config"]
  const UP_CALL := ["up", "--detach", "--remove-orphans", "--quiet-pull", "--force-recreate", "--build"]
  const PS_CALL := ["ps", "--format", "json"]
  const DOWN_CALL := ["down", "--remove-orphans"]

  /** Every subcommand the executor passes is plain. */
  lemma ShortCallsArePlain()
    ensures AllPlain(CONFIG_CALL) && AllPlain(PS_CALL) && AllPlain(DOWN_CALL)
  {
  }

  lemma UpCallIsPlain()
    ensures AllPlain(UP_CALL)
  {
    assert Plain("up") && Plain("--detach") && Plain("--remove-orphans");
  }
}
