/**
 Quoting of remote commands, against an independent reader: token recognition
 and quote removal as in sections 2.2 and 2.3 of the Shell Command Language of
 IEEE Std 1003.1. Anything the shell would expand (parameters, command
 substitution, patterns, tilde) makes the reader give up, so a successful
 reading involves no expansion.
 */
module ShellWords {
  import opened Wrappers

  // ------------------------------------------------------------ the reader ---

  datatype Token = Word(text: string) | Operator(text: string)

  datatype Mode = Plain | Escaped | Single | Double | DoubleEscaped | Comment | InOperator(op: string) | Expansion

  // Tokens delimited so far, the word being formed, and the quoting in force.
  datatype Lex = Lex(done: seq<Token>, word: Option<string>, mode: Mode)

  const START := Lex([], None, Plain)

  predicate IsBlank(c: char) {
    c == ' ' || c == '\t'
  }

  predicate StartsOperator(c: char) {
    c == '|' || c == '&' || c == ';' || c == '<' || c == '>' || c == '(' || c == ')' || c == '\n'
  }

  predicate IsOperator(s: string) {
    || (|s| == 1 && StartsOperator(s[0]))
    || s == "||" || s == "&&" || s == ";;" || s == "<<" || s == ">>" || s == "<&" || s == ">&" || s == "<>"
    || s == ">|" || s == "<<-"
  }

  predicate StartsExpansion(c: char) {
    c == '$' || c == '`' || c == '*' || c == '?' || c == '['
  }

  // Delimits the word being formed, if any.
  function Delimit(l: Lex): Lex {
    if l.word.Some? then l.(done := l.done + [Word(l.word.value)], word := None) else l
  }

  function Add(l: Lex, text: string): Lex {
    l.(word := Some((if l.word.Some? then l.word.value else "") + text))
  }

  // What an unquoted character does.
  datatype Role = OpensQuote(mode: Mode) | Expands | Operates | Separates | Comments | Keeps

  function RoleOf(c: char, inWord: bool): Role {
    if c == '\\' then OpensQuote(Escaped)
    else if c == '\'' then OpensQuote(Single)
    else if c == '"' then OpensQuote(Double)
    else if StartsExpansion(c) || (c == '~' && !inWord) then Expands
    else if StartsOperator(c) then Operates
    else if IsBlank(c) then Separates
    else if c == '#' && !inWord then Comments
    else Keeps
  }

  function Take(l: Lex, c: char, role: Role): Lex {
    match role
    case OpensQuote(mode) => (if mode == Escaped then l else Add(l, "")).(mode := mode)
    case Expands => l.(mode := Expansion)
    case Operates => Delimit(l).(mode := InOperator([c]))
    case Separates => Delimit(l)
    case Comments => l.(mode := Comment)
    case Keeps => Add(l, [c])
  }

  function ReadPlain(l: Lex, c: char): Lex {
    Take(l, c, RoleOf(c, l.word.Some?))
  }

  function Read(l: Lex, c: char): Lex {
    match l.mode
    case Plain => ReadPlain(l, c)
    case Escaped => (if c == '\n' then l else Add(l, [c])).(mode := Plain)
    case Single => if c == '\'' then l.(mode := Plain) else Add(l, [c])
    case Double =>
      if c == '"' then l.(mode := Plain)
      else if c == '\\' then l.(mode := DoubleEscaped)
      else if c == '$' || c == '`' then l.(mode := Expansion)
      else Add(l, [c])
    case DoubleEscaped =>
      (if c == '\n' then l
       else if c == '$' || c == '`' || c == '"' || c == '\\' then Add(l, [c])
       else Add(l, ['\\', c])).(mode := Double)
    case Comment => if c == '\n' then l.(mode := InOperator("\n")) else l
    case InOperator(op) =>
      if IsOperator(op + [c]) then l.(mode := InOperator(op + [c]))
      else ReadPlain(Lex(l.done + [Operator(op)], None, Plain), c)
    case Expansion => l
  }

  function ReadAll(l: Lex, s: string): Lex
    decreases |s|
  {
    if s == "" then l else ReadAll(Read(l, s[0]), s[1..])
  }

  function Finish(l: Lex): Option<seq<Token>> {
    match l.mode
    case Plain => Some(Delimit(l).done)
    case Comment => Some(l.done)
    case InOperator(op) => Some(l.done + [Operator(op)])
    case _ => None
  }

  // None: an expansion, or a quote that is not closed.
  function Tokens(s: string): Option<seq<Token>> {
    Finish(ReadAll(START, s))
  }

  lemma {:induction false} ReadConcat(l: Lex, a: string, b: string)
    ensures ReadAll(l, a + b) == ReadAll(ReadAll(l, a), b)
    decreases |a|
  {
    if a == "" {
      assert a + b == b;
    } else {
      assert (a + b)[1..] == a[1..] + b;
      ReadConcat(Read(l, a[0]), a[1..], b);
    }
  }

  // -------------------------------------------------------------- quoting ---

  function EscapeQuotes(s: string): string {
    if s == "" then "" else (if s[0] == '\'' then "'\\''" else [s[0]]) + EscapeQuotes(s[1..])
  }

  function ShellEscapeArg(arg: string): string {
    "'" + EscapeQuotes(arg) + "'"
  }

  function Join(parts: seq<string>, separator: string): string {
    if parts == [] then ""
    else if |parts| == 1 then parts[0]
    else parts[0] + separator + Join(parts[1..], separator)
  }

  // Inside single quotes the escaped text reads as the text itself.
  lemma {:induction false} EscapedTextReadsBack(done: seq<Token>, word: string, s: string)
    ensures ReadAll(Lex(done, Some(word), Single), EscapeQuotes(s)) == Lex(done, Some(word + s), Single)
    decreases |s|
  {
    var l := Lex(done, Some(word), Single);
    if s == "" {
      assert word + s == word;
    } else {
      var first := if s[0] == '\'' then "'\\''" else [s[0]];
      ReadConcat(l, first, EscapeQuotes(s[1..]));
      if s[0] == '\'' {
        QuoteInSingle(done, word);
      } else {
        assert [s[0]][1..] == "";
        assert ReadAll(l, [s[0]]) == Read(l, s[0]);
      }
      EscapedTextReadsBack(done, word + [s[0]], s[1..]);
      assert word + [s[0]] + s[1..] == word + s;
    }
  }

  // Close the quotes, an escaped quote, open them again.
  lemma QuoteInSingle(done: seq<Token>, word: string)
    ensures ReadAll(Lex(done, Some(word), Single), "'\\''") == Lex(done, Some(word + "'"), Single)
  {
    assert "'\\''"[1..] == "\\''" && "\\''"[1..] == "''" && "''"[1..] == "'" && "'"[1..] == "";
    assert word + "'" + "" == word + "'";
  }

  lemma QuotedArgReadsBack(done: seq<Token>, arg: string)
    ensures ReadAll(Lex(done, None, Plain), ShellEscapeArg(arg)) == Lex(done, Some(arg), Plain)
  {
    var l := Lex(done, None, Plain);
    ReadConcat(l, "'" + EscapeQuotes(arg), "'");
    ReadConcat(l, "'", EscapeQuotes(arg));
    ReadOne(l, '\'');
    EscapedTextReadsBack(done, "", arg);
    assert "" + arg == arg;
    ReadOne(Lex(done, Some(arg), Single), '\'');
  }

  lemma ReadOne(l: Lex, c: char)
    ensures ReadAll(l, [c]) == Read(l, c)
  {
    assert [c][1..] == "";
  }

  // ------------------------------------------------------- pieces of a line ---

  // What a command line is joined from: quoted arguments, literal words, and
  // the pipe.
  datatype Piece = Quoted(arg: string) | Raw(word: string) | Pipe

  function Text(p: Piece): string {
    match p
    case Quoted(arg) => ShellEscapeArg(arg)
    case Raw(word) => word
    case Pipe => "|"
  }

  function Meaning(p: Piece): Token {
    match p
    case Quoted(arg) => Word(arg)
    case Raw(word) => Word(word)
    case Pipe => Operator("|")
  }

  predicate IsLiteral(c: char) {
    c != '\\' && c != '\'' && c != '"' && !StartsExpansion(c) && !StartsOperator(c) && !IsBlank(c)
  }

  // A word the shell reads as it is written.
  predicate PlainWord(s: string) {
    s != "" && s[0] != '#' && s[0] != '~' && forall c | c in s :: IsLiteral(c)
  }

  predicate Sound(pieces: seq<Piece>) {
    forall p | p in pieces :: p.Raw? ==> PlainWord(p.word)
  }

  function Texts(pieces: seq<Piece>): seq<string> {
    seq(|pieces|, i requires 0 <= i < |pieces| => Text(pieces[i]))
  }

  function Meanings(pieces: seq<Piece>): seq<Token> {
    seq(|pieces|, i requires 0 <= i < |pieces| => Meaning(pieces[i]))
  }

  lemma {:induction false} LiteralsReadBack(done: seq<Token>, word: string, s: string)
    requires word != "" && forall c | c in s :: IsLiteral(c)
    ensures ReadAll(Lex(done, Some(word), Plain), s) == Lex(done, Some(word + s), Plain)
    decreases |s|
  {
    if s == "" {
      assert word + s == word;
    } else {
      assert s[0] in s;
      LiteralsReadBack(done, word + [s[0]], s[1..]);
      assert word + [s[0]] + s[1..] == word + s;
    }
  }

  lemma PlainWordReadsBack(done: seq<Token>, word: string)
    requires PlainWord(word)
    ensures ReadAll(Lex(done, None, Plain), word) == Lex(done, Some(word), Plain)
  {
    assert word[0] in word;
    assert "" + [word[0]] == [word[0]];
    LiteralsReadBack(done, [word[0]], word[1..]);
    assert [word[0]] + word[1..] == word;
  }

  // The state after a piece, before its delimiter has been seen.
  function Pending(done: seq<Token>, p: Piece): Lex {
    if p.Pipe? then Lex(done, None, InOperator("|")) else Lex(done, Some(Meaning(p).text), Plain)
  }

  lemma PieceReads(done: seq<Token>, p: Piece)
    requires p.Raw? ==> PlainWord(p.word)
    ensures ReadAll(Lex(done, None, Plain), Text(p)) == Pending(done, p)
    ensures Read(Pending(done, p), ' ') == Lex(done + [Meaning(p)], None, Plain)
    ensures Finish(Pending(done, p)) == Some(done + [Meaning(p)])
  {
    match p
    case Quoted(arg) => QuotedArgReadsBack(done, arg);
    case Raw(word) => PlainWordReadsBack(done, word);
    case Pipe =>
      ReadOne(Lex(done, None, Plain), '|');
      assert !IsOperator("|" + [' ']) by {
        assert ("|" + [' '])[1] == ' ';
      }
  }

  lemma {:induction false} LineReads(done: seq<Token>, pieces: seq<Piece>)
    requires pieces != [] && Sound(pieces)
    ensures Finish(ReadAll(Lex(done, None, Plain), Join(Texts(pieces), " "))) == Some(done + Meanings(pieces))
    decreases |pieces|
  {
    var l, p := Lex(done, None, Plain), pieces[0];
    assert p in pieces;
    PieceReads(done, p);
    if |pieces| == 1 {
      assert Meanings(pieces) == [Meaning(p)];
    } else {
      var rest := pieces[1..];
      assert Texts(pieces)[1..] == Texts(rest);
      ReadConcat(l, Text(p) + " ", Join(Texts(rest), " "));
      ReadConcat(l, Text(p), " ");
      ReadOne(Pending(done, p), ' ');
      LineReads(done + [Meaning(p)], rest);
      assert done + [Meaning(p)] + Meanings(rest) == done + Meanings(pieces);
    }
  }

  lemma LineTokens(pieces: seq<Piece>)
    requires pieces != [] && Sound(pieces)
    ensures Tokens(Join(Texts(pieces), " ")) == Some(Meanings(pieces))
  {
    LineReads([], pieces);
    assert [] + Meanings(pieces) == Meanings(pieces);
  }

  // ----------------------------------------------------------- the commands ---

  function Words(args: seq<string>): seq<Token> {
    seq(|args|, i requires 0 <= i < |args| => Word(args[i]))
  }

  function QuotedAll(args: seq<string>): seq<Piece> {
    seq(|args|, i requires 0 <= i < |args| => Quoted(args[i]))
  }

  function CommandLine(name: string, args: seq<string>): string {
    Join(Texts(QuotedAll([name] + args)), " ")
  }

  /** A JavaScript array of arguments, shared with whoever passed it in. */
  class ArgList {
    var items: seq<string>

    constructor (items: seq<string>)
      ensures this.items == items
    {
      this.items := items;
    }
  }

  // Prepends the name to the caller's own array, then quotes and joins it.
  method BuildCommand(name: string, args: ArgList) returns (command: string)
    modifies args
    ensures args.items == [name] + old(args.items)
    ensures command == CommandLine(name, old(args.items))
    ensures Tokens(command) == Some(Words([name] + old(args.items)))
  {
    args.items := [name] + args.items;
    var escaped := seq(|args.items|, i requires 0 <= i < |args.items| reads args => ShellEscapeArg(args.items[i]));
    command := Join(escaped, " ");
    assert escaped == Texts(QuotedAll(args.items));
    CommandRoundTrip(name, old(args.items));
  }

  /** Whatever the arguments contain, the shell reads back the name and exactly those arguments. */
  lemma CommandRoundTrip(name: string, args: seq<string>)
    ensures Tokens(CommandLine(name, args)) == Some(Words([name] + args))
  {
    var pieces := QuotedAll([name] + args);
    LineTokens(pieces);
    assert Meanings(pieces) == Words([name] + args);
  }

  lemma WordsInjective(a: seq<string>, b: seq<string>)
    requires Words(a) == Words(b)
    ensures a == b
  {
    assert |Words(a)| == |a| && |Words(b)| == |b|;
    forall i | 0 <= i < |a| ensures a[i] == b[i] {
      assert Words(a)[i] == Words(b)[i];
    }
  }

  /** Different commands never get the same command line. */
  lemma CommandLineInjective(name: string, args: seq<string>, name': string, args': seq<string>)
    requires CommandLine(name, args) == CommandLine(name', args')
    ensures name == name' && args == args'
  {
    CommandRoundTrip(name, args);
    CommandRoundTrip(name', args');
    WordsInjective([name] + args, [name'] + args');
    assert ([name] + args)[1..] == args && ([name'] + args')[1..] == args';
    assert ([name] + args)[0] == name && ([name'] + args')[0] == name';
  }

  function Half(sudo: Option<string>, verb: string, options: seq<string>, dataset: string): seq<Piece> {
    (if sudo.Some? then [Raw(sudo.value)] else []) + [Raw("zfs"), Raw(verb)] + QuotedAll(options) + [Quoted(dataset)]
  }

  function HalfWords(sudo: Option<string>, verb: string, options: seq<string>, dataset: string): seq<string> {
    (if sudo.Some? then [sudo.value] else []) + ["zfs", verb] + options + [dataset]
  }

  function Pipeline(sudo: Option<string>, source: string, sendOptions: seq<string>, target: string,
                    receiveOptions: seq<string>): string
  {
    Join(Texts(Half(sudo, "send", sendOptions, source) + [Pipe] + Half(sudo, "receive", receiveOptions, target)), " ")
  }

  function PipelineTokens(sudo: Option<string>, source: string, sendOptions: seq<string>, target: string,
                          receiveOptions: seq<string>): seq<Token>
  {
    Words(HalfWords(sudo, "send", sendOptions, source)) + [Operator("|")]
    + Words(HalfWords(sudo, "receive", receiveOptions, target))
  }

  // One side of the pipe, as an array of words still to be joined.
  method HalfCommand(sudo: Option<string>, verb: string, options: seq<string>, dataset: string)
    returns (command: seq<string>)
    ensures command == Texts(Half(sudo, verb, options, dataset))
  {
    command := [];
    if sudo.Some? {
      command := command + [sudo.value];
    }
    command := command + ["zfs", verb];
    command := command + EscapeAll(options);
    command := command + [ShellEscapeArg(dataset)];
    HalfTexts(sudo, verb, options, dataset);
  }

  // The script send_receive hands to /bin/sh -c; the sudo path goes in raw.
  method SendReceiveScript(sudo: Option<string>, source: string, sendOptions: seq<string>, target: string,
                           receiveOptions: seq<string>) returns (script: string)
    ensures script == Pipeline(sudo, source, sendOptions, target, receiveOptions)
  {
    var command := HalfCommand(sudo, "send", sendOptions, source);
    command := command + ["|"];
    var receive := HalfCommand(sudo, "receive", receiveOptions, target);
    PipedTexts(Half(sudo, "send", sendOptions, source), Half(sudo, "receive", receiveOptions, target));
    command := command + receive;
    script := Join(command, " ");
  }

  function EscapeAll(args: seq<string>): seq<string> {
    seq(|args|, i requires 0 <= i < |args| => ShellEscapeArg(args[i]))
  }

  lemma HalfTexts(sudo: Option<string>, verb: string, options: seq<string>, dataset: string)
    ensures Texts(Half(sudo, verb, options, dataset))
         == (if sudo.Some? then [sudo.value] else []) + ["zfs", verb] + EscapeAll(options) + [ShellEscapeArg(dataset)]
  {
  }

  lemma PipedTexts(left: seq<Piece>, right: seq<Piece>)
    ensures Texts(left + [Pipe] + right) == Texts(left) + ["|"] + Texts(right)
  {
  }

  lemma ZfsWordsPlain()
    ensures PlainWord("zfs") && PlainWord("send") && PlainWord("receive")
  {
  }

  lemma HalfMeans(sudo: Option<string>, verb: string, options: seq<string>, dataset: string)
    requires sudo.Some? ==> PlainWord(sudo.value)
    requires PlainWord(verb)
    ensures Sound(Half(sudo, verb, options, dataset))
    ensures Meanings(Half(sudo, verb, options, dataset)) == Words(HalfWords(sudo, verb, options, dataset))
  {
    ZfsWordsPlain();
  }

  /**
   The doubly quoted pipeline: the remote shell reads `/bin/sh -c script` with
   the script intact, and that shell reads from the script every option,
   source and target as given, with exactly one operator, the pipe.
   */
  lemma NestedPipelineRoundTrip(sudo: Option<string>, source: string, sendOptions: seq<string>, target: string,
                                receiveOptions: seq<string>)
    requires sudo.Some? ==> PlainWord(sudo.value)
    ensures var script := Pipeline(sudo, source, sendOptions, target, receiveOptions);
            && Tokens(CommandLine("/bin/sh", ["-c", script])) == Some([Word("/bin/sh"), Word("-c"), Word(script)])
            && Tokens(script) == Some(PipelineTokens(sudo, source, sendOptions, target, receiveOptions))
  {
    var script := Pipeline(sudo, source, sendOptions, target, receiveOptions);
    CommandRoundTrip("/bin/sh", ["-c", script]);
    assert Words(["/bin/sh"] + ["-c", script]) == [Word("/bin/sh"), Word("-c"), Word(script)];
    ZfsWordsPlain();
    HalfMeans(sudo, "send", sendOptions, source);
    HalfMeans(sudo, "receive", receiveOptions, target);
    PipedReads(Half(sudo, "send", sendOptions, source), Half(sudo, "receive", receiveOptions, target));
  }

  lemma PipedReads(left: seq<Piece>, right: seq<Piece>)
    requires Sound(left) && Sound(right)
    ensures Tokens(Join(Texts(left + [Pipe] + right), " ")) == Some(Meanings(left) + [Operator("|")] + Meanings(right))
  {
    LineTokens(left + [Pipe] + right);
    assert Meanings(left + [Pipe] + right) == Meanings(left) + [Operator("|")] + Meanings(right);
  }

  // -------------------------------------------- which paths may go in raw ---

  function TextLength(tokens: seq<Token>): nat {
    if tokens == [] then 0 else TextLength(tokens[..|tokens| - 1]) + |tokens[|tokens| - 1].text|
  }

  lemma TextLengthOneMore(tokens: seq<Token>, t: Token)
    ensures TextLength(tokens + [t]) == TextLength(tokens) + |t.text|
  {
    assert (tokens + [t])[..|tokens|] == tokens;
  }

  // The characters a state has kept, with what an open escape may still add.
  function Weight(l: Lex): nat {
    TextLength(l.done) + (if l.word.Some? then |l.word.value| else 0)
    + (if l.mode.InOperator? then |l.mode.op| else if l.mode.DoubleEscaped? then 1 else 0)
  }

  predicate Tidy(l: Lex) {
    l.mode.InOperator? || l.mode.Comment? ==> l.word == None
  }

  ghost predicate HasOperator(l: Lex) {
    l.mode.InOperator? || exists t | t in l.done :: t.Operator?
  }

  predicate RoleFits(l: Lex, role: Role) {
    && (role.OpensQuote? ==> role.mode in {Escaped, Single, Double})
    && (role.Comments? ==> l.word == None)
  }

  lemma TakeGains(l: Lex, c: char, role: Role)
    requires Tidy(l) && l.mode == Plain && RoleFits(l, role)
    ensures Tidy(Take(l, c, role))
    ensures Weight(Take(l, c, role)) <= Weight(l) + (if role.Keeps? || role.Operates? then 1 else 0)
    ensures HasOperator(l) ==> HasOperator(Take(l, c, role))
    ensures role.Operates? ==> HasOperator(Take(l, c, role))
  {
    if l.word.Some? {
      TextLengthOneMore(l.done, Word(l.word.value));
    }
    assert forall t | t in l.done :: t in Delimit(l).done;
  }

  lemma PlainGains(l: Lex, c: char)
    requires Tidy(l) && l.mode == Plain
    ensures Tidy(ReadPlain(l, c)) && Weight(ReadPlain(l, c)) <= Weight(l) + 1
    ensures HasOperator(l) ==> HasOperator(ReadPlain(l, c))
  {
    TakeGains(l, c, RoleOf(c, l.word.Some?));
  }

  // No character is kept twice, and an operator never disappears.
  lemma ReadGains(l: Lex, c: char)
    requires Tidy(l)
    ensures Tidy(Read(l, c)) && Weight(Read(l, c)) <= Weight(l) + 1
    ensures HasOperator(l) ==> HasOperator(Read(l, c))
  {
    match l.mode
    case Plain => PlainGains(l, c);
    case InOperator(op) =>
      var m := Lex(l.done + [Operator(op)], None, Plain);
      TextLengthOneMore(l.done, Operator(op));
      assert Operator(op) in m.done;
      PlainGains(m, c);
    case _ =>
  }

  lemma {:induction false} ReadAllGains(l: Lex, s: string)
    requires Tidy(l)
    ensures Tidy(ReadAll(l, s)) && Weight(ReadAll(l, s)) <= Weight(l) + |s|
    ensures HasOperator(l) ==> HasOperator(ReadAll(l, s))
    decreases |s|
  {
    if s != "" {
      ReadGains(l, s[0]);
      ReadAllGains(Read(l, s[0]), s[1..]);
    }
  }

  lemma FinishKeeps(l: Lex)
    requires Tidy(l) && Finish(l).Some?
    ensures TextLength(Finish(l).value) <= Weight(l)
    ensures HasOperator(l) ==> exists t | t in Finish(l).value :: t.Operator?
  {
    if l.mode.InOperator? {
      TextLengthOneMore(l.done, Operator(l.mode.op));
      assert Operator(l.mode.op) in Finish(l).value;
    } else if l.word.Some? {
      TextLengthOneMore(l.done, Word(l.word.value));
      assert forall t | t in l.done :: t in Delimit(l).done;
    }
  }

  // The longest start of a string that is read as it is written.
  lemma {:induction false} LiteralPrefix(s: string) returns (n: nat)
    ensures n <= |s| && forall c | c in s[..n] :: IsLiteral(c)
    ensures n < |s| ==> !IsLiteral(s[n])
    decreases |s|
  {
    if s == "" || !IsLiteral(s[0]) {
      n := 0;
    } else {
      var m := LiteralPrefix(s[1..]);
      n := m + 1;
      assert s[..n] == [s[0]] + s[1..][..m];
    }
  }

  /** A path put into the script unquoted is read as itself exactly when it is a plain word. */
  lemma RawWordIff(s: string)
    ensures Tokens(s) == Some([Word(s)]) <==> PlainWord(s)
  {
    if PlainWord(s) {
      PlainWordReadsBack([], s);
      assert [] + [Word(s)] == [Word(s)];
    } else if s != "" {
      if s[0] == '#' || s[0] == '~' {
        SpecialLoses(s, START, 0);
      } else {
        var n := LiteralPrefix(s);
        if n == 0 {
          SpecialLoses(s, START, 0);
        } else {
          assert PlainWord(s[..n]) by {
            assert s[..n][0] == s[0];
          }
          PlainWordReadsBack([], s[..n]);
          SpecialLoses(s, Lex([], Some(s[..n]), Plain), n);
        }
      }
    }
  }

  lemma SpecialLoses(s: string, l: Lex, n: nat)
    requires n < |s| && l.mode == Plain && l.done == []
    requires l.word == (if n == 0 then None else Some(s[..n])) && l == ReadAll(START, s[..n])
    requires !IsLiteral(s[n]) || (n == 0 && (s[0] == '#' || s[0] == '~'))
    ensures Tokens(s) != Some([Word(s)])
  {
    var m := Read(l, s[n]);
    SpecialGainsNothing(l, s[n]);
    assert s == s[..n] + ([s[n]] + s[n + 1..]);
    ReadConcat(START, s[..n], [s[n]] + s[n + 1..]);
    ReadConcat(l, [s[n]], s[n + 1..]);
    ReadOne(l, s[n]);
    LossIsFinal(s, m, n);
  }

  lemma SpecialGainsNothing(l: Lex, c: char)
    requires Tidy(l) && l.mode == Plain
    requires !IsLiteral(c) || (l.word == None && (c == '#' || c == '~'))
    ensures Tidy(Read(l, c)) && (HasOperator(Read(l, c)) || Weight(Read(l, c)) <= Weight(l))
  {
    TakeGains(l, c, RoleOf(c, l.word.Some?));
  }

  // What is not kept by then cannot be made up for.
  lemma LossIsFinal(s: string, m: Lex, n: nat)
    requires n < |s| && Tidy(m) && (HasOperator(m) || Weight(m) <= n)
    ensures Finish(ReadAll(m, s[n + 1..])) != Some([Word(s)])
  {
    ReadAllGains(m, s[n + 1..]);
    var e := ReadAll(m, s[n + 1..]);
    if Finish(e).Some? {
      FinishKeeps(e);
      TextLengthOneMore([], Word(s));
      assert [] + [Word(s)] == [Word(s)];
    }
  }

  // How many 'z' a text has: the reader keeps each of them, and the word after
  // the sudo path begins with one.
  function Zs(s: string): nat {
    multiset(s)['z']
  }

  lemma ZsOneMore(s: string, c: char)
    ensures Zs(s + [c]) == Zs(s) + (if c == 'z' then 1 else 0)
  {
  }

  function Forming(l: Lex): string {
    if l.word.Some? then l.word.value else ""
  }

  predicate InFirstWord(l: Lex) {
    l.done == [] && !l.mode.Comment? && !l.mode.InOperator? && !l.mode.Expansion?
  }

  lemma ZsBackslash(s: string, c: char)
    ensures Zs(s + ['\\', c]) == Zs(s) + (if c == 'z' then 1 else 0)
  {
    ZsOneMore(s, '\\');
    ZsOneMore(s + ['\\'], c);
    assert s + ['\\', c] == s + ['\\'] + [c];
  }

  lemma AddForms(l: Lex, text: string)
    ensures Forming(Add(l, text)) == Forming(l) + text
  {
  }

  // While the first word lasts, every 'z' read is in it.
  predicate KeepsZs(l: Lex, seen: string) {
    && (l.mode.Comment? || l.mode.InOperator? ==> l.word == None)
    && (InFirstWord(l) ==> Zs(Forming(l)) == Zs(seen))
  }

  lemma TakeKeepsZs(l: Lex, seen: string, c: char, role: Role)
    requires KeepsZs(l, seen) && l.mode == Plain && RoleFits(l, role)
    requires c == 'z' ==> role.Keeps?
    ensures KeepsZs(Take(l, c, role), seen + [c])
  {
    ZsOneMore(seen, c);
    ZsOneMore(Forming(l), c);
    AddForms(l, [c]);
    AddForms(l, "");
    assert Forming(l) + "" == Forming(l);
  }

  lemma PlainKeepsZs(l: Lex, seen: string, c: char)
    requires KeepsZs(l, seen) && l.mode == Plain
    ensures KeepsZs(ReadPlain(l, c), seen + [c])
  {
    TakeKeepsZs(l, seen, c, RoleOf(c, l.word.Some?));
  }

  lemma QuotedKeepsZs(l: Lex, seen: string, c: char)
    requires KeepsZs(l, seen) && !l.mode.Plain? && InFirstWord(l)
    ensures KeepsZs(Read(l, c), seen + [c])
  {
    ZsOneMore(seen, c);
    if l.mode.DoubleEscaped? {
      AddForms(l, ['\\', c]);
      ZsBackslash(Forming(l), c);
    }
    AddForms(l, [c]);
    ZsOneMore(Forming(l), c);
  }

  lemma ReadKeepsZs(l: Lex, seen: string, c: char)
    requires KeepsZs(l, seen)
    ensures KeepsZs(Read(l, c), seen + [c])
  {
    if l.mode.Plain? {
      PlainKeepsZs(l, seen, c);
    } else if InFirstWord(l) {
      QuotedKeepsZs(l, seen, c);
    } else if l.mode.InOperator? && !IsOperator(l.mode.op + [c]) {
      PlainKeepsZs(Lex(l.done + [Operator(l.mode.op)], None, Plain), seen, c);
    }
  }

  lemma {:induction false} ReadAllKeepsZs(l: Lex, seen: string, s: string)
    requires KeepsZs(l, seen)
    ensures KeepsZs(ReadAll(l, s), seen + s)
    decreases |s|
  {
    if s == "" {
      assert seen + s == seen;
    } else {
      ReadKeepsZs(l, seen, s[0]);
      ReadAllKeepsZs(Read(l, s[0]), seen + [s[0]], s[1..]);
      assert seen + [s[0]] + s[1..] == seen + s;
    }
  }

  // A finished first token is shorter than what has been read.
  predicate FirstIsShort(l: Lex, n: nat) {
    if l.done != [] then |l.done[0].text| < n
    else |Forming(l)| + (if l.mode.InOperator? then |l.mode.op| else if l.mode.DoubleEscaped? then 1 else 0) <= n
  }

  lemma PlainFirstIsShort(l: Lex, n: nat, c: char)
    requires FirstIsShort(l, n) && l.mode == Plain
    ensures FirstIsShort(ReadPlain(l, c), n + 1)
  {
    AddForms(l, [c]);
    AddForms(l, "");
  }

  lemma ReadFirstIsShort(l: Lex, n: nat, c: char)
    requires FirstIsShort(l, n) && Tidy(l)
    ensures FirstIsShort(Read(l, c), n + 1)
  {
    AddForms(l, [c]);
    match l.mode
    case Plain => PlainFirstIsShort(l, n, c);
    case DoubleEscaped => AddForms(l, ['\\', c]);
    case InOperator(op) =>
      var m := Lex(l.done + [Operator(op)], None, Plain);
      if !IsOperator(op + [c]) {
        assert m.done[0] == if l.done == [] then Operator(op) else l.done[0];
        assert FirstIsShort(m, n + 1);
        FirstTokenStays(m, c);
      }
    case _ =>
  }

  lemma FirstTokenStays(l: Lex, c: char)
    requires l.mode == Plain && l.done != []
    ensures ReadPlain(l, c).done != [] && ReadPlain(l, c).done[0] == l.done[0]
  {
  }

  lemma {:induction false} ReadAllFirstIsShort(l: Lex, n: nat, s: string)
    requires FirstIsShort(l, n) && Tidy(l)
    ensures FirstIsShort(ReadAll(l, s), n + |s|)
    decreases |s|
  {
    if s != "" {
      ReadGains(l, s[0]);
      ReadFirstIsShort(l, n, s[0]);
      ReadAllFirstIsShort(Read(l, s[0]), n + 1, s[1..]);
    }
  }

  // The first token is not, and will not be, the word p.
  ghost predicate Missed(l: Lex, p: string) {
    if l.done != [] then l.done[0] != Word(p)
    else if l.mode.Expansion? then true
    else if l.mode.Comment? || l.mode.InOperator? then l.word == None
    else l.word.Some? && Zs(l.word.value) > Zs(p)
  }

  lemma MissedTake(l: Lex, p: string, c: char, role: Role)
    requires Missed(l, p) && l.mode == Plain && RoleFits(l, role)
    ensures Missed(Take(l, c, role), p)
  {
    ZsOneMore(Forming(l), c);
    AddForms(l, [c]);
    AddForms(l, "");
    assert Forming(l) + "" == Forming(l);
  }

  lemma MissedPlain(l: Lex, p: string, c: char)
    requires Missed(l, p) && l.mode == Plain
    ensures Missed(ReadPlain(l, c), p)
  {
    MissedTake(l, p, c, RoleOf(c, l.word.Some?));
  }

  lemma MissedQuoted(l: Lex, p: string, c: char)
    requires Missed(l, p) && !l.mode.Plain? && !l.mode.InOperator?
    ensures Missed(Read(l, c), p)
  {
    ZsOneMore(Forming(l), c);
    AddForms(l, [c]);
    if l.mode.DoubleEscaped? {
      AddForms(l, ['\\', c]);
      ZsBackslash(Forming(l), c);
    }
  }

  lemma MissedStep(l: Lex, p: string, c: char)
    requires Missed(l, p)
    ensures Missed(Read(l, c), p)
  {
    if l.mode.Plain? {
      MissedPlain(l, p, c);
    } else if !l.mode.InOperator? {
      MissedQuoted(l, p, c);
    } else if !IsOperator(l.mode.op + [c]) {
      MissedPlain(Lex(l.done + [Operator(l.mode.op)], None, Plain), p, c);
    }
  }

  lemma {:induction false} MissedAll(l: Lex, p: string, s: string)
    requires Missed(l, p)
    ensures Missed(ReadAll(l, s), p)
    decreases |s|
  {
    if s != "" {
      MissedStep(l, p, s[0]);
      MissedAll(Read(l, s[0]), p, s[1..]);
    }
  }

  // A path read to its end as some other word.
  lemma OtherWordMisses(p: string, l: Lex)
    requires !PlainWord(p) && l == ReadAll(START, p)
    requires l.mode == Plain && l.done == [] && l.word.Some?
    ensures Missed(Read(Read(l, ' '), 'z'), p)
  {
    RawWordIff(p);
    assert Delimit(l).done == [Word(l.word.value)];
    MissedStep(Read(l, ' '), p, 'z');
  }

  // A path that swallows the blank, or has no word yet: the 'z' joins it.
  lemma SwallowedBlankMisses(p: string, l: Lex)
    requires KeepsZs(l, p) && InFirstWord(l) && (l.mode == Plain ==> l.word == None)
    ensures Missed(Read(Read(l, ' '), 'z'), p)
  {
    ReadKeepsZs(l, p, ' ');
    ReadKeepsZs(Read(l, ' '), p + " ", 'z');
    ZsOneMore(p, ' ');
    ZsOneMore(p + " ", 'z');
  }

  // A blank and a 'z' after a path that is no plain word are enough to miss it.
  lemma NotPlainMisses(p: string)
    requires !PlainWord(p)
    ensures Missed(ReadAll(START, p + " z"), p)
  {
    var l := ReadAll(START, p);
    ReadConcat(START, p, " z");
    ReadTwo(l, ' ', 'z');
    ReadAllKeepsZs(START, "", p);
    assert "" + p == p;
    if l.mode == Plain && l.done == [] && l.word.Some? {
      OtherWordMisses(p, l);
    } else if InFirstWord(l) {
      SwallowedBlankMisses(p, l);
    } else {
      ReadAllFirstIsShort(START, 0, p);
      MissedStep(l, p, ' ');
      MissedStep(Read(l, ' '), p, 'z');
    }
  }

  lemma ReadTwo(l: Lex, a: char, b: char)
    ensures ReadAll(l, [a, b]) == Read(Read(l, a), b)
  {
    assert [a, b][1..] == [b];
    ReadOne(Read(l, a), b);
  }

  /**
   The sudo path goes into the script unquoted. The script is read back as
   intended exactly when that path is a plain word, whatever the other
   arguments are.
   */
  lemma PipelineReadsBackIff(sudo: string, source: string, sendOptions: seq<string>, target: string,
                             receiveOptions: seq<string>)
    ensures Tokens(Pipeline(Some(sudo), source, sendOptions, target, receiveOptions))
            == Some(PipelineTokens(Some(sudo), source, sendOptions, target, receiveOptions))
       <==> PlainWord(sudo)
  {
    if PlainWord(sudo) {
      NestedPipelineRoundTrip(Some(sudo), source, sendOptions, target, receiveOptions);
    } else {
      var script := Pipeline(Some(sudo), source, sendOptions, target, receiveOptions);
      var pieces := Half(Some(sudo), "send", sendOptions, source) + [Pipe]
        + Half(Some(sudo), "receive", receiveOptions, target);
      var rest := Join(Texts(pieces)[1..], " ");
      assert Texts(pieces)[1..][0] == "zfs";
      assert rest[0] == 'z';
      assert script == sudo + " z" + rest[1..] by {
        assert script == sudo + " " + rest;
        assert rest == "z" + rest[1..];
      }
      NotPlainMisses(sudo);
      ReadConcat(START, sudo + " z", rest[1..]);
      MissedAll(ReadAll(START, sudo + " z"), sudo, rest[1..]);
      assert PipelineTokens(Some(sudo), source, sendOptions, target, receiveOptions)[0] == Word(sudo);
    }
  }

  // A path with a blank is no plain word, so no script with it reads back.
  lemma SudoPathWithBlank(source: string, sendOptions: seq<string>, target: string, receiveOptions: seq<string>)
    ensures var sudo := Some("/opt/my tools/sudo");
            Tokens(Pipeline(sudo, source, sendOptions, target, receiveOptions))
            != Some(PipelineTokens(sudo, source, sendOptions, target, receiveOptions))
  {
    var sudo := "/opt/my tools/sudo";
    assert sudo[7] == ' ' && ' ' in sudo;
    PipelineReadsBackIff(sudo, source, sendOptions, target, receiveOptions);
  }
}
