/**
 * The command compiler `parse_args`: command-line tokens become a list of
 * commands, and every character or keysym they name is entered in the symbol
 * table. A `--` switches to raw text, a lone `-` stands for standard input,
 * a token starting with '-' is a flag that consumes the next token, and any
 * other token is literal text, spaced from the text token before it unless a
 * flag came in between.
 */
module Commands {
  import opened Symbols
  import opened Mods

  /**
   * The library calls the parser and the keymap writer rely on, as given
   * functions: `mbstowcs` in the user's locale (None when it fails),
   * `xkb_keysym_from_name` (0 is `XKB_KEY_NoSymbol`), `xkb_keysym_get_name`
   * (the bytes it writes, before truncation to the buffer) and `atoi`.
   */
  datatype Foreign = Foreign(
    decode: string -> Option<seq<nat>>,
    keysymFromName: string -> nat,
    keysymName: nat -> string,
    atoi: string -> int)

  const NoSymbol: nat := 0
  const Space: nat := ' ' as nat

  datatype Command =
    | Text(codes: seq<nat>)
    | ModPress(m: Mod)
    | ModRelease(m: Mod)
    | KeyPress(code: nat)
    | KeyRelease(code: nat)
    | Sleep(ms: nat)
    | TextStdin

  /** Each way the program gives up with a message before typing anything. */
  datatype Failure =
    | Usage
    | StdinTwice
    | MissingArgument(flag: string)
    | InvalidModifier(name: string)
    | InvalidSleep
    | UnknownKey(name: string)
    | UnknownParameter(flag: string)
    | DecodeFailed

  datatype Result<T> = Ok(value: T) | Err(error: Failure)

  /** The loop's state: the table, the commands so far and the three flags. */
  datatype Parser = Parser(
    table: seq<nat>,
    commands: seq<Command>,
    rawText: bool,
    prefixWithSpace: bool,
    useStdin: bool)

  const Start := Parser([], [], false, false, false)

  /** `unsigned int sleep_ms = atoi(...)`: the value taken modulo 2^32. */
  function SleepMillis(n: int): (ms: nat)
    ensures ms < 0x1_0000_0000
    ensures 0 <= n < 0x1_0000_0000 ==> ms == n
    ensures ms == 0 <==> n % 0x1_0000_0000 == 0
  {
    n % 0x1_0000_0000
  }

  /** A token `parse_args` reads as a flag: it starts with '-', outside raw mode, and is not `-`. */
  predicate IsFlag(p: Parser, tok: string)
  {
    !p.rawText && |tok| > 0 && tok[0] == '-' && tok != "-" && tok != "--"
  }

  /** The command a flag and its value compile to, and the table after it. */
  function FlagCommand(f: Foreign, flag: string, value: string, t: seq<nat>): (r: Result<(Command, seq<nat>)>)
    ensures r.Ok? ==> Extends(t, r.value.1) && (NoDuplicates(t) ==> NoDuplicates(r.value.1))
    ensures r.Ok? ==> CodesWithin(r.value.0, |r.value.1|)
    ensures r.Ok? ==> !r.value.0.TextStdin?
  {
    if flag == "-M" || flag == "-m" then
      var m := ModFor(value);
      if m == ModNone then Err(InvalidModifier(value))
      else if flag == "-M" then Ok((ModPress(m), t))
      else Ok((ModRelease(m), t))
    else if flag == "-s" then
      var ms := SleepMillis(f.atoi(value));
      if ms == 0 then Err(InvalidSleep) else Ok((Sleep(ms), t))
    else if flag == "-k" || flag == "-P" || flag == "-p" then
      var ks := f.keysymFromName(value);
      if ks == NoSymbol then Err(UnknownKey(value))
      else
        var r := Resolve(t, ks);
        if flag == "-k" then Ok((Text([r.code]), r.table))
        else if flag == "-P" then Ok((KeyPress(r.code), r.table))
        else Ok((KeyRelease(r.code), r.table))
    else Err(UnknownParameter(flag))
  }

  /** Every key code a command carries is below `n`. */
  predicate CodesWithin(c: Command, n: nat)
  {
    match c
    case Text(codes) => forall k :: 0 <= k < |codes| ==> codes[k] < n
    case KeyPress(code) => code < n
    case KeyRelease(code) => code < n
    case _ => true
  }

  /** The text a literal token types: its characters, after a space when one is due. */
  function Spaced(prefix: bool, chars: seq<nat>): (s: seq<nat>)
    ensures |s| == |chars| + (if prefix then 1 else 0)
    ensures prefix ==> s[0] == Space && s[1..] == chars
    ensures !prefix ==> s == chars
  {
    (if prefix then [Space] else []) + chars
  }

  /** One turn of the token loop at token `i`: the next token index and the new state. */
  function Step(f: Foreign, argv: seq<string>, i: nat, p: Parser): (r: Result<(nat, Parser)>)
    requires 1 <= i < |argv|
    ensures r.Ok? ==> i < r.value.0 <= |argv|
    ensures r.Ok? ==> r.value.0 == i + 1 || r.value.0 == i + 2
    ensures r.Ok? ==> Extends(p.table, r.value.1.table)
    ensures r.Ok? ==> |p.commands| <= |r.value.1.commands| <= |p.commands| + 1
    ensures r.Ok? ==> r.value.1.commands[..|p.commands|] == p.commands
  {
    var tok := argv[i];
    if !p.rawText && tok == "--" then
      Ok((i + 1, p.(rawText := true)))
    else if tok == "-" then
      if p.useStdin then Err(StdinTwice)
      else Ok((i + 1, p.(useStdin := true, commands := p.commands + [TextStdin])))
    else if !p.rawText && |tok| > 0 && tok[0] == '-' then
      if i == |argv| - 1 then Err(MissingArgument(tok))
      else
        match FlagCommand(f, tok, argv[i + 1], p.table)
        case Err(e) => Err(e)
        case Ok((cmd, t)) =>
          Ok((i + 2, p.(table := t, commands := p.commands + [cmd], prefixWithSpace := false)))
    else
      match f.decode(tok)
      case None => Err(DecodeFailed)
      case Some(chars) =>
        var res := ResolveAll(p.table, Spaced(p.prefixWithSpace, chars));
        ResolveAllGrows(p.table, Spaced(p.prefixWithSpace, chars));
        Ok((i + 1, p.(table := res.table, commands := p.commands + [Text(res.codes)], prefixWithSpace := true)))
  }

  /** The token loop from token `i` to the end, stopping at the first failure. */
  function ParseFrom(f: Foreign, argv: seq<string>, i: nat, p: Parser): (r: Result<Parser>)
    requires 1 <= i <= |argv|
    ensures r.Ok? ==> Extends(p.table, r.value.table)
    ensures r.Ok? ==> |p.commands| <= |r.value.commands| && r.value.commands[..|p.commands|] == p.commands
    decreases |argv| - i
  {
    if i == |argv| then Ok(p)
    else
      match Step(f, argv, i, p)
      case Err(e) => Err(e)
      case Ok((j, q)) =>
        var r := ParseFrom(f, argv, j, q);
        assert r.Ok? ==> r.value.table[..|p.table|] == r.value.table[..|q.table|][..|p.table|];
        assert r.Ok? ==> r.value.commands[..|p.commands|] == r.value.commands[..|q.commands|][..|p.commands|];
        r
  }

  /** `parse_args(argc, argv)`: argv[0], the program name, is skipped. */
  function Parse(f: Foreign, argv: seq<string>): Result<Parser>
    requires |argv| >= 1
  {
    ParseFrom(f, argv, 1, Start)
  }

  function StdinCount(cs: seq<Command>): (n: nat)
    ensures n <= |cs|
    ensures n == 0 <==> TextStdin !in cs
  {
    if cs == [] then 0 else StdinCount(cs[..|cs| - 1]) + (if cs[|cs| - 1] == TextStdin then 1 else 0)
  }

  /**
   * What holds of the parser's state at every turn: the table has no
   * duplicates, every command's codes index it, `use_stdin` records whether a
   * `-` was seen, and at most one was.
   */
  predicate Good(p: Parser)
  {
    && NoDuplicates(p.table)
    && (forall k :: 0 <= k < |p.commands| ==> CodesWithin(p.commands[k], |p.table|))
    && (p.useStdin <==> TextStdin in p.commands)
    && StdinCount(p.commands) <= 1
  }

  lemma CodesWithinGrow(c: Command, n: nat, m: nat)
    requires CodesWithin(c, n) && n <= m
    ensures CodesWithin(c, m)
  {
  }

  lemma StdinCountAppend(cs: seq<Command>, c: Command)
    ensures StdinCount(cs + [c]) == StdinCount(cs) + (if c == TextStdin then 1 else 0)
  {
    assert (cs + [c])[..|cs|] == cs;
  }

  /** Appending one command whose codes index the grown table keeps the state good. */
  lemma AppendKeepsGood(p: Parser, q: Parser, c: Command)
    requires Good(p)
    requires q.commands == p.commands + [c]
    requires |p.table| <= |q.table| && NoDuplicates(q.table) && CodesWithin(c, |q.table|)
    requires c == TextStdin ==> !p.useStdin && q.useStdin
    requires c != TextStdin ==> q.useStdin == p.useStdin
    ensures Good(q)
  {
    StdinCountAppend(p.commands, c);
    forall k | 0 <= k < |q.commands|
      ensures CodesWithin(q.commands[k], |q.table|)
    {
      if k < |p.commands| {
        CodesWithinGrow(p.commands[k], |p.table|, |q.table|);
      }
    }
  }

  /** Each turn of the loop keeps the state good. */
  lemma StepKeepsGood(f: Foreign, argv: seq<string>, i: nat, p: Parser)
    requires 1 <= i < |argv| && Good(p)
    ensures Step(f, argv, i, p).Ok? ==> Good(Step(f, argv, i, p).value.1)
  {
    var r := Step(f, argv, i, p);
    var tok := argv[i];
    if r.Ok? {
      var q := r.value.1;
      if !p.rawText && tok == "--" {
      } else if tok == "-" {
        AppendKeepsGood(p, q, TextStdin);
      } else if !p.rawText && |tok| > 0 && tok[0] == '-' {
        var (c, t) := FlagCommand(f, tok, argv[i + 1], p.table).value;
        AppendKeepsGood(p, q, c);
      } else {
        var text := Spaced(p.prefixWithSpace, f.decode(tok).value);
        var res := ResolveAll(p.table, text);
        ResolveAllGrows(p.table, text);
        ResolveAllCodes(p.table, text);
        AppendKeepsGood(p, q, Text(res.codes));
      }
    }
  }

  /**
   * Over the rest of the loop: the state stays good, the table only grows, and
   * no more commands are added than tokens remain.
   */
  lemma {:induction false} ParseFromInvariant(f: Foreign, argv: seq<string>, i: nat, p: Parser)
    requires 1 <= i <= |argv| && Good(p)
    ensures ParseFrom(f, argv, i, p).Ok? ==>
      var q := ParseFrom(f, argv, i, p).value;
      Good(q) && Extends(p.table, q.table) && |q.commands| <= |p.commands| + (|argv| - i)
    decreases |argv| - i
  {
    if i < |argv| {
      var r := Step(f, argv, i, p);
      if r.Ok? {
        var (j, q) := r.value;
        StepKeepsGood(f, argv, i, p);
        ParseFromInvariant(f, argv, j, q);
      }
    }
  }

  /**
   * The compiled program: at most one command per token after the program
   * name (the size `calloc` reserves), a duplicate-free table that every
   * command's codes index, and at most one stdin placeholder.
   */
  lemma ParseBound(f: Foreign, argv: seq<string>)
    requires |argv| >= 1
    ensures Parse(f, argv).Ok? ==>
      var q := Parse(f, argv).value;
      |q.commands| <= |argv| - 1 && Good(q)
  {
    ParseFromInvariant(f, argv, 1, Start);
  }

  /**
   * A literal text token compiles to the codes of its characters, after the
   * code of a space when the token before was text too; the space is then due
   * for the next text token.
   */
  lemma TextToken(f: Foreign, argv: seq<string>, i: nat, p: Parser, chars: seq<nat>)
    requires 1 <= i < |argv|
    requires argv[i] != "-" && (p.rawText || !(|argv[i]| > 0 && argv[i][0] == '-'))
    requires f.decode(argv[i]) == Some(chars)
    ensures Step(f, argv, i, p).Ok?
    ensures var (j, q) := Step(f, argv, i, p).value;
      && j == i + 1 && q.prefixWithSpace && q.rawText == p.rawText
      && q.commands == p.commands + [Text(ResolveAll(p.table, Spaced(p.prefixWithSpace, chars)).codes)]
      && |q.commands[|p.commands|].codes| == |chars| + (if p.prefixWithSpace then 1 else 0)
  {
  }

  /** A text token `mbstowcs` cannot decode stops the program. */
  lemma UndecodableToken(f: Foreign, argv: seq<string>, i: nat, p: Parser)
    requires 1 <= i < |argv|
    requires argv[i] != "-" && (p.rawText || !(|argv[i]| > 0 && argv[i][0] == '-'))
    requires f.decode(argv[i]) == None
    ensures Step(f, argv, i, p) == Err(DecodeFailed)
  {
  }

  /**
   * A flag with its value: it consumes two tokens, adds one command, and
   * cancels the space before the next text token.
   */
  lemma FlagToken(f: Foreign, argv: seq<string>, i: nat, p: Parser)
    requires 1 <= i < |argv| - 1 && IsFlag(p, argv[i])
    ensures Step(f, argv, i, p).Ok? <==> FlagCommand(f, argv[i], argv[i + 1], p.table).Ok?
    ensures Step(f, argv, i, p).Ok? ==>
      var (j, q) := Step(f, argv, i, p).value;
      var (c, t) := FlagCommand(f, argv[i], argv[i + 1], p.table).value;
      j == i + 2 && q == p.(table := t, commands := p.commands + [c], prefixWithSpace := false)
    ensures Step(f, argv, i, p).Err? ==> Step(f, argv, i, p) == Err(FlagCommand(f, argv[i], argv[i + 1], p.table).error)
  {
  }

  /** A flag with nothing after it fails, whatever the flag. */
  lemma FlagWithoutValue(f: Foreign, argv: seq<string>, p: Parser)
    requires |argv| >= 2 && IsFlag(p, argv[|argv| - 1])
    ensures Step(f, argv, |argv| - 1, p) == Err(MissingArgument(argv[|argv| - 1]))
  {
  }

  /**
   * `--` switches raw mode on without adding a command; in raw mode every
   * token except `-` is text, a second `--` included.
   */
  lemma RawMode(f: Foreign, argv: seq<string>, i: nat, p: Parser)
    requires 1 <= i < |argv|
    ensures !p.rawText && argv[i] == "--" ==>
      Step(f, argv, i, p) == Ok((i + 1, p.(rawText := true)))
    ensures p.rawText && argv[i] != "-" ==>
      match f.decode(argv[i])
      case None => Step(f, argv, i, p) == Err(DecodeFailed)
      case Some(chars) => Step(f, argv, i, p).Ok? && Step(f, argv, i, p).value.1.commands[|p.commands|].Text?
  {
  }

  /**
   * `-` is the stdin placeholder in raw mode too; it leaves the space rule
   * alone, and a second one fails.
   */
  lemma StdinPlaceholder(f: Foreign, argv: seq<string>, i: nat, p: Parser)
    requires 1 <= i < |argv| && argv[i] == "-"
    ensures p.useStdin ==> Step(f, argv, i, p) == Err(StdinTwice)
    ensures !p.useStdin ==>
      Step(f, argv, i, p) == Ok((i + 1, p.(useStdin := true, commands := p.commands + [TextStdin])))
  {
  }

  /** `-M` and `-m` fail on a name `name_to_mod` does not know, and only then. */
  lemma ModifierFlags(f: Foreign, flag: string, value: string, t: seq<nat>)
    requires flag == "-M" || flag == "-m"
    ensures FlagCommand(f, flag, value, t).Err? <==> ModFor(value) == ModNone
    ensures FlagCommand(f, flag, value, t).Err? ==> FlagCommand(f, flag, value, t).error == InvalidModifier(value)
    ensures FlagCommand(f, flag, value, t).Ok? ==>
      FlagCommand(f, flag, value, t).value
        == (if flag == "-M" then ModPress(ModFor(value)) else ModRelease(ModFor(value)), t)
  {
  }

  /** `-s` fails when the value is 0 modulo 2^32; a negative `atoi` result otherwise passes. */
  lemma SleepFlag(f: Foreign, value: string, t: seq<nat>)
    ensures FlagCommand(f, "-s", value, t).Err? <==> f.atoi(value) % 0x1_0000_0000 == 0
    ensures f.atoi(value) == -1 ==> FlagCommand(f, "-s", value, t) == Ok((Sleep(0xFFFF_FFFF), t))
  {
  }

  /**
   * `-k`, `-P` and `-p` fail on an unknown keysym name; otherwise the keysym
   * gets a code in the same table as text characters.
   */
  lemma KeyFlags(f: Foreign, flag: string, value: string, t: seq<nat>)
    requires flag == "-k" || flag == "-P" || flag == "-p"
    ensures FlagCommand(f, flag, value, t).Err? <==> f.keysymFromName(value) == NoSymbol
    ensures FlagCommand(f, flag, value, t).Ok? ==>
      var r := Resolve(t, f.keysymFromName(value));
      FlagCommand(f, flag, value, t).value.1 == r.table
      && FlagCommand(f, flag, value, t).value.0
        == (if flag == "-k" then Text([r.code]) else if flag == "-P" then KeyPress(r.code) else KeyRelease(r.code))
  {
  }

  /** Any other flag is refused. */
  lemma UnknownFlag(f: Foreign, flag: string, value: string, t: seq<nat>)
    requires flag !in ["-M", "-m", "-s", "-k", "-P", "-p"]
    ensures FlagCommand(f, flag, value, t) == Err(UnknownParameter(flag))
  {
  }
}
