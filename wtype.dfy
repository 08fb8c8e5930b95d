/**
 * The program's state, `struct wtype`, as a class whose methods update it in
 * place: the symbol table `keymap`, the modifier mask `mod_status` and the
 * command array with its count. The Wayland objects are not fields; what the
 * program sends through them is appended to `trace`, and standard input is
 * the field `input`, the characters not yet read. Each method is proved to
 * do what the function of the same step in `Symbols`, `Commands` or
 * `Engine` says, and `RunProgram`, the model of `main`, to produce exactly
 * `Execute`.
 */
module Wtype {
  import opened Symbols
  import opened Mods
  import opened Keymap
  import opened Commands
  import opened Engine

  class Wtype {
    const f: Foreign
    var keymap: seq<nat>
    var modStatus: bv32
    var commands: array<Command>
    var commandCount: nat
    var input: seq<nat>
    var trace: seq<Action>

    /** The command array holds `commandCount` compiled commands. */
    predicate Valid()
      reads this
    {
      commandCount <= commands.Length
    }

    /** The part of the state the command handlers read and write. */
    function State(): Session
      reads this
    {
      Session(keymap, modStatus, input, trace)
    }

    /** The parser's view of the state, with the loop's three flags. */
    function Current(rawText: bool, prefixWithSpace: bool, useStdin: bool): Parser
      reads this, commands
      requires Valid()
    {
      Parser(keymap, commands[..commandCount], rawText, prefixWithSpace, useStdin)
    }

    /** `memset(&wtype, 0, sizeof(wtype))`, with the library and standard input given. */
    constructor (f: Foreign, input: seq<nat>)
      ensures Valid()
      ensures this.f == f && this.input == input
      ensures keymap == [] && modStatus == 0 && commandCount == 0 && trace == []
    {
      this.f := f;
      this.input := input;
      keymap := [];
      modStatus := 0;
      commands := new Command[0];
      commandCount := 0;
      trace := [];
    }

    /** `get_key_code`: a linear search for `ch`, appending it when it is absent. */
    method GetKeyCode(ch: nat) returns (code: nat)
      modifies this`keymap
      ensures Resolution(keymap, code) == Resolve(old(keymap), ch)
    {
      var i := 0;
      while i < |keymap|
        invariant 0 <= i <= |keymap|
        invariant forall j :: 0 <= j < i ==> keymap[j] != ch
      {
        if keymap[i] == ch {
          return i;
        }
        i := i + 1;
      }
      keymap := keymap + [ch];
      code := |keymap| - 1;
    }

    /** The loop of the text branch of `parse_args`: one code per character, in order. */
    method GetKeyCodes(text: seq<nat>) returns (codes: seq<nat>)
      modifies this`keymap
      ensures Resolutions(keymap, codes) == ResolveAll(old(keymap), text)
    {
      codes := [];
      var k := 0;
      while k < |text|
        invariant 0 <= k <= |text|
        invariant ResolveAll(old(keymap), text)
               == Resolutions(ResolveAll(keymap, text[k..]).table, codes + ResolveAll(keymap, text[k..]).codes)
      {
        ResolveAllFront(keymap, text[k..]);
        ResolveAllGrows(keymap, text[k..]);
        var code := GetKeyCode(text[k]);
        assert text[k..][1..] == text[k + 1..];
        assert codes + ([code] + ResolveAll(keymap, text[k + 1..]).codes)
            == (codes + [code]) + ResolveAll(keymap, text[k + 1..]).codes;
        codes := codes + [code];
        k := k + 1;
      }
      assert text[k..] == [];
      assert codes + [] == codes;
    }

    /** The flag branch of `parse_args`: the command a flag and its value compile to. */
    method FlagOne(flag: string, value: string) returns (r: Result<Command>)
      modifies this`keymap
      ensures FlagCommand(f, flag, value, old(keymap))
           == (match r case Ok(c) => Ok((c, keymap)) case Err(e) => Err(e))
    {
      if flag == "-M" || flag == "-m" {
        var m := NameToMod(value);
        if m == ModNone {
          return Err(InvalidModifier(value));
        }
        r := if flag == "-M" then Ok(ModPress(m)) else Ok(ModRelease(m));
      } else if flag == "-s" {
        var ms := SleepMillis(f.atoi(value));
        if ms == 0 {
          return Err(InvalidSleep);
        }
        r := Ok(Sleep(ms));
      } else if flag == "-k" || flag == "-P" || flag == "-p" {
        var ks := f.keysymFromName(value);
        if ks == NoSymbol {
          return Err(UnknownKey(value));
        }
        var code := GetKeyCode(ks);
        r := if flag == "-k" then Ok(Text([code]))
             else if flag == "-P" then Ok(KeyPress(code))
             else Ok(KeyRelease(code));
      } else {
        r := Err(UnknownParameter(flag));
      }
    }

    /** Stores `cmd` in the next free slot of the command array. */
    method Append(cmd: Command)
      requires Valid() && commandCount < commands.Length
      modifies this`commandCount, commands
      ensures Valid() && commandCount == old(commandCount) + 1
      ensures commands[..commandCount] == old(commands[..commandCount]) + [cmd]
    {
      commands[commandCount] := cmd;
      commandCount := commandCount + 1;
    }

    /** The flag branch of the `parse_args` loop: a flag and the token after it. */
    method FlagBranch(argv: seq<string>, i: nat, ghost p: Parser) returns (err: Option<Failure>)
      requires 1 <= i < |argv| && IsFlag(p, argv[i])
      requires Valid() && commands.Length == |argv| && commandCount <= i - 1
      requires p == Current(p.rawText, p.prefixWithSpace, p.useStdin)
      modifies this`keymap, this`commandCount, commands
      ensures Valid()
      ensures match err
        case Some(e) => Step(f, argv, i, p) == Err(e)
        case None => Step(f, argv, i, p) == Ok((i + 2, Current(p.rawText, false, p.useStdin)))
    {
      if i == |argv| - 1 {
        return Some(MissingArgument(argv[i]));
      }
      FlagToken(f, argv, i, p);
      var r := FlagOne(argv[i], argv[i + 1]);
      if r.Err? {
        return Some(r.error);
      }
      Append(r.value);
      err := None;
    }

    /** The text branch of the `parse_args` loop: a literal token, spaced from the text before it. */
    method TextBranch(argv: seq<string>, i: nat, prefixWithSpace: bool, ghost p: Parser) returns (err: Option<Failure>)
      requires 1 <= i < |argv| && p.prefixWithSpace == prefixWithSpace
      requires argv[i] != "-" && (p.rawText || !(|argv[i]| > 0 && argv[i][0] == '-'))
      requires Valid() && commands.Length == |argv| && commandCount <= i - 1
      requires p == Current(p.rawText, p.prefixWithSpace, p.useStdin)
      modifies this`keymap, this`commandCount, commands
      ensures Valid()
      ensures match err
        case Some(e) => Step(f, argv, i, p) == Err(e)
        case None => Step(f, argv, i, p) == Ok((i + 1, Current(p.rawText, true, p.useStdin)))
    {
      var decoded := f.decode(argv[i]);
      if decoded.None? {
        UndecodableToken(f, argv, i, p);
        return Some(DecodeFailed);
      }
      TextToken(f, argv, i, p, decoded.value);
      var codes := GetKeyCodes(Spaced(prefixWithSpace, decoded.value));
      Append(Text(codes));
      err := None;
    }

    /** One turn of the `parse_args` loop at token `i`. */
    method ParseOne(argv: seq<string>, i: nat, rawText: bool, prefixWithSpace: bool, useStdin: bool)
      returns (err: Option<Failure>, next: nat, rawText': bool, prefixWithSpace': bool, useStdin': bool)
      requires 1 <= i < |argv|
      requires Valid() && commands.Length == |argv| && commandCount <= i - 1
      modifies this`keymap, this`commandCount, commands
      ensures Valid()
      ensures var r := Step(f, argv, i, old(Current(rawText, prefixWithSpace, useStdin)));
        match err
        case Some(e) => r == Err(e)
        case None => r == Ok((next, Current(rawText', prefixWithSpace', useStdin')))
    {
      ghost var p := Current(rawText, prefixWithSpace, useStdin);
      var tok := argv[i];
      next, rawText', prefixWithSpace', useStdin' := i + 1, rawText, prefixWithSpace, useStdin;
      if !rawText && tok == "--" {
        RawMode(f, argv, i, p);
        rawText' := true;
        err := None;
      } else if tok == "-" {
        StdinPlaceholder(f, argv, i, p);
        if useStdin {
          return Some(StdinTwice), next, rawText', prefixWithSpace', useStdin';
        }
        useStdin' := true;
        Append(TextStdin);
        err := None;
      } else if !rawText && |tok| > 0 && tok[0] == '-' {
        err := FlagBranch(argv, i, p);
        next, prefixWithSpace' := i + 2, false;
      } else {
        err := TextBranch(argv, i, prefixWithSpace, p);
        prefixWithSpace' := true;
      }
    }

    /**
     * `parse_args`: room for one command per argument, then the token loop;
     * the first failure stops it. With an empty table to start from, the
     * outcome is `Parse(f, argv)`.
     */
    method ParseArgs(argv: seq<string>) returns (err: Option<Failure>)
      requires |argv| >= 1
      modifies this`keymap, this`commands, this`commandCount
      ensures Valid() && fresh(commands) && commands.Length == |argv|
      ensures var r := ParseFrom(f, argv, 1, Parser(old(keymap), [], false, false, false));
        match r
        case Err(e) => err == Some(e)
        case Ok(p) => err == None && keymap == p.table && commands[..commandCount] == p.commands
    {
      commands := new Command[|argv|](_ => TextStdin);
      commandCount := 0;
      var rawText, prefixWithSpace, useStdin := false, false, false;
      ghost var start := Parser(keymap, [], false, false, false);
      assert commands[..0] == [];
      var i := 1;
      while i < |argv|
        invariant 1 <= i <= |argv|
        invariant Valid() && fresh(commands) && commands.Length == |argv| && commandCount <= i - 1
        invariant ParseFrom(f, argv, 1, start) == ParseFrom(f, argv, i, Current(rawText, prefixWithSpace, useStdin))
        decreases |argv| - i
      {
        var e, next, r', p', u' := ParseOne(argv, i, rawText, prefixWithSpace, useStdin);
        if e.Some? {
          return e;
        }
        i, rawText, prefixWithSpace, useStdin := next, r', p', u';
      }
      err := None;
    }

    /** `upload_keymap`: writes the document for the current table and sends it, then waits. */
    method UploadKeymap() returns (document: string)
      modifies this`trace
      ensures document == KeymapText(keymap, f.keysymName)
      ensures trace == old(trace) + UploadOf(f, keymap)
    {
      document := WriteKeymap(keymap, f.keysymName);
      trace := trace + [Upload(keymap)];
      trace := trace + [Roundtrip];
    }

    /** `type_keycode`. */
    method TypeKeycode(code: nat)
      modifies this`trace
      ensures trace == old(trace) + TypeKey(code)
    {
      trace := trace + [Key(code, Pressed)];
      trace := trace + [Roundtrip];
      trace := trace + [Pause(2000)];
      trace := trace + [Key(code, Released)];
      trace := trace + [Roundtrip];
      trace := trace + [Pause(2000)];
    }

    /** `run_text`, and the typing loops of `run_text_stdin`. */
    method RunText(codes: seq<nat>)
      modifies this`trace
      ensures trace == old(trace) + TypeAll(codes)
    {
      var k := 0;
      while k < |codes|
        invariant 0 <= k <= |codes|
        invariant trace == old(trace) + TypeAll(codes[..k])
      {
        assert codes[..k + 1][..k] == codes[..k];
        TypeKeycode(codes[k]);
        k := k + 1;
      }
      assert codes[..k] == codes;
    }

    /** `run_sleep`. */
    method RunSleep(ms: nat)
      modifies this`trace
      ensures trace == old(trace) + [Pause(SleepMicros(ms))]
    {
      trace := trace + [Pause(SleepMicros(ms))];
    }

    /** `run_mod`: updates `mod_status` and reports it, CapsLock as locked. */
    method RunMod(cmd: Command)
      requires cmd.ModPress? || cmd.ModRelease?
      modifies this`modStatus, this`trace
      ensures State() == Engine.RunCommand(f, old(State()), cmd)
    {
      if cmd.ModPress? {
        modStatus := Press(modStatus, cmd.m);
      } else {
        modStatus := Release(modStatus, cmd.m);
      }
      trace := trace + [Modifiers(Depressed(modStatus), Locked(modStatus))];
    }

    /** `run_key`. */
    method RunKey(cmd: Command)
      requires cmd.KeyPress? || cmd.KeyRelease?
      modifies this`trace
      ensures State() == Engine.RunCommand(f, old(State()), cmd)
    {
      trace := trace + [Key(cmd.code, if cmd.KeyPress? then Pressed else Released)];
      trace := trace + [Roundtrip];
    }

    /** Uploads the keymap and types the buffered codes, as `run_text_stdin` does with a batch. */
    method FlushBuffer(buf: array<nat>, len: nat)
      requires len <= buf.Length
      modifies this`trace
      ensures State() == Flush(f, old(State()), buf[..len])
    {
      var _ := UploadKeymap();
      RunText(buf[..len]);
    }

    /**
     * One character of `run_text_stdin`: its code goes into the buffer, and a
     * buffer that is now full is flushed and emptied.
     */
    method BufferChar(buf: array<nat>, len: nat) returns (len': nat)
      requires input != [] && len < Capacity && buf.Length == Capacity
      modifies this`keymap, this`input, this`trace, buf
      ensures len' < Capacity && input == old(input)[1..]
      ensures Feed(f, State(), buf[..len']) == Feed(f, old(State()), old(buf[..len]))
    {
      ghost var s, pending := State(), buf[..len];
      FeedStep(f, s, pending);
      ghost var (next, c) := ReadOne(s);
      var ch := input[0];
      input := input[1..];
      var code := GetKeyCode(ch);
      buf[len] := code;
      len' := len + 1;
      assert buf[..len'] == pending + c;
      assert State() == next;
      if len' == Capacity {
        FlushBuffer(buf, len');
        len' := 0;
        assert buf[..0] == [];
      }
    }

    /**
     * `run_text_stdin`: reads characters until the input ends, collecting
     * their codes in a buffer of 100; a full buffer is uploaded and typed,
     * and so is a non-empty rest at the end.
     */
    method RunTextStdin()
      modifies this`keymap, this`input, this`trace
      ensures State() == Feed(f, old(State()), [])
    {
      var buf := new nat[Capacity];
      var len := 0;
      assert buf[..0] == [];
      while input != []
        invariant 0 <= len < Capacity
        invariant Feed(f, State(), buf[..len]) == Feed(f, old(State()), [])
        decreases |input|
      {
        len := BufferChar(buf, len);
      }
      if len != 0 {
        FlushBuffer(buf, len);
      }
    }

    /** One entry of the `handlers` table of `run_commands`, chosen by the command's type. */
    method Handle(cmd: Command)
      modifies this`keymap, this`modStatus, this`input, this`trace
      ensures State() == Engine.RunCommand(f, old(State()), cmd)
    {
      match cmd
      case Text(codes) => RunText(codes);
      case ModPress(_) => RunMod(cmd);
      case ModRelease(_) => RunMod(cmd);
      case KeyPress(_) => RunKey(cmd);
      case KeyRelease(_) => RunKey(cmd);
      case Sleep(ms) => RunSleep(ms);
      case TextStdin => RunTextStdin();
    }

    /** `run_commands`: the compiled commands in order. */
    method RunCommands()
      requires Valid()
      modifies this`keymap, this`modStatus, this`input, this`trace
      ensures State() == RunAll(f, old(State()), commands[..commandCount])
    {
      var i := 0;
      while i < commandCount
        invariant 0 <= i <= commandCount
        invariant State() == RunAll(f, old(State()), commands[..i])
      {
        assert commands[..i + 1][..i] == commands[..i];
        Handle(commands[i]);
        i := i + 1;
      }
    }
  }

  /**
   * `main` past the Wayland setup: fewer than two arguments is a usage error;
   * otherwise the zeroed state parses the arguments, uploads the keymap once
   * and runs the commands. The outcome is exactly `Execute`.
   */
  method RunProgram(f: Foreign, argv: seq<string>, input: seq<nat>) returns (result: Result<Session>)
    ensures result == Execute(f, argv, input)
  {
    if |argv| < 2 {
      return Err(Usage);
    }
    var w := new Wtype(f, input);
    assert Parser(w.keymap, [], false, false, false) == Start;
    var err := w.ParseArgs(argv);
    if err.Some? {
      return Err(err.value);
    }
    ghost var p := Parse(f, argv).value;
    var _ := w.UploadKeymap();
    assert w.State() == Session(p.table, 0, input, UploadOf(f, p.table));
    w.RunCommands();
    result := Ok(w.State());
  }
}
