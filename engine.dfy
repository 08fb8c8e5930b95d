/**
 * What the program sends to the compositor, as a trace of actions: keymap
 * uploads, key events, modifier updates, the round trips that wait for the
 * compositor and the pauses between key events. `type_keycode`, `run_text`,
 * `run_key`, `run_mod`, `run_sleep`, the batching of `run_text_stdin` and
 * `run_commands` are functions from a session to the session after them.
 */
module Engine {
  import opened Symbols
  import opened Mods
  import opened Keymap
  import opened Commands

  datatype KeyState = Pressed | Released

  datatype Action =
    | Upload(table: seq<nat>)
    | Key(code: nat, state: KeyState)
    | Modifiers(depressed: bv32, locked: bv32)
    | Roundtrip
    | Pause(us: nat)

  /** The program's state while it replays commands: table, `mod_status`, unread stdin, and the trace so far. */
  datatype Session = Session(table: seq<nat>, mask: bv32, input: seq<nat>, trace: seq<Action>)

  /** `u` is `tr` with zero or more actions sent after it: what was sent stays sent. */
  predicate Appends(tr: seq<Action>, u: seq<Action>)
  {
    |tr| <= |u| && u[..|tr|] == tr
  }

  /** `buf_size` of `run_text_stdin`. */
  const Capacity: nat := 100

  /**
   * `upload_keymap`: the keymap for a snapshot of the table, then a round
   * trip. The document sent for snapshot `t` is `KeymapText(t, f.keysymName)`.
   */
  function UploadOf(f: Foreign, t: seq<nat>): seq<Action>
  {
    [Upload(t), Roundtrip]
  }

  /** `type_keycode`: press, wait, release, wait. */
  function TypeKey(c: nat): seq<Action>
  {
    [Key(c, Pressed), Roundtrip, Pause(2000), Key(c, Released), Roundtrip, Pause(2000)]
  }

  /** `run_text`: every code typed in order. */
  function TypeAll(cs: seq<nat>): (tr: seq<Action>)
    ensures |tr| == 6 * |cs|
  {
    if cs == [] then [] else TypeAll(cs[..|cs| - 1]) + TypeKey(cs[|cs| - 1])
  }

  /** `usleep(sleep_ms * 1000)`: the product is an `unsigned int` and wraps. */
  function SleepMicros(ms: nat): (us: nat)
    ensures us < 0x1_0000_0000
    ensures ms < 4294968 ==> us == ms * 1000
  {
    (ms * 1000) % 0x1_0000_0000
  }

  /** Uploads the table and types the buffered codes: a full buffer, or what is left at EOF. */
  function Flush(f: Foreign, s: Session, buf: seq<nat>): Session
  {
    s.(trace := s.trace + UploadOf(f, s.table) + TypeAll(buf))
  }

  /**
   * `run_text_stdin` from the point where `buf` holds the codes read since the
   * last flush and `s.input` the characters still to be read.
   */
  function Feed(f: Foreign, s: Session, buf: seq<nat>): (r: Session)
    requires |buf| < Capacity
    ensures r.input == [] && r.mask == s.mask
    decreases |s.input|
  {
    if s.input == [] then
      if buf == [] then s else Flush(f, s, buf)
    else
      var r := Resolve(s.table, s.input[0]);
      var next := s.(table := r.table, input := s.input[1..]);
      var full := buf + [r.code];
      if |full| == Capacity then Feed(f, Flush(f, next, full), [])
      else Feed(f, next, full)
  }

  /** Reading stdin only sends more: what was sent before stays at the front of the trace. */
  lemma {:induction false} FeedAppends(f: Foreign, s: Session, buf: seq<nat>)
    requires |buf| < Capacity
    ensures Appends(s.trace, Feed(f, s, buf).trace)
    decreases |s.input|
  {
    if s.input != [] {
      var r := Resolve(s.table, s.input[0]);
      var next := s.(table := r.table, input := s.input[1..]);
      var full := buf + [r.code];
      if |full| == Capacity {
        var flushed := Flush(f, next, full);
        FeedAppends(f, flushed, []);
        var after := Feed(f, flushed, []).trace;
        assert after[..|s.trace|] == after[..|flushed.trace|][..|s.trace|];
      } else {
        FeedAppends(f, next, full);
      }
    }
  }

  /** One command of `run_commands`. */
  function RunCommand(f: Foreign, s: Session, c: Command): (r: Session)
    ensures !c.TextStdin? ==> r.table == s.table && r.input == s.input
    ensures !c.ModPress? && !c.ModRelease? ==> r.mask == s.mask
    ensures Appends(s.trace, r.trace)
  {
    match c
    case Text(codes) => s.(trace := s.trace + TypeAll(codes))
    case ModPress(m) =>
      var mask := Press(s.mask, m);
      s.(mask := mask, trace := s.trace + [Modifiers(Depressed(mask), Locked(mask))])
    case ModRelease(m) =>
      var mask := Release(s.mask, m);
      s.(mask := mask, trace := s.trace + [Modifiers(Depressed(mask), Locked(mask))])
    case KeyPress(code) => s.(trace := s.trace + [Key(code, Pressed), Roundtrip])
    case KeyRelease(code) => s.(trace := s.trace + [Key(code, Released), Roundtrip])
    case Sleep(ms) => s.(trace := s.trace + [Pause(SleepMicros(ms))])
    case TextStdin => FeedAppends(f, s, []); Feed(f, s, [])
  }

  /** `run_commands`: the commands in order. */
  function RunAll(f: Foreign, s: Session, cs: seq<Command>): (r: Session)
    ensures Appends(s.trace, r.trace)
    ensures TextStdin !in cs ==> r.table == s.table && r.input == s.input
  {
    if cs == [] then s
    else
      var before := RunAll(f, s, cs[..|cs| - 1]);
      var r := RunCommand(f, before, cs[|cs| - 1]);
      assert r.trace[..|s.trace|] == r.trace[..|before.trace|][..|s.trace|];
      assert cs == cs[..|cs| - 1] + [cs[|cs| - 1]];
      r
  }

  /** `main` past the Wayland setup: parse, upload the keymap once, run the commands. */
  function Execute(f: Foreign, argv: seq<string>, input: seq<nat>): (r: Result<Session>)
    ensures r.Ok? ==> |argv| >= 2 && Parse(f, argv).Ok?
    ensures r.Ok? ==> |r.value.trace| >= 2 && r.value.trace[..2] == UploadOf(f, Parse(f, argv).value.table)
  {
    if |argv| < 2 then Err(Usage)
    else
      match Parse(f, argv)
      case Err(e) => Err(e)
      case Ok(p) => Ok(RunAll(f, Session(p.table, 0, input, UploadOf(f, p.table)), p.commands))
  }

  // ---------------------------------------------------------------------
  // Observations on traces

  /** The codes of the key presses in a trace, in order. */
  function Presses(tr: seq<Action>): seq<nat>
  {
    if tr == [] then []
    else Presses(tr[..|tr| - 1]) + (match tr[|tr| - 1] case Key(c, Pressed) => [c] case _ => [])
  }

  /** How many keymaps a trace uploads. */
  function Uploads(tr: seq<Action>): nat
  {
    if tr == [] then 0 else Uploads(tr[..|tr| - 1]) + (if tr[|tr| - 1].Upload? then 1 else 0)
  }

  /** The size of the table the compositor holds after `tr`, starting from `n`. */
  function LoadedAfter(tr: seq<Action>, n: nat): nat
  {
    if tr == [] then n
    else match tr[|tr| - 1]
      case Upload(t) => |t|
      case _ => LoadedAfter(tr[..|tr| - 1], n)
  }

  /** Every key event in `tr` names a code the keymap uploaded last before it declares. */
  predicate KeysWithin(tr: seq<Action>, n: nat)
  {
    tr == [] ||
    (KeysWithin(tr[..|tr| - 1], n)
     && (tr[|tr| - 1].Key? ==> tr[|tr| - 1].code < LoadedAfter(tr[..|tr| - 1], n)))
  }

  /** The observations of `tr + [x]` from those of `tr`. */
  lemma Snoc(tr: seq<Action>, x: Action, n: nat)
    ensures Presses(tr + [x]) == Presses(tr) + (match x case Key(c, Pressed) => [c] case _ => [])
    ensures Uploads(tr + [x]) == Uploads(tr) + (if x.Upload? then 1 else 0)
    ensures LoadedAfter(tr + [x], n) == (if x.Upload? then |x.table| else LoadedAfter(tr, n))
    ensures KeysWithin(tr + [x], n) <==> KeysWithin(tr, n) && (x.Key? ==> x.code < LoadedAfter(tr, n))
  {
    assert (tr + [x])[..|tr|] == tr;
  }

  lemma {:induction false} PressesAppend(a: seq<Action>, b: seq<Action>)
    ensures Presses(a + b) == Presses(a) + Presses(b)
    decreases |b|
  {
    if b == [] {
      assert a + b == a;
    } else {
      var init, last := b[..|b| - 1], b[|b| - 1];
      assert a + b == (a + init) + [last];
      PressesAppend(a, init);
    }
  }

  lemma {:induction false} UploadsAppend(a: seq<Action>, b: seq<Action>)
    ensures Uploads(a + b) == Uploads(a) + Uploads(b)
    decreases |b|
  {
    if b == [] {
      assert a + b == a;
    } else {
      var init, last := b[..|b| - 1], b[|b| - 1];
      assert a + b == (a + init) + [last];
      UploadsAppend(a, init);
    }
  }

  /** What the compositor holds after `a + b` and whether `a + b` stays within it, from the parts. */
  lemma {:induction false} KeysWithinAppend(a: seq<Action>, b: seq<Action>, n: nat)
    ensures LoadedAfter(a + b, n) == LoadedAfter(b, LoadedAfter(a, n))
    ensures KeysWithin(a + b, n) <==> KeysWithin(a, n) && KeysWithin(b, LoadedAfter(a, n))
    decreases |b|
  {
    if b == [] {
      assert a + b == a;
    } else {
      var init, last := b[..|b| - 1], b[|b| - 1];
      assert (a + b)[..|a + b| - 1] == a + init && (a + b)[|a + b| - 1] == last;
      KeysWithinAppend(a, init, n);
    }
  }

  /** One key typed: pressed once, nothing uploaded, within any table holding it. */
  lemma TypeKeyFacts(c: nat, n: nat)
    ensures Presses(TypeKey(c)) == [c]
    ensures Uploads(TypeKey(c)) == 0
    ensures LoadedAfter(TypeKey(c), n) == n
    ensures KeysWithin(TypeKey(c), n) <==> c < n
  {
    var t1: seq<Action> := [Key(c, Pressed)];
    var t2 := t1 + [Roundtrip];
    var t3 := t2 + [Pause(2000)];
    var t4 := t3 + [Key(c, Released)];
    var t5 := t4 + [Roundtrip];
    var t6 := t5 + [Pause(2000)];
    assert t1 == [] + [Key(c, Pressed)];
    Snoc([], Key(c, Pressed), n);
    Snoc(t1, Roundtrip, n);
    Snoc(t2, Pause(2000), n);
    Snoc(t3, Key(c, Released), n);
    Snoc(t4, Roundtrip, n);
    Snoc(t5, Pause(2000), n);
    assert t6 == TypeKey(c);
  }

  /** Typing codes presses exactly those codes, uploads nothing, and stays within a table holding them. */
  lemma {:induction false} TypeAllFacts(cs: seq<nat>, n: nat)
    ensures Presses(TypeAll(cs)) == cs
    ensures Uploads(TypeAll(cs)) == 0
    ensures LoadedAfter(TypeAll(cs), n) == n
    ensures KeysWithin(TypeAll(cs), n) <==> forall k :: 0 <= k < |cs| ==> cs[k] < n
    decreases |cs|
  {
    if cs != [] {
      var init, c := cs[..|cs| - 1], cs[|cs| - 1];
      TypeAllFacts(init, n);
      TypeKeyFacts(c, n);
      PressesAppend(TypeAll(init), TypeKey(c));
      UploadsAppend(TypeAll(init), TypeKey(c));
      KeysWithinAppend(TypeAll(init), TypeKey(c), n);
      assert cs == init + [c];
    }
  }

  /** An upload presses nothing, counts one, and leaves the compositor holding the table. */
  lemma UploadFacts(f: Foreign, t: seq<nat>, n: nat)
    ensures Presses(UploadOf(f, t)) == []
    ensures Uploads(UploadOf(f, t)) == 1
    ensures LoadedAfter(UploadOf(f, t), n) == |t|
    ensures KeysWithin(UploadOf(f, t), n)
  {
    var u := UploadOf(f, t);
    Snoc([], u[0], n);
    assert u == [u[0]] + [u[1]] && [u[0]] == [] + [u[0]];
    Snoc([u[0]], u[1], n);
  }

  /** A flushed batch presses its codes in order. */
  lemma FlushPresses(f: Foreign, s: Session, buf: seq<nat>)
    ensures Presses(Flush(f, s, buf).trace) == Presses(s.trace) + buf
  {
    var u := UploadOf(f, s.table);
    UploadFacts(f, s.table, 0);
    TypeAllFacts(buf, 0);
    PressesAppend(s.trace, u);
    PressesAppend(s.trace + u, TypeAll(buf));
  }

  /** A flushed batch uploads exactly one keymap. */
  lemma FlushUploads(f: Foreign, s: Session, buf: seq<nat>)
    ensures Uploads(Flush(f, s, buf).trace) == Uploads(s.trace) + 1
  {
    var u := UploadOf(f, s.table);
    UploadFacts(f, s.table, 0);
    TypeAllFacts(buf, 0);
    UploadsAppend(s.trace, u);
    UploadsAppend(s.trace + u, TypeAll(buf));
  }

  /**
   * After a flushed batch the compositor holds the current table, and the batch
   * stays within it exactly when every buffered code indexes the table.
   */
  lemma FlushCovered(f: Foreign, s: Session, buf: seq<nat>)
    ensures LoadedAfter(Flush(f, s, buf).trace, 0) == |s.table|
    ensures KeysWithin(Flush(f, s, buf).trace, 0) <==>
      KeysWithin(s.trace, 0) && forall k :: 0 <= k < |buf| ==> buf[k] < |s.table|
  {
    var u := UploadOf(f, s.table);
    UploadFacts(f, s.table, LoadedAfter(s.trace, 0));
    TypeAllFacts(buf, |s.table|);
    KeysWithinAppend(s.trace, u, 0);
    KeysWithinAppend(s.trace + u, TypeAll(buf), 0);
  }

  /**
   * `run_text_stdin` uploads once per full buffer of 100 and once more for a
   * non-empty rest: ceil(L / 100) uploads for L characters read.
   */
  lemma {:induction false} FeedUploads(f: Foreign, s: Session, buf: seq<nat>)
    requires |buf| < Capacity
    ensures Uploads(Feed(f, s, buf).trace) == Uploads(s.trace) + (|buf| + |s.input| + Capacity - 1) / Capacity
    decreases |s.input|
  {
    if s.input == [] {
      if buf != [] {
        FlushUploads(f, s, buf);
      }
    } else {
      var r := Resolve(s.table, s.input[0]);
      var next := s.(table := r.table, input := s.input[1..]);
      var full := buf + [r.code];
      if |full| == Capacity {
        FlushUploads(f, next, full);
        FeedUploads(f, Flush(f, next, full), []);
      } else {
        FeedUploads(f, next, full);
      }
    }
  }

  lemma Regroup(a: seq<nat>, b: seq<nat>, c: nat, r: seq<nat>)
    ensures a + (b + [c]) + r == a + b + ([c] + r)
  {
  }

  /** The session after reading one more character, and the buffer with its code. */
  function ReadOne(s: Session): (Session, seq<nat>)
    requires s.input != []
  {
    var r := Resolve(s.table, s.input[0]);
    (s.(table := r.table, input := s.input[1..]), [r.code])
  }

  lemma FeedStep(f: Foreign, s: Session, buf: seq<nat>)
    requires |buf| < Capacity && s.input != []
    ensures var (next, c) := ReadOne(s);
      Feed(f, s, buf) == (if |buf + c| == Capacity then Feed(f, Flush(f, next, buf + c), []) else Feed(f, next, buf + c))
  {
  }

  /**
   * `run_text_stdin` types the buffered codes and then the code of every
   * character read, in input order, the codes `get_key_code` gives them.
   */
  lemma {:induction false} FeedPresses(f: Foreign, s: Session, buf: seq<nat>)
    requires |buf| < Capacity
    ensures Presses(Feed(f, s, buf).trace) == Presses(s.trace) + buf + ResolveAll(s.table, s.input).codes
    decreases |s.input|
  {
    if s.input == [] {
      if buf != [] {
        FlushPresses(f, s, buf);
      }
    } else {
      var (next, c) := ReadOne(s);
      var full := buf + c;
      FeedStep(f, s, buf);
      var (x, y) := if |full| == Capacity then (Flush(f, next, full), []) else (next, full);
      assert Presses(x.trace) + y == Presses(s.trace) + full && x.table == next.table && x.input == next.input by {
        if |full| == Capacity {
          FlushPresses(f, next, full);
        }
      }
      FeedPresses(f, x, y);
      ResolveAllFront(s.table, s.input);
      assert full == buf + [c[0]];
      Regroup(Presses(s.trace), buf, c[0], ResolveAll(next.table, next.input).codes);
    }
  }

  /** Reading stdin leaves the table as resolving the input does, consumes the input and keeps the modifiers. */
  lemma {:induction false} FeedTable(f: Foreign, s: Session, buf: seq<nat>)
    requires |buf| < Capacity
    ensures Feed(f, s, buf).table == ResolveAll(s.table, s.input).table
    ensures Feed(f, s, buf).input == [] && Feed(f, s, buf).mask == s.mask
    decreases |s.input|
  {
    if s.input != [] {
      var r := Resolve(s.table, s.input[0]);
      var next := s.(table := r.table, input := s.input[1..]);
      var full := buf + [r.code];
      if |full| == Capacity {
        FeedTable(f, Flush(f, next, full), []);
      } else {
        FeedTable(f, next, full);
      }
    }
  }

  /**
   * Every key `run_text_stdin` sends is declared by the keymap uploaded just
   * before its batch, and afterwards the compositor holds at least the table
   * it held before.
   */
  lemma {:induction false} FeedCovered(f: Foreign, s: Session, buf: seq<nat>, m: nat)
    requires |buf| < Capacity
    requires KeysWithin(s.trace, 0) && m <= LoadedAfter(s.trace, 0) && m <= |s.table|
    requires forall k :: 0 <= k < |buf| ==> buf[k] < |s.table|
    ensures KeysWithin(Feed(f, s, buf).trace, 0)
    ensures m <= LoadedAfter(Feed(f, s, buf).trace, 0) && m <= |Feed(f, s, buf).table|
    decreases |s.input|
  {
    if s.input == [] {
      if buf != [] {
        FlushCovered(f, s, buf);
      }
    } else {
      var r := Resolve(s.table, s.input[0]);
      var next := s.(table := r.table, input := s.input[1..]);
      var full := buf + [r.code];
      if |full| == Capacity {
        FlushCovered(f, next, full);
        FeedCovered(f, Flush(f, next, full), [], m);
      } else {
        FeedCovered(f, next, full, m);
      }
    }
  }

  /** The invariant of `run_commands`: keys so far are declared, and the compositor and the table both cover `m` entries. */
  predicate Covered(s: Session, m: nat)
  {
    KeysWithin(s.trace, 0) && m <= LoadedAfter(s.trace, 0) && m <= |s.table|
  }

  /** Sending actions that upload nothing and name only codes below `m` keeps the invariant. */
  lemma {:induction false} SendCovered(s: Session, tail: seq<Action>, m: nat)
    requires Covered(s, m)
    requires forall k :: 0 <= k < |tail| ==> !tail[k].Upload? && (tail[k].Key? ==> tail[k].code < m)
    ensures Covered(s.(trace := s.trace + tail), m)
    decreases |tail|
  {
    if tail == [] {
      assert s.trace + tail == s.trace;
    } else {
      var init, last := tail[..|tail| - 1], tail[|tail| - 1];
      SendCovered(s, init, m);
      Snoc(s.trace + init, last, 0);
      assert s.trace + tail == (s.trace + init) + [last];
    }
  }

  lemma RunCommandCovered(f: Foreign, s: Session, c: Command, m: nat)
    requires Covered(s, m) && CodesWithin(c, m)
    ensures Covered(RunCommand(f, s, c), m)
  {
    match c
    case Text(codes) =>
      TypeAllFacts(codes, LoadedAfter(s.trace, 0));
      KeysWithinAppend(s.trace, TypeAll(codes), 0);
    case TextStdin =>
      FeedCovered(f, s, [], m);
    case KeyPress(code) =>
      SendCovered(s, [Key(code, Pressed), Roundtrip], m);
    case KeyRelease(code) =>
      SendCovered(s, [Key(code, Released), Roundtrip], m);
    case ModPress(n) =>
      var mask := Press(s.mask, n);
      SendCovered(s, [Modifiers(Depressed(mask), Locked(mask))], m);
    case ModRelease(n) =>
      var mask := Release(s.mask, n);
      SendCovered(s, [Modifiers(Depressed(mask), Locked(mask))], m);
    case Sleep(ms) =>
      SendCovered(s, [Pause(SleepMicros(ms))], m);
  }

  lemma {:induction false} RunAllCovered(f: Foreign, s: Session, cs: seq<Command>, m: nat)
    requires Covered(s, m)
    requires forall k :: 0 <= k < |cs| ==> CodesWithin(cs[k], m)
    ensures Covered(RunAll(f, s, cs), m)
    decreases |cs|
  {
    if cs != [] {
      RunAllCovered(f, s, cs[..|cs| - 1], m);
      RunCommandCovered(f, RunAll(f, s, cs[..|cs| - 1]), cs[|cs| - 1], m);
    }
  }

  /**
   * The keymap is uploaded before any key is sent, and every key event names
   * a code declared by the keymap uploaded last before it: the compositor
   * never receives a key it has no symbol for.
   */
  lemma ExecuteCovered(f: Foreign, argv: seq<string>, input: seq<nat>)
    ensures Execute(f, argv, input).Ok? ==> KeysWithin(Execute(f, argv, input).value.trace, 0)
  {
    if |argv| >= 2 && Parse(f, argv).Ok? {
      var p := Parse(f, argv).value;
      ParseBound(f, argv);
      var s := Session(p.table, 0, input, UploadOf(f, p.table));
      UploadFacts(f, p.table, 0);
      RunAllCovered(f, s, p.commands, |p.table|);
    }
  }

  /** Fewer than two arguments is a usage error; a parse failure is reported before anything is sent. */
  lemma ExecuteFailures(f: Foreign, argv: seq<string>, input: seq<nat>)
    ensures |argv| < 2 ==> Execute(f, argv, input) == Err(Usage)
    ensures |argv| >= 2 && Parse(f, argv).Err? ==> Execute(f, argv, input) == Err(Parse(f, argv).error)
    ensures Execute(f, argv, input).Ok? ==> |argv| >= 2 && Parse(f, argv).Ok?
  {
  }

  /**
   * A modifier command reports the new `mod_status` split in two: CapsLock as
   * locked, the rest as depressed; together they are the whole mask.
   */
  lemma ModifierReport(f: Foreign, s: Session, m: Mod, press: bool)
    ensures var after := RunCommand(f, s, if press then ModPress(m) else ModRelease(m));
      && after.mask == (if press then Press(s.mask, m) else Release(s.mask, m))
      && after.trace == s.trace + [Modifiers(Depressed(after.mask), Locked(after.mask))]
      && Depressed(after.mask) | Locked(after.mask) == after.mask
      && Depressed(after.mask) & Locked(after.mask) == 0
      && after.table == s.table && after.input == s.input
  {
  }
}
