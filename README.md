# wtype, modelled in Dafny

wtype types text into a Wayland session through the virtual-keyboard
protocol. All of its logic is in `main.c`:

- `parse_args` compiles the command line into a list of commands: literal
  text, modifier press and release, key press and release, sleeps, and
  text read from standard input.
- Every character or keysym the commands name goes into one growing
  symbol table (`get_key_code`). An entry's position is its key code.
- The commands are then replayed as key and modifier events.
- Before any key is sent, the compositor receives an XKB text keymap
  generated from the table (`upload_keymap`).
- Text from standard input is read in batches of 100 characters. Each
  batch gets a fresh keymap upload before it is typed.

The model has six files, one module each:

| file | module | what it holds |
|---|---|---|
| `symbols.dfy` | `Symbols` | The table and get-or-append lookup, as functions on sequences, with the facts about them. |
| `mods.dfy` | `Mods` | The `wtype_mod` flags, the `mod_names` lookup `name_to_mod`, and the mask operations of `run_mod`. |
| `keymap.dfy` | `Keymap` | The keymap document as a function of the table, its layout and numbering lemmas, and `WriteKeymap`, which writes it line by line. |
| `commands.dfy` | `Commands` | The commands, the failures and one turn of the `parse_args` loop (`Step`); the whole loop is `ParseFrom`/`Parse`. |
| `engine.dfy` | `Engine` | What the program sends, as a trace of actions, with each `run_*` handler, `run_commands` and `main` as functions on a session. |
| `wtype.dfy` | `Wtype` | `struct wtype` as a class whose methods update it in place, each proved against the function of the same step. `RunProgram`, the model of `main`, is proved to equal `Execute`. |

The library calls are given as total functions in a `Foreign` value:

- `mbstowcs` in the user's locale, which may fail;
- `xkb_keysym_from_name`, where 0 is `XKB_KEY_NoSymbol`;
- `xkb_keysym_get_name`;
- `atoi`.

What is sent to the compositor is an appended trace of actions:

- `Upload(table)`: the keymap of that table snapshot is sent. Its
  document is `KeymapText(table, keysymName)`.
- `Key(code, state)`
- `Modifiers(depressed, locked)`
- `Roundtrip` for `wl_display_roundtrip`
- `Pause(us)` for `usleep`

Standard input is a sequence of characters that are already decoded.

Some behaviour of `main.c` a reader might not expect:

- Key codes are 0-based (main.c:138, 145).
- Entry i is declared as `<Ki> = i+8` (main.c:402).
- The keymap has no override table for newline, tab or escape.
- There is no `-d` flag.
- `-s` stores `atoi`'s result in an `unsigned int` and only then rejects
  0 (main.c:189-190). A negative value therefore wraps and is accepted:
  `-s -1` sleeps for 0xFFFFFFFF ms, times 1000 modulo 2^32 µs.
- `run_mod` sends the modifiers without a round trip.
- A lone `-` is the stdin placeholder in raw mode too (main.c:160).
- Keysyms from `-k`/`-P`/`-p` and text characters share one table, keyed
  by the raw value.

## Model

| member | source | states |
|---|---|---|
| Symbols.IndexOf | main.c:136-140 | The search loop finds a position holding `ch`, and no earlier position holds it. |
| Symbols.Resolve | main.c:134-146 | Get-or-append. The returned code indexes `ch`. A value already present leaves the table unchanged and gets its first position. A new value is appended and gets the old length. Earlier entries never move, and a duplicate-free table stays duplicate-free. |
| Symbols.ResolveAll | main.c:240-242 | Definition of the per-character `get_key_code` loop: one code per character. Its properties are in ResolveAllGrows, ResolveAllCodes and ResolveAllFront. |
| Symbols.ResolveAllFront | main.c:240-242 | The codes of a run are the first character's code followed by the codes of the rest against the grown table. |
| Symbols.ResolveAllGrows | main.c:240-242 | Resolving a run of characters only appends to the table, and only characters of the run; it keeps the table duplicate-free. |
| Symbols.ResolveAllCodes | main.c:240-242 | After resolving a run, the k-th code indexes the k-th character. |
| Symbols.ResolveStable | main.c:134-146 | Once a value is in the table, every later lookup, however much the table has grown, returns the same code and appends nothing. |
| Symbols.SameValueSameCode | main.c:134-146 | Within one run, two characters get the same code if and only if they are the same value. |
| Mods.ModFrom | main.c:123-131 | The lookup returns `ModNone` exactly when no entry from position i on matches the name case-insensitively. Otherwise it returns the modifier of a matching entry. |
| Mods.ModFor | main.c:123-131 | Definition of `name_to_mod`'s result: `ModNone` exactly when no entry of `mod_names` matches case-insensitively. Properties in ModFrom and ModForIgnoresCase. |
| Mods.NameToMod | main.c:123-131 | The scan of `mod_names` returns the first case-insensitive match, or `ModNone` exactly when no name matches. |
| Mods.ModFromIgnoresCase | main.c:126 | Names equal up to ASCII case select the same modifier from any starting position. |
| Mods.ModForIgnoresCase | main.c:123-131 | Names equal up to case give `name_to_mod` the same result. |
| Mods.AltNamesSelectAltGr | main.c:113-131 | "alt" and "altgr", in any case, both select AltGr. |
| Mods.Press | main.c:257-258 | OR-ing the flag into `mod_status` sets it and leaves every other bit unchanged. |
| Mods.Release | main.c:259-260 | AND-ing `mod_status` with the complement clears the flag and leaves every other bit unchanged. |
| Mods.Locked | main.c:265 | The locked mask is CapsLock alone: it is non-zero exactly when CapsLock is set. |
| Mods.Depressed | main.c:264 | The depressed mask never holds CapsLock, and together with the locked mask it rebuilds `mod_status`. |
| Mods.PressThenRelease | main.c:255-261 | Pressing a modifier that was up and then releasing it restores the mask. |
| Keymap.Numeral | main.c:398-402 | `%ld`/`%x` digits: a non-empty string of digits of the base. |
| Keymap.NumeralRoundTrip | main.c:398-402 | The printed numeral reads back to the number. |
| Keymap.LeadingZeros | main.c:416 | Zero padding does not change the value read back. |
| Keymap.Dec | main.c:402 | Definition of `%ld` as `Numeral` in base 10. Properties in NumeralRoundTrip and DecInjective. |
| Keymap.Hex4 | main.c:416 | `%04x`: at least four lower-case hex digits. That they read back to the number is Hex4RoundTrip. |
| Keymap.DecInjective | main.c:402 | Distinct numbers print differently. |
| Keymap.Hex4RoundTrip | main.c:416 | `U%04x` spells the entry in at least four hex digits that read back to the entry. |
| Keymap.DecDelimited | main.c:402 | A number followed by a non-digit reads back in only one way. |
| Keymap.CString | main.c:411-412 | What `xkb_keysym_get_name` leaves in the buffer: a NUL-free prefix of the name, at most the buffer's capacity long, cut at the first NUL. |
| Keymap.SymName | main.c:411-412 | What `xkb_keysym_get_name` leaves in `sym_name[256]`: at most 255 characters, with no NUL. |
| Keymap.Binding | main.c:412-419 | An entry whose keysym name starts with "0x" is bound as `U%04x` of the entry; any other entry is bound by its name. The binding has no NUL. |
| Keymap.LineAt | main.c:392-424 | Definition of line j of the document. Properties in OpeningLayout, EntryLayout, FirstCharacters and LineNoNul. |
| Keymap.Lines | main.c:392-424 | The document has 2n+10 lines for n entries. |
| Keymap.KeymapText | main.c:392-427 | The document's text: the lines joined, then the NUL byte, so it ends in NUL. KeymapTerminated proves that NUL is the only one. |
| Keymap.OpeningLayout | main.c:392-424 | For n entries the document has 2n+10 lines: `minimum = 8` on line 2, `maximum = n+8` on line 3, then the section lines at fixed positions around the two entry blocks. |
| Keymap.EntryLayout | main.c:401-421 | Line 4+i declares `<Ki> = i+8`, and line n+8+i binds `<Ki>` to entry i's symbol. |
| Keymap.JoinedNoNul | main.c:392-424 | No line the keymap writes contains a NUL. |
| Keymap.KeymapTerminated | main.c:424-427 | The document ends in a NUL byte, the only one in it, and that byte is counted in its size. |
| Keymap.FirstCharacters | main.c:392-424 | Exactly the keycode declarations start with '<', and exactly the symbol bindings start with 'k'. |
| Keymap.TagDelimited | main.c:402-413 | Two `<K..>` tags at the front of one line carry the same number. |
| Keymap.KeycodeLineInjective | main.c:402 | The number of a keycode declaration can be read back from the line. |
| Keymap.SymbolLineNumbered | main.c:413 | The key number of a binding can be read back from the line, whatever symbol it binds. |
| Keymap.KeycodeDeclaredOnce | main.c:401-403 | Exactly one line declares `<Ki> = i+8`, line 4+i, so entries appear in index order. |
| Keymap.SymbolBoundOnce | main.c:410-421 | Exactly one line binds `<Ki>`, line n+8+i, so bindings appear in index order. |
| Keymap.WriteKeycodes | main.c:401-403 | The declaration loop writes lines 4 to n+3. |
| Keymap.WriteSymbols | main.c:410-421 | The binding loop chooses `U%04x` or the name and writes lines n+8 to 2n+7. |
| Keymap.WriteLines | main.c:392-424 | The writes, in order, produce the whole line sequence. |
| Keymap.WriteKeymap | main.c:392-427 | The `fprintf` sequence and the final `fputc('\0')` produce exactly `KeymapText` of the table. |
| Commands.SleepMillis | main.c:189-190 | `atoi`'s result stored in an `unsigned int`: below 2^32, unchanged on that range, and 0 exactly when the value is a multiple of 2^32. |
| Commands.FlagCommand | main.c:172-213 | A compiled flag only appends to the table, keeps it duplicate-free, never yields the stdin command, and carries codes that index the table. |
| Commands.Spaced | main.c:226-237 | The decoded text gains a leading space exactly when the prefix flag is set; otherwise it is unchanged. |
| Commands.Step | main.c:156-245 | One turn consumes exactly one or two tokens (two for a flag and its value), adds at most one command, keeps earlier commands, and only appends to the table. |
| Commands.ParseFrom | main.c:156-245 | The token loop from token i: on success the table only grows, and earlier commands stay at the front. Further properties in ParseFromInvariant. |
| Commands.Parse | main.c:149-246 | Definition of `parse_args` from an empty state, skipping the program name. Properties in ParseBound. |
| Commands.StdinCount | main.c:160-167 | The number of stdin placeholders is at most the number of commands, and 0 exactly when there is none. |
| Commands.AppendKeepsGood | main.c:157-167 | Storing a command whose codes index the table keeps the parser state good. |
| Commands.StepKeepsGood | main.c:156-245 | Each turn keeps the state good: no duplicate entries, codes within the table, and `use_stdin` set exactly when one `-` was seen. |
| Commands.ParseFromInvariant | main.c:156-245 | Over the rest of the loop the state stays good, the table only grows, and no more commands are added than tokens remain. |
| Commands.ParseBound | main.c:151-245 | A successful parse has at most argc-1 commands, the size `calloc` reserves. Its table is duplicate-free, every code indexes it, and there is at most one stdin placeholder. |
| Commands.TextToken | main.c:217-243 | A text token adds the codes of its characters, after a space code when the prefix flag was set. Its length is the decoded length plus one when prefixed. It sets the flag for the next text token and leaves raw mode alone. |
| Commands.UndecodableToken | main.c:226-233 | A text token `mbstowcs` rejects stops the program. |
| Commands.FlagToken | main.c:168-216 | A flag consumes its value token and adds one command; it fails exactly when the flag's own check fails, and it clears the prefix flag. |
| Commands.FlagWithoutValue | main.c:169-171 | A flag as the last token fails with a missing-argument error. |
| Commands.RawMode | main.c:158-159 | `--` turns raw mode on without a command. In raw mode every token but `-` is text, a second `--` included. |
| Commands.StdinPlaceholder | main.c:160-167 | `-` adds the stdin command, also in raw mode, and leaves the prefix flag alone. A second `-` fails. |
| Commands.ModifierFlags | main.c:172-185 | `-M`/`-m` fail exactly when `name_to_mod` yields `ModNone`; otherwise they press or release that modifier. |
| Commands.SleepFlag | main.c:186-192 | `-s` fails exactly when the value is 0 modulo 2^32; `atoi` giving -1 is accepted as 0xFFFFFFFF ms. |
| Commands.KeyFlags | main.c:193-210 | `-k`/`-P`/`-p` fail exactly on `NoSymbol`; otherwise the keysym is resolved in the shared table and typed, pressed or released. |
| Commands.UnknownFlag | main.c:211-213 | Any other flag fails with an unknown-parameter error. |
| Engine.TypeKey | main.c:281-293 | Definition of `type_keycode`'s six actions. Properties in TypeKeyFacts. |
| Engine.UploadOf | main.c:429-433 | Definition of an upload: the table snapshot, then a round trip. Properties in UploadFacts. |
| Engine.Flush | main.c:335-349 | Definition of a batch: upload, then type the buffered codes. Properties in FlushPresses, FlushUploads and FlushCovered. |
| Engine.Feed | main.c:302-352 | `run_text_stdin` from a point in its loop: it consumes the whole input and leaves the modifiers unchanged. Further properties in FeedAppends, FeedUploads, FeedPresses, FeedTable and FeedCovered. |
| Engine.FeedAppends | main.c:302-352 | Reading stdin only appends to what was sent before. |
| Engine.RunCommand | main.c:249-300 | One handler. Only the stdin handler changes the table or the input, and only the modifier handlers change the mask. Every handler only appends to the trace. |
| Engine.RunAll | main.c:354-368 | `run_commands` only appends to the trace, and leaves the table and input alone when there is no stdin command. |
| Engine.Execute | main.c:439-471 | A successful run had at least two arguments and parsed. Its trace starts with the upload of the parsed table and a round trip, before any key. |
| Engine.TypeAll | main.c:295-300 | Typing n codes sends 6n actions. |
| Engine.SleepMicros | main.c:251 | `sleep_ms * 1000` in `unsigned int`: below 2^32, and the exact product when it fits. |
| Engine.TypeKeyFacts | main.c:281-293 | `type_keycode` presses exactly that code, uploads nothing, and stays within any keymap that declares the code. |
| Engine.TypeAllFacts | main.c:295-300 | `run_text` presses exactly its codes, in order, and uploads nothing. It stays within a keymap exactly when every code is declared. |
| Engine.UploadFacts | main.c:429-433 | An upload presses nothing, counts one, and leaves the compositor holding the table. |
| Engine.FlushPresses | main.c:335-349 | A flushed batch presses its codes in order. |
| Engine.FlushUploads | main.c:335-349 | A flushed batch uploads exactly one keymap. |
| Engine.FlushCovered | main.c:335-349 | After a batch the compositor holds the current table; the batch stays within it exactly when every buffered code indexes the table. |
| Engine.FeedUploads | main.c:302-352 | Reading L characters uploads ceil(L/100) keymaps: one per full buffer and one for a non-empty rest. |
| Engine.FeedPresses | main.c:302-352 | The characters read are typed in input order, each with the code `get_key_code` gives it. |
| Engine.FeedTable | main.c:313-342 | Reading stdin resolves every character into the table, consumes the whole input, and leaves the modifiers alone. |
| Engine.FeedCovered | main.c:332-349 | Every key sent for standard input is declared by the keymap uploaded just before its batch. |
| Engine.SendCovered | main.c:255-279 | Sending actions with no upload and only keys below m keeps the coverage invariant. |
| Engine.RunCommandCovered | main.c:354-368 | Every handler keeps the coverage invariant: each key sent is declared by the last keymap uploaded. |
| Engine.RunAllCovered | main.c:365-367 | `run_commands` keeps the coverage invariant over the whole command list. |
| Engine.ExecuteCovered | main.c:439-471 | The keymap is uploaded before any key, and the compositor never receives a key code its last keymap does not declare. |
| Engine.ExecuteFailures | main.c:441-448 | Fewer than two arguments is a usage error, and a parse failure is reported before anything is sent. |
| Engine.ModifierReport | main.c:255-268 | A modifier command sends the new mask split into depressed (without CapsLock) and locked (CapsLock). The two parts are disjoint and together make the whole mask. |
| Wtype.Wtype.constructor | main.c:445-446 | The zeroed `struct wtype`: empty table, mask 0 and no commands. |
| Wtype.Wtype.GetKeyCode | main.c:134-146 | The search-then-append loop leaves the table and returns the code that `Resolve` specifies. |
| Wtype.Wtype.GetKeyCodes | main.c:240-242 | The per-character loop leaves the table and codes that `ResolveAll` specifies. |
| Wtype.Wtype.FlagOne | main.c:172-213 | The flag branches produce exactly `FlagCommand`'s command, table and failure. |
| Wtype.Wtype.Append | main.c:157-167 | Storing a command at `commands[command_count]` appends it to the compiled list. |
| Wtype.Wtype.FlagBranch | main.c:168-216 | The flag branch performs one `Step` exactly, failure included. |
| Wtype.Wtype.TextBranch | main.c:217-244 | The text branch performs one `Step` exactly, failure included. |
| Wtype.Wtype.ParseOne | main.c:157-245 | One loop turn performs `Step` on the in-place state, with room in the array for the command. |
| Wtype.Wtype.ParseArgs | main.c:149-246 | `parse_args` allocates argc slots and ends with `ParseFrom`'s table and commands, or its first failure. |
| Wtype.Wtype.UploadKeymap | main.c:371-436 | The document written is `KeymapText` of the table; the trace gains the upload and a round trip. |
| Wtype.Wtype.TypeKeycode | main.c:281-293 | The trace gains press, round trip, pause, release, round trip, pause. |
| Wtype.Wtype.RunText | main.c:295-300 | The trace gains `TypeAll` of the codes. |
| Wtype.Wtype.RunSleep | main.c:249-252 | The trace gains a pause of `SleepMicros`. |
| Wtype.Wtype.RunMod | main.c:255-268 | The mask and trace become what `RunCommand` gives for the modifier command. |
| Wtype.Wtype.RunKey | main.c:271-279 | The trace gains the key event and a round trip, as `RunCommand` gives. |
| Wtype.Wtype.FlushBuffer | main.c:335-349 | A batch is flushed as `Flush` gives. |
| Wtype.Wtype.BufferChar | main.c:332-341 | One character read keeps `Feed` of the buffered state equal to `Feed` of the state before it, with the buffer below 100. |
| Wtype.Wtype.RunTextStdin | main.c:302-352 | The buffer loop ends in exactly `Feed` of the starting state with an empty buffer. |
| Wtype.Wtype.Handle | main.c:356-366 | The handler table dispatch performs `RunCommand`. |
| Wtype.Wtype.RunCommands | main.c:354-368 | The loop ends in `RunAll` of the starting state over the compiled commands. |
| Wtype.RunProgram | main.c:439-471 | `main` returns exactly what `Execute` specifies: the usage error, a parse failure, or the session after one upload and all commands. |

## Left out

- The Wayland connection, registry listener, seat and manager binding, and
  the creation and destruction of the virtual keyboard (main.c:85-110,
  450-483) are network plumbing. `Execute` assumes they succeed; their
  failure messages are not modelled.
- `shm_open`, `shm_unlink`, `fdopen`, `ftell` and passing the file
  descriptor (main.c:373-390, 427-435) are I/O. Only the document and its
  length are modelled. The `fd <= 0` check, which also rejects descriptor
  0, is not modelled.
- `wl_display_roundtrip` and `usleep` appear only as `Roundtrip` and
  `Pause` actions. No timing is modelled.
- `setlocale`/`mbstowcs` and the `kbuf` loop are not modelled. That loop
  gathers bytes until they decode, skips NUL characters, and stops after 7
  undecodable bytes (main.c:304-330). Standard input is modelled as the
  sequence of characters that loop yields, and argument decoding as a
  given function that may fail.
- `xkb_keysym_from_name`, `xkb_keysym_get_name` and `atoi` are given
  functions; their internals belong to libxkbcommon and libc.
- Table entries are `nat`, so the width and sign of `wchar_t` are not
  modelled.
- `malloc`, `calloc`, `reallocarray` and `free` are not modelled, and
  neither is allocation failure.
- `fail` and `exit` become a `Failure` result. The message text is not
  modelled.
- `run_text_stdin` uses a local buffer; the reuse of `cmd->key_codes` as
  that buffer is not modelled.
- Wtype.Wtype.UploadKeymap: returns the document it writes rather than
  handing it over as a file descriptor, and records the upload by its
  table snapshot.
