/**
 * The XKB text keymap (format XKB_V1) that `upload_keymap` writes from the
 * symbol table: a keycodes section declaring `<Ki> = i+8` for every entry,
 * empty types and compatibility sections, a symbols section binding every
 * `<Ki>` to the keysym named for entry i, and one trailing NUL byte that is
 * counted in the size handed to the compositor.
 */
module Keymap {

  /** Digits of `%ld` and of `%x` (lower case). */
  function Digit(d: nat): char
    requires d < 16
  {
    if d < 10 then ('0' as int + d) as char else ('a' as int + d - 10) as char
  }

  predicate IsDigit(c: char, base: nat)
  {
    ('0' <= c <= '9' && c as int - '0' as int < base) || ('a' <= c <= 'f' && c as int - 'a' as int + 10 < base)
  }

  function DigitValue(c: char): nat
  {
    if '0' <= c <= '9' then c as int - '0' as int
    else if 'a' <= c <= 'f' then c as int - 'a' as int + 10
    else 0
  }

  lemma DivStep(n: nat, base: nat)
    requires 2 <= base <= n
    ensures n / base < n && n % base < base && (n / base) * base + n % base == n
  {
  }

  /** `n` written in `base` without leading zeros, as `printf` writes it. */
  function Numeral(n: nat, base: nat): (s: string)
    requires 2 <= base <= 16
    ensures |s| >= 1
    ensures forall k :: 0 <= k < |s| ==> IsDigit(s[k], base)
    decreases n
  {
    if n < base then [Digit(n)] else DivStep(n, base); Numeral(n / base, base) + [Digit(n % base)]
  }

  /** The number a string of digits denotes. */
  function Value(s: string, base: nat): nat
  {
    if s == [] then 0 else Value(s[..|s| - 1], base) * base + DigitValue(s[|s| - 1])
  }

  /** `%ld` */
  function Dec(n: nat): string
  {
    Numeral(n, 10)
  }

  /** `%04x`: lower-case hexadecimal, padded with zeros to at least four digits. */
  function Hex4(n: nat): (s: string)
    ensures |s| >= 4 && forall k :: 0 <= k < |s| ==> IsDigit(s[k], 16)
  {
    var h := Numeral(n, 16);
    if |h| < 4 then seq(4 - |h|, _ => '0') + h else h
  }

  lemma {:induction false} NumeralRoundTrip(n: nat, base: nat)
    requires 2 <= base <= 16
    ensures Value(Numeral(n, base), base) == n
    decreases n
  {
    if n >= base {
      DivStep(n, base);
      var q, d := n / base, n % base;
      var p := Numeral(q, base);
      assert Numeral(n, base) == p + [Digit(d)];
      ValueSnoc(p, Digit(d), base);
      DigitRoundTrip(d);
      NumeralRoundTrip(q, base);
    } else {
      DigitRoundTrip(n);
    }
  }

  lemma ValueSnoc(p: string, c: char, base: nat)
    ensures Value(p + [c], base) == Value(p, base) * base + DigitValue(c)
  {
    assert (p + [c])[..|p|] == p;
  }

  lemma DigitRoundTrip(d: nat)
    requires d < 16
    ensures DigitValue(Digit(d)) == d
  {
  }

  /** Leading zeros do not change the value. */
  lemma {:induction false} LeadingZeros(z: string, s: string, base: nat)
    requires forall k :: 0 <= k < |z| ==> z[k] == '0'
    ensures Value(z + s, base) == Value(s, base)
    decreases |s| + |z|
  {
    if s == [] {
      assert z + s == z;
      if z != [] {
        LeadingZeros(z[..|z| - 1], [], base);
        assert z[..|z| - 1] + [] == z[..|z| - 1];
      }
    } else {
      assert (z + s)[..|z + s| - 1] == z + s[..|s| - 1];
      LeadingZeros(z, s[..|s| - 1], base);
    }
  }

  /** Distinct numbers have distinct decimal spellings. */
  lemma DecInjective(a: nat, b: nat)
    requires Dec(a) == Dec(b)
    ensures a == b
  {
    NumeralRoundTrip(a, 10);
    NumeralRoundTrip(b, 10);
  }

  /** The escape `U%04x` spells the entry in at least four hex digits that read back to it. */
  lemma Hex4RoundTrip(n: nat)
    ensures |Hex4(n)| >= 4
    ensures forall k :: 0 <= k < |Hex4(n)| ==> IsDigit(Hex4(n)[k], 16)
    ensures Value(Hex4(n), 16) == n
  {
    var h := Numeral(n, 16);
    NumeralRoundTrip(n, 16);
    if |h| < 4 {
      LeadingZeros(seq(4 - |h|, _ => '0'), h, 16);
    }
  }

  /**
   * A decimal number followed by a non-digit, read from the front of `s`:
   * there is only one way to do it.
   */
  lemma DecDelimited(a: nat, b: nat, s: string)
    requires |Dec(a)| < |s| && s[..|Dec(a)|] == Dec(a) && !IsDigit(s[|Dec(a)|], 10)
    requires |Dec(b)| < |s| && s[..|Dec(b)|] == Dec(b) && !IsDigit(s[|Dec(b)|], 10)
    ensures a == b
  {
    if |Dec(a)| == |Dec(b)| {
      DecInjective(a, b);
    }
  }

  /** The C string left in a buffer of `cap` bytes: up to the first NUL, at most `cap` characters. */
  function CString(s: string, cap: nat): (r: string)
    ensures |r| <= cap && |r| <= |s| && r == s[..|r|]
    ensures '\0' !in r
    ensures |r| < |s| && |r| < cap ==> s[|r|] == '\0'
  {
    if s == [] || cap == 0 || s[0] == '\0' then [] else [s[0]] + CString(s[1..], cap - 1)
  }

  /** What `xkb_keysym_get_name` leaves in the 256-byte `sym_name` buffer. */
  function SymName(name: nat -> string, ks: nat): (s: string)
    ensures |s| <= 255 && '\0' !in s
  {
    CString(name(ks), 255)
  }

  /** A keysym name of the form "0x...": libxkbcommon's spelling of a keysym it has no name for. */
  predicate IsNumericName(s: string)
  {
    |s| >= 2 && s[0] == '0' && s[1] == 'x'
  }

  /** The symbol bound to an entry: its keysym name, or `U%04x` of the entry for a numeric name. */
  function Binding(name: nat -> string, ks: nat): (r: string)
    ensures IsNumericName(SymName(name, ks)) ==> r == "U" + Hex4(ks)
    ensures !IsNumericName(SymName(name, ks)) ==> r == SymName(name, ks)
    ensures '\0' !in r
  {
    var sym := SymName(name, ks);
    if IsNumericName(sym) then
      Hex4RoundTrip(ks);
      "U" + Hex4(ks)
    else sym
  }

  /** `lead` followed by the number `i` and a closing '>', as in `<K12>`. */
  function Tagged(lead: string, i: nat): string
  {
    lead + Dec(i) + ">"
  }

  predicate StartsWith(line: string, p: string)
  {
    |p| <= |line| && line[..|p|] == p
  }

  /** `<Ki> = i+8;` */
  function KeycodeLine(i: nat): string
  {
    Tagged("<K", i) + " = " + Dec(i + 8) + ";\n"
  }

  function SymbolPrefix(i: nat): string
  {
    Tagged("key <K", i) + " {["
  }

  function SymbolLine(i: nat, sym: string): string
  {
    SymbolPrefix(i) + sym + "]};\n"
  }

  /** `line` is a `key <Ki> {[...]}` binding of key i. */
  predicate BindsKey(line: string, i: nat)
  {
    StartsWith(line, SymbolPrefix(i))
  }

  function MaximumLine(n: nat): string
  {
    "maximum = " + Dec(n + 8) + ";\n"
  }

  const KeymapOpen := "xkb_keymap {\n"
  const KeycodesOpen := "xkb_keycodes \"(unnamed)\" {\n"
  const MinimumLine := "minimum = 8;\n"
  const SectionClose := "};\n"
  const TypesSection := "xkb_types \"(unnamed)\" {};\n"
  const CompatSection := "xkb_compatibility \"(unnamed)\" {};\n"
  const SymbolsOpen := "xkb_symbols \"(unnamed)\" {\n"

  /** Line `j` of the keymap document for table `t`. */
  function LineAt(t: seq<nat>, name: nat -> string, j: nat): string
    requires j < 2 * |t| + 10
  {
    var n := |t|;
    if j == 0 then KeymapOpen
    else if j == 1 then KeycodesOpen
    else if j == 2 then MinimumLine
    else if j == 3 then MaximumLine(n)
    else if j < n + 4 then KeycodeLine(j - 4)
    else if j == n + 4 then SectionClose
    else if j == n + 5 then TypesSection
    else if j == n + 6 then CompatSection
    else if j == n + 7 then SymbolsOpen
    else if j < 2 * n + 8 then SymbolLine(j - n - 8, Binding(name, t[j - n - 8]))
    else SectionClose
  }

  /** The keymap document for table `t`, line by line. */
  function Lines(t: seq<nat>, name: nat -> string): (ls: seq<string>)
    ensures |ls| == 2 * |t| + 10
  {
    seq(2 * |t| + 10, j requires 0 <= j < 2 * |t| + 10 => LineAt(t, name, j))
  }

  /** The fixed lines of the document: `minimum = 8` and `maximum = n + 8` for n entries. */
  predicate FixedLayout(ls: seq<string>, n: nat)
  {
    && |ls| == 2 * n + 10
    && ls[0] == KeymapOpen && ls[1] == KeycodesOpen && ls[2] == MinimumLine && ls[3] == MaximumLine(n)
    && ls[n + 4] == SectionClose && ls[n + 5] == TypesSection && ls[n + 6] == CompatSection
    && ls[n + 7] == SymbolsOpen && ls[2 * n + 8] == SectionClose && ls[2 * n + 9] == SectionClose
  }

  lemma OpeningLayout(t: seq<nat>, name: nat -> string)
    ensures FixedLayout(Lines(t, name), |t|)
  {
  }

  /** Line 4 + i declares `<Ki>` as keycode i + 8; line n + 8 + i binds it to entry i's symbol. */
  lemma EntryLayout(t: seq<nat>, name: nat -> string, i: nat)
    requires i < |t|
    ensures Lines(t, name)[4 + i] == KeycodeLine(i)
    ensures Lines(t, name)[|t| + 8 + i] == SymbolLine(i, Binding(name, t[i]))
  {
  }

  /** The first `k` of the lines `ls`, joined: what the stream holds after writing them. */
  function Join(ls: seq<string>, k: nat): string
    requires k <= |ls|
  {
    if k == 0 then [] else Join(ls, k - 1) + ls[k - 1]
  }

  /** The whole document, NUL byte included: its length is the size handed over. */
  function KeymapText(t: seq<nat>, name: nat -> string): (text: string)
    ensures |text| >= 1 && text[|text| - 1] == '\0'
  {
    Join(Lines(t, name), 2 * |t| + 10) + "\0"
  }

  lemma DecNoNul(n: nat)
    ensures '\0' !in Dec(n)
  {
  }

  lemma OpeningLinesNoNul()
    ensures '\0' !in KeymapOpen && '\0' !in KeycodesOpen && '\0' !in MinimumLine && '\0' !in SectionClose
  {
  }

  lemma SectionLinesNoNul()
    ensures '\0' !in TypesSection && '\0' !in CompatSection && '\0' !in SymbolsOpen
  {
  }

  lemma LineNoNul(t: seq<nat>, name: nat -> string, j: nat)
    requires j < 2 * |t| + 10
    ensures '\0' !in LineAt(t, name, j)
  {
    var n := |t|;
    OpeningLinesNoNul();
    SectionLinesNoNul();
    if j == 3 {
      DecNoNul(n + 8);
    } else if 4 <= j < n + 4 {
      DecNoNul(j - 4);
      DecNoNul(j - 4 + 8);
    } else if n + 8 <= j < 2 * n + 8 {
      DecNoNul(j - n - 8);
    }
  }

  lemma {:induction false} JoinedNoNul(t: seq<nat>, name: nat -> string, k: nat)
    requires k <= 2 * |t| + 10
    ensures '\0' !in Join(Lines(t, name), k)
  {
    if k > 0 {
      JoinedNoNul(t, name, k - 1);
      LineNoNul(t, name, k - 1);
    }
  }

  /** The document ends in its only NUL byte. */
  lemma KeymapTerminated(t: seq<nat>, name: nat -> string)
    ensures |KeymapText(t, name)| >= 1
    ensures KeymapText(t, name)[|KeymapText(t, name)| - 1] == '\0'
    ensures '\0' !in KeymapText(t, name)[..|KeymapText(t, name)| - 1]
  {
    var text := KeymapText(t, name);
    JoinedNoNul(t, name, 2 * |t| + 10);
    assert text[..|text| - 1] == Join(Lines(t, name), 2 * |t| + 10);
  }

  /** Only keycode declarations start with '<', and only symbol bindings with 'k'. */
  lemma FirstCharacters(t: seq<nat>, name: nat -> string, j: nat)
    requires j < 2 * |t| + 10
    ensures |LineAt(t, name, j)| > 0
    ensures LineAt(t, name, j)[0] == '<' <==> 4 <= j < |t| + 4
    ensures LineAt(t, name, j)[0] == 'k' <==> |t| + 8 <= j < 2 * |t| + 8
  {
    var n, line := |t|, LineAt(t, name, j);
    if j < 3 {
      assert line[0] == 'x' || line[0] == 'm';
    } else if j == 3 {
      assert line[0] == 'm';
    } else if j < n + 4 {
      assert line[0] == '<';
    } else if j < n + 8 {
      assert line[0] == '}' || line[0] == 'x';
    } else if j < 2 * n + 8 {
      assert line[0] == 'k';
    } else {
      assert line[0] == '}';
    }
  }

  /** Two tags with the same lead at the front of one line carry the same number. */
  lemma TagDelimited(lead: string, a: nat, b: nat, line: string)
    requires StartsWith(line, Tagged(lead, a)) && StartsWith(line, Tagged(lead, b))
    ensures a == b
  {
    var s := line[|lead|..];
    var pa, pb := Tagged(lead, a), Tagged(lead, b);
    assert s[..|Dec(a)|] == pa[|lead|..|lead| + |Dec(a)|] == Dec(a);
    assert s[|Dec(a)|] == pa[|lead| + |Dec(a)|] == '>';
    assert s[..|Dec(b)|] == pb[|lead|..|lead| + |Dec(b)|] == Dec(b);
    assert s[|Dec(b)|] == pb[|lead| + |Dec(b)|] == '>';
    DecDelimited(a, b, s);
  }

  lemma StartsWithPrefix(p: string, q: string)
    ensures StartsWith(p + q, p)
  {
    assert (p + q)[..|p|] == p;
  }

  /** The number of a keycode declaration can be read back from the line. */
  lemma KeycodeLineInjective(a: nat, b: nat)
    requires KeycodeLine(a) == KeycodeLine(b)
    ensures a == b
  {
    KeycodeLineTagged(a);
    KeycodeLineTagged(b);
    TagDelimited("<K", a, b, KeycodeLine(a));
  }

  lemma KeycodeLineTagged(i: nat)
    ensures StartsWith(KeycodeLine(i), Tagged("<K", i))
  {
    StartsWithPrefix(Tagged("<K", i), " = " + Dec(i + 8) + ";\n");
    assert KeycodeLine(i) == Tagged("<K", i) + (" = " + Dec(i + 8) + ";\n");
  }

  /** The key number of a binding can be read back from the line, whatever symbol it binds. */
  lemma SymbolLineNumbered(a: nat, sym: string, i: nat)
    requires BindsKey(SymbolLine(a, sym), i)
    ensures a == i
  {
    var line := SymbolLine(a, sym);
    assert line == Tagged("key <K", a) + (" {[" + sym + "]};\n");
    StartsWithPrefix(Tagged("key <K", a), " {[" + sym + "]};\n");
    assert SymbolPrefix(i) == Tagged("key <K", i) + " {[";
    StartsWithPrefix(Tagged("key <K", i), " {[");
    assert StartsWith(line, Tagged("key <K", i));
    TagDelimited("key <K", a, i, line);
  }

  /**
   * Exactly one line of the keycodes section declares `<Ki> = i+8`, and it is
   * line 4 + i. Like `SymbolBoundOnce`, this is about the sequence of lines
   * the keymap is written as; the joined text splits into the same lines only
   * when no keysym name contains a newline, which `keysymName` does not rule
   * out.
   */
  lemma KeycodeDeclaredOnce(t: seq<nat>, name: nat -> string, i: nat, j: nat)
    requires i < |t| && j < 2 * |t| + 10
    ensures Lines(t, name)[j] == KeycodeLine(i) <==> j == 4 + i
  {
    var line := LineAt(t, name, j);
    assert Lines(t, name)[j] == line;
    if line == KeycodeLine(i) {
      FirstCharacters(t, name, j);
      assert KeycodeLine(i)[0] == '<';
      assert line == KeycodeLine(j - 4);
      KeycodeLineInjective(j - 4, i);
    }
  }

  /**
   * Exactly one line binds `<Ki>` to a symbol, and it is line |t| + 8 + i;
   * read on the joined text, this assumes keysym names without a newline.
   */
  lemma SymbolBoundOnce(t: seq<nat>, name: nat -> string, i: nat, j: nat)
    requires i < |t| && j < 2 * |t| + 10
    ensures BindsKey(Lines(t, name)[j], i) <==> j == |t| + 8 + i
  {
    var line := LineAt(t, name, j);
    assert Lines(t, name)[j] == line;
    var p := SymbolPrefix(i);
    if j == |t| + 8 + i {
      assert line == p + (Binding(name, t[i]) + "]};\n");
      StartsWithPrefix(p, Binding(name, t[i]) + "]};\n");
    } else if BindsKey(line, i) {
      FirstCharacters(t, name, j);
      assert line[0] == p[0] == 'k';
      var a := j - |t| - 8;
      assert line == SymbolLine(a, Binding(name, t[a]));
      SymbolLineNumbered(a, Binding(name, t[a]), i);
    }
  }

  /** The keycode declarations, `<Ki> = i+8;` for each entry in index order. */
  method WriteKeycodes(t: seq<nat>, ghost ls: seq<string>, prefix: string) returns (document: string)
    requires |ls| == 2 * |t| + 10
    requires forall i :: 0 <= i < |t| ==> ls[4 + i] == KeycodeLine(i)
    requires prefix == Join(ls, 4)
    ensures document == Join(ls, |t| + 4)
  {
    document := prefix;
    for i := 0 to |t|
      invariant document == Join(ls, 4 + i)
    {
      document := document + KeycodeLine(i);
    }
  }

  /** The symbol bindings, `key <Ki> {[sym]};` for each entry in index order. */
  method WriteSymbols(t: seq<nat>, name: nat -> string, ghost ls: seq<string>, prefix: string)
    returns (document: string)
    requires |ls| == 2 * |t| + 10
    requires forall i :: 0 <= i < |t| ==> ls[|t| + 8 + i] == SymbolLine(i, Binding(name, t[i]))
    requires prefix == Join(ls, |t| + 8)
    ensures document == Join(ls, 2 * |t| + 8)
  {
    document := prefix;
    for i := 0 to |t|
      invariant document == Join(ls, |t| + 8 + i)
    {
      var sym := SymName(name, t[i]);
      var bound;
      if |sym| >= 2 && sym[0] == '0' && sym[1] == 'x' {
        bound := "U" + Hex4(t[i]);
      } else {
        bound := sym;
      }
      document := document + SymbolLine(i, bound);
    }
  }

  /** Appends `line`, the line `ls[k]`, to the first `k` lines of `ls`. */
  method WriteLine(ghost ls: seq<string>, k: nat, prefix: string, line: string) returns (document: string)
    requires k < |ls| && ls[k] == line
    requires prefix == Join(ls, k)
    ensures document == Join(ls, k + 1)
  {
    document := prefix + line;
  }

  /** Writes the lines `ls`, given what each of them is. */
  method WriteLines(t: seq<nat>, name: nat -> string, ghost ls: seq<string>) returns (document: string)
    requires FixedLayout(ls, |t|)
    requires forall i :: 0 <= i < |t| ==> ls[4 + i] == KeycodeLine(i)
    requires forall i :: 0 <= i < |t| ==> ls[|t| + 8 + i] == SymbolLine(i, Binding(name, t[i]))
    ensures document == Join(ls, |ls|)
  {
    var n := |t|;
    document := WriteLine(ls, 0, [], KeymapOpen);
    document := WriteLine(ls, 1, document, KeycodesOpen);
    document := WriteLine(ls, 2, document, MinimumLine);
    document := WriteLine(ls, 3, document, MaximumLine(n));
    document := WriteKeycodes(t, ls, document);
    document := WriteLine(ls, n + 4, document, SectionClose);
    document := WriteLine(ls, n + 5, document, TypesSection);
    document := WriteLine(ls, n + 6, document, CompatSection);
    document := WriteLine(ls, n + 7, document, SymbolsOpen);
    document := WriteSymbols(t, name, ls, document);
    document := WriteLine(ls, 2 * n + 8, document, SectionClose);
    document := WriteLine(ls, 2 * n + 9, document, SectionClose);
  }

  /** `upload_keymap`'s `fprintf` sequence, writing the document into a growing buffer. */
  method WriteKeymap(t: seq<nat>, name: nat -> string) returns (document: string)
    ensures document == KeymapText(t, name)
  {
    ghost var ls := Lines(t, name);
    OpeningLayout(t, name);
    forall i | 0 <= i < |t|
      ensures ls[4 + i] == KeycodeLine(i) && ls[|t| + 8 + i] == SymbolLine(i, Binding(name, t[i]))
    {
      EntryLayout(t, name, i);
    }
    document := WriteLines(t, name, ls);
    document := document + "\0";
  }
}
