/**
 * Modifiers: the `wtype_mod` flags, the `mod_names` table with its
 * case-insensitive lookup `name_to_mod`, and the bit operations `run_mod`
 * performs on `mod_status` before splitting it into the depressed and the
 * locked masks.
 */
module Mods {

  datatype Mod = ModNone | Shift | CapsLock | Ctrl | Logo | AltGr

  /** The value of each `wtype_mod` enumerator. */
  function Flag(m: Mod): bv32
  {
    match m
    case ModNone => 0
    case Shift => 1
    case CapsLock => 2
    case Ctrl => 4
    case Logo => 64
    case AltGr => 128
  }

  /** The `mod_names` table, in its declared order. */
  const ModNames: seq<(string, Mod)> :=
    [("shift", Shift), ("capslock", CapsLock), ("ctrl", Ctrl),
     ("logo", Logo), ("alt", AltGr), ("altgr", AltGr)]

  /** ASCII lower-casing, as `strcasecmp` compares in the C locale. */
  function Lower(c: char): char
  {
    if 'A' <= c <= 'Z' then (c as int + 32) as char else c
  }

  /** `strcasecmp(a, b) == 0`. */
  predicate EqualsIgnoreCase(a: string, b: string)
  {
    |a| == |b| && forall k :: 0 <= k < |a| ==> Lower(a[k]) == Lower(b[k])
  }

  /** The modifier of the first table entry from `i` on whose name matches. */
  function ModFrom(name: string, i: nat): (r: Mod)
    requires i <= |ModNames|
    ensures r == ModNone <==> forall k :: i <= k < |ModNames| ==> !EqualsIgnoreCase(ModNames[k].0, name)
    ensures r != ModNone ==>
      exists k :: i <= k < |ModNames| && EqualsIgnoreCase(ModNames[k].0, name) && ModNames[k].1 == r
    decreases |ModNames| - i
  {
    if i == |ModNames| then ModNone
    else if EqualsIgnoreCase(ModNames[i].0, name) then ModNames[i].1
    else ModFrom(name, i + 1)
  }

  /** What `name_to_mod` returns: `ModNone` for a name no entry matches. */
  function ModFor(name: string): (r: Mod)
    ensures r == ModNone <==> forall k :: 0 <= k < |ModNames| ==> !EqualsIgnoreCase(ModNames[k].0, name)
  {
    ModFrom(name, 0)
  }

  /** `name_to_mod`: a scan of `mod_names` that stops at the first match. */
  method NameToMod(name: string) returns (m: Mod)
    ensures m == ModFor(name)
    ensures m == ModNone <==> forall k :: 0 <= k < |ModNames| ==> !EqualsIgnoreCase(ModNames[k].0, name)
  {
    var i := 0;
    while i < |ModNames|
      invariant 0 <= i <= |ModNames|
      invariant ModFor(name) == ModFrom(name, i)
    {
      if EqualsIgnoreCase(ModNames[i].0, name) {
        return ModNames[i].1;
      }
      i := i + 1;
    }
    m := ModNone;
  }

  /** Case does not matter: names equal up to case select the same modifier. */
  lemma {:induction false} ModFromIgnoresCase(a: string, b: string, i: nat)
    requires i <= |ModNames|
    requires EqualsIgnoreCase(a, b)
    ensures ModFrom(a, i) == ModFrom(b, i)
    decreases |ModNames| - i
  {
    if i < |ModNames| {
      assert EqualsIgnoreCase(ModNames[i].0, a) <==> EqualsIgnoreCase(ModNames[i].0, b);
      ModFromIgnoresCase(a, b, i + 1);
    }
  }

  lemma ModForIgnoresCase(a: string, b: string)
    requires EqualsIgnoreCase(a, b)
    ensures ModFor(a) == ModFor(b)
  {
    ModFromIgnoresCase(a, b, 0);
  }

  /** "alt" and "altgr", in any case, both select AltGr. */
  lemma AltNamesSelectAltGr(name: string)
    requires EqualsIgnoreCase(name, "alt") || EqualsIgnoreCase(name, "altgr")
    ensures ModFor(name) == AltGr
  {
    if EqualsIgnoreCase(name, "alt") {
      ModForIgnoresCase(name, "alt");
    } else {
      ModForIgnoresCase(name, "altgr");
      assert !EqualsIgnoreCase("shift", "altgr") by { assert Lower("shift"[0]) != Lower("altgr"[0]); }
    }
  }

  /** `mod_status |= mod`: sets the flag, every other bit unchanged. */
  function Press(mask: bv32, m: Mod): (r: bv32)
    ensures r & Flag(m) == Flag(m)
    ensures r & !Flag(m) == mask & !Flag(m)
  {
    mask | Flag(m)
  }

  /** `mod_status &= ~mod`: clears the flag, every other bit unchanged. */
  function Release(mask: bv32, m: Mod): (r: bv32)
    ensures r & Flag(m) == 0
    ensures r & !Flag(m) == mask & !Flag(m)
  {
    mask & !Flag(m)
  }

  /** The locked mask sent: CapsLock alone. */
  function Locked(mask: bv32): (r: bv32)
    ensures r == 0 || r == Flag(CapsLock)
    ensures r == Flag(CapsLock) <==> mask & Flag(CapsLock) != 0
  {
    mask & Flag(CapsLock)
  }

  /** The depressed mask sent: everything but CapsLock; with `Locked` it rebuilds the mask. */
  function Depressed(mask: bv32): (r: bv32)
    ensures r & Flag(CapsLock) == 0
    ensures r | Locked(mask) == mask
  {
    mask & !Flag(CapsLock)
  }

  /** Pressing a modifier that was up and releasing it again restores the mask. */
  lemma PressThenRelease(mask: bv32, m: Mod)
    requires mask & Flag(m) == 0
    ensures Release(Press(mask, m), m) == mask
  {
  }
}
