/**
 * The symbol table behind `get_key_code`: one growing list of raw integer
 * values (decoded text characters and keysyms alike) whose positions are the
 * key codes sent to the compositor. Looking a value up is get-or-append.
 */
module Symbols {

  datatype Option<T> = None | Some(value: T)

  /** What `get_key_code` leaves behind: the table and the code it returned. */
  datatype Resolution = Resolution(table: seq<nat>, code: nat)

  /** The table after resolving a whole run of values, with their codes in order. */
  datatype Resolutions = Resolutions(table: seq<nat>, codes: seq<nat>)

  predicate NoDuplicates(t: seq<nat>)
  {
    forall i, j :: 0 <= i < j < |t| ==> t[i] != t[j]
  }

  /** `u` is `t` with zero or more entries appended: earlier entries never move. */
  predicate Extends(t: seq<nat>, u: seq<nat>)
  {
    |t| <= |u| && u[..|t|] == t
  }

  /** The first position holding `ch`. */
  function IndexOf(t: seq<nat>, ch: nat): (r: nat)
    requires ch in t
    ensures r < |t| && t[r] == ch
    ensures forall j :: 0 <= j < r ==> t[j] != ch
  {
    if t[0] == ch then 0 else 1 + IndexOf(t[1..], ch)
  }

  /** Get-or-append: the code of `ch`, appending it when it is new. */
  function Resolve(t: seq<nat>, ch: nat): (r: Resolution)
    ensures r.code < |r.table| && r.table[r.code] == ch
    ensures Extends(t, r.table)
    ensures ch in t ==> r.table == t && forall j :: 0 <= j < r.code ==> t[j] != ch
    ensures ch !in t ==> r.table == t + [ch] && r.code == |t|
    ensures NoDuplicates(t) ==> NoDuplicates(r.table)
  {
    if ch in t then Resolution(t, IndexOf(t, ch)) else Resolution(t + [ch], |t|)
  }

  /** Resolving the values of `cs` one after another, as the text loops do. */
  function ResolveAll(t: seq<nat>, cs: seq<nat>): (r: Resolutions)
    ensures |r.codes| == |cs|
    decreases |cs|
  {
    if cs == [] then Resolutions(t, [])
    else
      var first := Resolve(t, cs[0]);
      var rest := ResolveAll(first.table, cs[1..]);
      Resolutions(rest.table, [first.code] + rest.codes)
  }

  /** Resolving `cs` only appends to the table, only values of `cs`, and keeps it free of duplicates. */
  lemma {:induction false} ResolveAllGrows(t: seq<nat>, cs: seq<nat>)
    ensures Extends(t, ResolveAll(t, cs).table)
    ensures forall x :: x in ResolveAll(t, cs).table ==> x in t || x in cs
    ensures NoDuplicates(t) ==> NoDuplicates(ResolveAll(t, cs).table)
    decreases |cs|
  {
    if cs != [] {
      var first := Resolve(t, cs[0]);
      var tail := cs[1..];
      ResolveAllGrows(first.table, tail);
      var u := ResolveAll(first.table, tail).table;
      assert ResolveAll(t, cs).table == u;
      assert u[..|t|] == u[..|first.table|][..|t|];
      forall x | x in u
        ensures x in t || x in cs
      {
        if x !in first.table {
          assert x in tail;
        }
      }
    }
  }

  /** After resolving `cs`, the k-th code indexes the k-th value. */
  lemma {:induction false} ResolveAllCodes(t: seq<nat>, cs: seq<nat>)
    ensures forall k :: 0 <= k < |cs| ==>
      ResolveAll(t, cs).codes[k] < |ResolveAll(t, cs).table|
      && ResolveAll(t, cs).table[ResolveAll(t, cs).codes[k]] == cs[k]
    decreases |cs|
  {
    if cs != [] {
      var first := Resolve(t, cs[0]);
      var tail := cs[1..];
      ResolveAllCodes(first.table, tail);
      ResolveAllGrows(first.table, tail);
      var rest := ResolveAll(first.table, tail);
      var r := ResolveAll(t, cs);
      assert r.table == rest.table && r.codes == [first.code] + rest.codes;
      forall k | 0 <= k < |cs|
        ensures r.codes[k] < |r.table| && r.table[r.codes[k]] == cs[k]
      {
        if k == 0 {
          assert r.table[..|first.table|] == first.table;
          assert r.table[first.code] == first.table[first.code];
        } else {
          assert r.codes[k] == rest.codes[k - 1] && cs[k] == tail[k - 1];
        }
      }
    }
  }

  /** One step of `ResolveAll`: the first value's code, then the codes of the rest against the grown table. */
  lemma ResolveAllFront(t: seq<nat>, cs: seq<nat>)
    requires cs != []
    ensures ResolveAll(t, cs).codes
         == [Resolve(t, cs[0]).code] + ResolveAll(Resolve(t, cs[0]).table, cs[1..]).codes
  {
  }

  /** Once a value is in the table, every later lookup returns the same code. */
  lemma ResolveStable(t: seq<nat>, u: seq<nat>, ch: nat)
    requires ch in t && Extends(t, u)
    ensures Resolve(u, ch) == Resolution(u, Resolve(t, ch).code)
  {
    var a, b := IndexOf(t, ch), IndexOf(u, ch);
    assert u[a] == ch;
    assert b <= a;
    assert t[b] == u[b];
  }

  /** Two values share a code exactly when they are the same value. */
  lemma SameValueSameCode(t: seq<nat>, cs: seq<nat>, k: nat, m: nat)
    requires NoDuplicates(t)
    requires k < |cs| && m < |cs|
    ensures cs[k] == cs[m] <==> ResolveAll(t, cs).codes[k] == ResolveAll(t, cs).codes[m]
  {
    ResolveAllCodes(t, cs);
    ResolveAllGrows(t, cs);
  }
}
