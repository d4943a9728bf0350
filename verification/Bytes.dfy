/** Shared vocabulary: optional values, searches over byte strings, and copying into an array. */
module Bytes {

  datatype Option<+T> = None | Some(value: T)

  function Max(a: int, b: int): int {
    if a < b then b else a
  }

  function Flatten<T>(blocks: seq<seq<T>>): seq<T> {
    if blocks == [] then [] else Flatten(blocks[..|blocks| - 1]) + blocks[|blocks| - 1]
  }

  lemma FlattenNext<T>(blocks: seq<seq<T>>, i: nat)
    requires i < |blocks|
    ensures Flatten(blocks[..i + 1]) == Flatten(blocks[..i]) + blocks[i]
  {
    assert blocks[..i + 1][..i] == blocks[..i];
  }

  /** A carriage return and a line feed stand at position `k`. */
  predicate CrlfAt(s: string, k: int) {
    0 <= k && k + 1 < |s| && s[k] == '\r' && s[k + 1] == '\n'
  }

  /** The first CRLF at or after `from`. */
  function FindCrlfFrom(s: string, from: nat): (k: Option<nat>)
    ensures k.Some? ==> from <= k.value && CrlfAt(s, k.value) && forall j :: from <= j < k.value ==> !CrlfAt(s, j)
    ensures k.None? ==> forall j :: from <= j ==> !CrlfAt(s, j)
    decreases |s| - from
  {
    if |s| <= from then None
    else if CrlfAt(s, from) then Some(from)
    else FindCrlfFrom(s, from + 1)
  }

  function FindCrlf(s: string): (k: Option<nat>)
    ensures k.Some? ==> CrlfAt(s, k.value) && forall j :: 0 <= j < k.value ==> !CrlfAt(s, j)
    ensures k.None? ==> forall j :: !CrlfAt(s, j)
  {
    FindCrlfFrom(s, 0)
  }

  /** The first occurrence of `c`, or `|s|` when there is none: the convention of std::find. */
  function Find(s: string, c: char): (k: nat)
    ensures k <= |s|
    ensures forall j :: 0 <= j < k ==> s[j] != c
    ensures k < |s| ==> s[k] == c
  {
    if s == [] then 0 else if s[0] == c then 0 else 1 + Find(s[1..], c)
  }

  /** Any position with the defining properties of the first CRLF is the one found. */
  lemma FindCrlfUnique(s: string, k: nat)
    requires CrlfAt(s, k)
    requires forall j :: 0 <= j < k ==> !CrlfAt(s, j)
    ensures FindCrlf(s) == Some(k)
  {
  }

  lemma FindUnique(s: string, c: char, k: nat)
    requires k <= |s|
    requires forall j :: 0 <= j < k ==> s[j] != c
    requires k < |s| ==> s[k] == c
    ensures Find(s, c) == k
  {
  }

  lemma Associate<T>(a: seq<T>, b: seq<T>, c: seq<T>)
    ensures a + b + c == a + (b + c)
  {
  }

  /** std::copy, or memcpy, of `s` into `dst` starting at index `at`. */
  method CopyInto(dst: array<char>, at: nat, s: string)
    requires at + |s| <= dst.Length
    modifies dst
    ensures dst[..] == old(dst[..at]) + s + old(dst[at + |s|..])
  {
    var i := 0;
    while i < |s|
      invariant 0 <= i <= |s| && dst[at..at + i] == s[..i]
      invariant dst[..at] == old(dst[..at]) && dst[at + i..] == old(dst[at + i..])
    {
      dst[at + i] := s[i];
      i := i + 1;
    }
    assert dst[..] == dst[..at] + dst[at..at + |s|] + dst[at + |s|..];
  }
}
