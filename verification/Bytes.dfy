/** Bytes and searching for them. */
module Bytes {
  import opened Basics

  type Byte = x: int | 0 <= x < 256

  const CR: Byte := 13
  const LF: Byte := 10

  predicate IsDigit(b: Byte) {
    '0' as int <= b <= '9' as int
  }

  /** The number that decimal digits denote. */
  function Number(digits: seq<Byte>): int {
    if digits == [] then 0 else 10 * Number(digits[..|digits| - 1]) + (digits[|digits| - 1] - '0' as int)
  }

  /** std::find: the first `b` at or after `from`, or the end. */
  function Find(s: seq<Byte>, b: Byte, from: nat): (r: nat)
    requires from <= |s|
    ensures from <= r <= |s|
    ensures forall i :: from <= i < r ==> s[i] != b
    ensures r < |s| ==> s[r] == b
    decreases |s| - from
  {
    if from == |s| || s[from] == b then from else Find(s, b, from + 1)
  }

  predicate CrlfHere(s: seq<Byte>, i: nat) {
    i + 1 < |s| && s[i] == CR && s[i + 1] == LF
  }

  /** The first CRLF. */
  function FindCrlf(s: seq<Byte>): (r: Option<nat>)
    ensures r.None? ==> forall i: nat :: !CrlfHere(s, i)
    ensures r.Some? ==> CrlfHere(s, r.value) && forall i: nat :: i < r.value ==> !CrlfHere(s, i)
  {
    CrlfFrom(s, 0)
  }

  function CrlfFrom(s: seq<Byte>, from: nat): (r: Option<nat>)
    requires from <= |s|
    ensures r.None? ==> forall i: nat :: from <= i ==> !CrlfHere(s, i)
    ensures r.Some? ==> from <= r.value && CrlfHere(s, r.value) && forall i: nat :: from <= i < r.value ==> !CrlfHere(s, i)
    decreases |s| - from
  {
    if from == |s| then None else if CrlfHere(s, from) then Some(from) else CrlfFrom(s, from + 1)
  }

  /** A CRLF found stays the first one whatever follows. */
  lemma CrlfStays(s: seq<Byte>, t: seq<Byte>)
    requires FindCrlf(s).Some?
    ensures FindCrlf(s + t) == FindCrlf(s)
  {
    var i := FindCrlf(s).value;
    assert CrlfHere(s + t, i);
    assert forall j: nat :: j < i ==> (CrlfHere(s + t, j) <==> CrlfHere(s, j));
  }
}
