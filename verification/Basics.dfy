/** Small notions that several modules share. */
module Basics {

  datatype Option<T> = None | Some(value: T)

  function Min(a: nat, b: nat): nat {
    if a < b then a else b
  }

  function Bit(b: bool): nat { if b then 1 else 0 }

  lemma SubsetSize(part: set<nat>, whole: set<nat>)
    requires part <= whole
    ensures |part| <= |whole|
    ensures |part| == |whole| <==> part == whole
  {
    var rest := whole - part;
    assert whole == part + rest;
    assert part * rest == {};
  }
}
