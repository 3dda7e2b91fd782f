/** Results, bytes as numbers, and the smaller and larger of two numbers. */
module Wrappers {

  datatype Option<+T> = None | Some(value: T)

  datatype Result<+T, +E> = Ok(value: T) | Err(error: E)

  /** A byte, where it is computed with rather than taken apart. */
  type Octet = x: int | 0 <= x < 256

  function Min(a: nat, b: nat): nat {
    if a <= b then a else b
  }

  function Max(a: int, b: int): (m: int)
    ensures a <= m && b <= m
  {
    if a <= b then b else a
  }

  /** A number above all of a finite set. */
  lemma {:induction false} FreshId(keys: set<nat>) returns (spare: nat)
    ensures forall k :: k in keys ==> k < spare
    decreases keys
  {
    if keys == {} {
      spare := 0;
    } else {
      var k :| k in keys;
      var below := FreshId(keys - {k});
      assert forall x :: x in keys ==> x == k || x in keys - {k};
      spare := if k < below then below else k + 1;
    }
  }
}
