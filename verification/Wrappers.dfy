// A nullable column, or an answer that may be missing.
module Wrappers {
  datatype Option<+T> = None | Some(value: T)

  function Pow(base: nat, exponent: nat): nat {
    if exponent == 0 then 1 else base * Pow(base, exponent - 1)
  }

  function Min(a: nat, b: nat): (m: nat) {
    if a < b then a else b
  }

  lemma MultiplesGrow(k: nat, a: nat, b: nat)
    requires a <= b
    ensures k * a <= k * b
  {
    assert k * b == k * a + k * (b - a);
  }
}
