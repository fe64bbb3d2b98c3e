/** Multiples by repeated addition: the solver handles them without nonlinear arithmetic. */
module Multiples {

  function Multiple(n: nat, unit: nat): nat
  {
    if n == 0 then 0 else Multiple(n - 1, unit) + unit
  }

  lemma {:induction false} MultipleIsProduct(n: nat, unit: nat)
    ensures Multiple(n, unit) == n * unit
  {
    if n > 0 {
      MultipleIsProduct(n - 1, unit);
      assert n * unit == (n - 1) * unit + unit;
    }
  }

  lemma {:induction false} MultipleGrows(n: nat, n': nat, unit: nat)
    requires n <= n'
    ensures Multiple(n, unit) <= Multiple(n', unit)
  {
    if n < n' { MultipleGrows(n, n' - 1, unit); }
  }
}
