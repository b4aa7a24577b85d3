/** Machine arithmetic shared by the modules. */
module Arith {

  function SaturatingSub(a: nat, b: nat): nat { if a < b then 0 else a - b }

  lemma MulMono(a: nat, b: nat, c: nat)
    requires a <= b
    ensures a * c <= b * c
  {
  }
}
