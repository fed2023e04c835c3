/** The traced target program: an iterative factorial. */
module Factorial {
  import opened Wrappers

  /** n! */
  function Fact(n: nat): (r: nat)
    ensures r >= 1
    ensures n >= 1 ==> r >= n
  {
    if n == 0 then 1 else n * Fact(n - 1)
  }

  function Max(a: int, b: int): int
  {
    if a >= b then a else b
  }

  /**
   * `factorial(n)`: `None` for a negative `n`, otherwise n!, computed by
   * counting `i` up from 1 and multiplying it into `f` until `i` reaches `n`.
   */
  method Factorial(n: int) returns (r: Option<int>)
    ensures n < 0 ==> r == None
    ensures n >= 0 ==> r == Some(Fact(n))
  {
    if n < 0 {
      return None;
    }
    var i := 1;
    var f := 1;
    while true
      invariant 1 <= i <= Max(n, 1)
      invariant f == Fact(i)
      decreases n - i
    {
      if !(i < n) {
        break;
      }
      i := i + 1;
      f := i * f;
    }
    return Some(f);
  }

  /** The one call the coverage driver traces: `factorial(3)` is 6. */
  method MeasuredCall() returns (r: Option<int>)
    ensures r == Some(6)
  {
    r := Factorial(3);
  }
}
