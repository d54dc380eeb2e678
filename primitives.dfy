/** Machine-level value types shared by the memory, the rule table and the executor. */
module Primitives {

  /** The Rust `u8`: every tape cell, control state, rule field and movement code. */
  type U8 = x: int | 0 <= x < 256

  datatype Option<T> = None | Some(value: T)

  /** Remainder of a number below twice the modulus: at most one subtraction. */
  lemma ModOfSmall(x: int, n: int)
    requires 0 < n && 0 <= x < 2 * n
    ensures x % n == if x < n then x else x - n
  {
    if x >= n {
      assert x - n == x % n by {
        assert x == 1 * n + (x - n);
      }
    }
  }
}
