/** Vocabulary shared by every module. */
module Basics {

  datatype Option<+T> = None | Some(value: T)

  type UserId = string
  type RoomId = string
  type ServerId = string
  type SessionId = nat

  /** Go's integer division by a positive count: toward zero. */
  function Quotient(a: int, n: nat): (q: int)
    requires n > 0
    ensures a >= 0 ==> q * n <= a < q * n + n
    ensures a <= 0 ==> q * n - n < a <= q * n
  {
    if a >= 0 then a / n else -((-a) / n)
  }
}
