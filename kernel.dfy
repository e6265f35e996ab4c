/** Machine values and the Zephyr kernel semaphore, as both firmware programs use them. */
module Kernel {

  /** An unsigned 8-bit value (uint8_t). */
  type Byte = b: int | 0 <= b < 0x100

  /** Number of values of a uint16_t; arithmetic on one wraps modulo this. */
  const UINT16_LIMIT: nat := 0x1_0000

  /** A uint16_t value. */
  type U16 = x: int | 0 <= x < 0x1_0000

  /** Number of values of a uint32_t; arithmetic on one wraps modulo this. */
  const UINT32_LIMIT: nat := 0x1_0000_0000

  datatype Option<T> = None | Some(value: T)

  function Min(a: int, b: int): int
  {
    if a < b then a else b
  }

  /** n zero bytes (what memset(p, 0, n) leaves behind). */
  function Zeros(n: nat): (z: seq<Byte>)
    ensures |z| == n
    ensures forall i :: 0 <= i < n ==> z[i] == 0
  {
    seq(n, _ => 0)
  }

  /** x++ on a uint16_t. */
  function Inc16(x: U16): (r: U16)
    ensures r == 0 <==> x == UINT16_LIMIT - 1
    ensures r != 0 ==> r == x + 1
  {
    (x + 1) % UINT16_LIMIT
  }

  /**
   * A semaphore (struct k_sem) seen as a counter: `count` tokens are
   * available and K_SEM_DEFINE fixes the `limit` the count never passes.
   */
  datatype Sem = Sem(count: nat, limit: nat) {

    predicate Valid()
    {
      count <= limit
    }

    predicate Available()
    {
      count > 0
    }

    /** k_sem_give: one more token, unless the count is already at the limit. */
    function Give(): (r: Sem)
      ensures r.limit == limit
      ensures Valid() ==> r.Valid()
      ensures count <= r.count <= count + 1
      ensures r.count == count <==> count >= limit
    {
      if count < limit then Sem(count + 1, limit) else this
    }

    /** A k_sem_take that finds a token: one token fewer. */
    function Take(): (r: Sem)
      requires Available()
      ensures r.limit == limit && r.count + 1 == count
      ensures Valid() ==> r.Valid()
    {
      Sem(count - 1, limit)
    }

    /** k_sem_reset: no tokens left. */
    function Reset(): (r: Sem)
      ensures r.Valid() && r.limit == limit && !r.Available()
    {
      Sem(0, limit)
    }
  }
}
