/** Machine-level vocabulary shared by every model: the C integer types the
    firmware uses, explicit 32-bit wrap-around, the NULL-or-value wrapper,
    and the first-free search of the fixed-size pools. */
module Machine {

  const U32_LIMIT: int := 0x1_0000_0000
  const UINT32_MAX: int := 0xFFFF_FFFF

  /** uint32_t, uint16_t and uint8_t as ranges of the unbounded integers. */
  type u32 = x: int | 0 <= x < 0x1_0000_0000
  type u16 = x: int | 0 <= x < 0x1_0000
  type u8 = x: int | 0 <= x < 0x100

  /** A C pointer or handle that may be NULL. */
  datatype Option<+T> = None | Some(value: T)

  /** The value a uint32_t variable holds after storing the mathematical value x. */
  function Wrap32(x: int): (r: u32)
    ensures 0 <= x < U32_LIMIT ==> r == x
    ensures (x - r) % U32_LIMIT == 0
  {
    x % U32_LIMIT
  }

  /** The value of a uint32_t after `++`: one more, or 0 after UINT32_MAX. */
  function Inc32(x: u32): (r: u32)
    ensures x < UINT32_MAX ==> r == x + 1
    ensures x == UINT32_MAX ==> r == 0
    ensures r == Wrap32(x + 1)
  {
    if x == UINT32_MAX then 0 else x + 1
  }

  /** Incrementing a wrapped value is wrapping the incremented value. */
  lemma Inc32OfWrap(x: int)
    ensures Inc32(Wrap32(x)) == Wrap32(x + 1)
  {
    var q := x / U32_LIMIT;
    assert x == q * U32_LIMIT + Wrap32(x);
    if Wrap32(x) == UINT32_MAX {
      assert x + 1 == (q + 1) * U32_LIMIT;
    } else {
      assert x + 1 == q * U32_LIMIT + (Wrap32(x) + 1);
    }
  }

  /** Adding to a wrapped value and wrapping again is wrapping once. */
  lemma WrapAdd(x: int, n: int)
    ensures Wrap32(Wrap32(x) + n) == Wrap32(x + n)
  {
    var q := x / U32_LIMIT;
    assert x + n == q * U32_LIMIT + (Wrap32(x) + n);
  }

  /** uint32_t addition: the sum, less 2^32 when it overflows. */
  function Add32(a: u32, b: u32): u32
  {
    if a + b < U32_LIMIT then a + b else a + b - U32_LIMIT
  }

  /** uint32_t subtraction: the difference, plus 2^32 when it is negative. */
  function Sub32(a: u32, b: u32): u32
  {
    if a >= b then a - b else a - b + U32_LIMIT
  }

  function Min(a: int, b: int): (r: int)
    ensures r <= a && r <= b && (r == a || r == b)
  {
    if a < b then a else b
  }

  function Max(a: int, b: int): (r: int)
    ensures r >= a && r >= b && (r == a || r == b)
  {
    if a > b then a else b
  }

  /** The slot a fixed-size pool search claims: the lowest one not in use. */
  function FirstFree(used: seq<bool>): (r: Option<nat>)
    ensures r.None? <==> forall i :: 0 <= i < |used| ==> used[i]
    ensures r.Some? ==> r.value < |used| && !used[r.value] && forall i :: 0 <= i < r.value ==> used[i]
  {
    if used == [] then None
    else if !used[0] then Some(0)
    else
      var rest := FirstFree(used[1..]);
      if rest.None? then None else Some(rest.value + 1)
  }

  /** Freeing a slot makes the next search succeed, at that slot or a lower one. */
  lemma {:induction false} FreedSlotReusable(used: seq<bool>, i: nat)
    requires i < |used|
    ensures FirstFree(used[i := false]).Some?
    ensures FirstFree(used[i := false]).value <= i
  {
    var freed := used[i := false];
    assert !freed[i];
  }
}
