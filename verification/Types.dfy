/**
 Values shared by the models: optional values, octets, and the saturating
 64-bit millisecond clock that every timer of the stack is built on.
 */
module Types {

  datatype Option<+T> = None | Some(value: T)

  type Octet = x: nat | x < 0x100

  type Bytes = seq<Octet>

  type U16 = x: nat | x < 0x1_0000

  type U32 = x: nat | x < 0x1_0000_0000

  /** IEEE addresses. */
  type Address64 = x: nat | x <= 0xFFFF_FFFF_FFFF_FFFF

  /** The last instant a 64-bit millisecond clock can show. */
  const FAR_FUTURE: nat := 0xFFFF_FFFF_FFFF_FFFF

  type Instant = t: nat | t <= FAR_FUTURE

  /** A deadline `d` milliseconds after `t`; it sticks at the end of time. */
  function After(t: Instant, d: nat): (r: Instant)
    ensures t <= r
    ensures t + d <= FAR_FUTURE ==> r == t + d
  {
    if t + d <= FAR_FUTURE then t + d else FAR_FUTURE
  }

  lemma AfterMonotone(t: Instant, u: Instant, d: nat)
    requires t <= u
    ensures After(t, d) <= After(u, d)
  {
  }
}
