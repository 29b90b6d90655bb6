/**
 Fields of the over-the-air table formats: numbers, optional fields, lists and the
 bits of an options word, printed and read one after the other.
 */
module Fields {
  import opened Types

  /** A field read from the front, with what is left. */
  datatype Parsed<+T> = Bad | Got(value: T, rest: Bytes) {
    predicate IsFailure() {
      Bad?
    }

    function PropagateFailure<U>(): Parsed<U>
      requires IsFailure()
    {
      Bad
    }

    function Extract(): (T, Bytes)
      requires !IsFailure()
    {
      (value, rest)
    }
  }

  function ReadU8(b: Bytes): (r: Parsed<Octet>)
    ensures r.Got? ==> |r.rest| <= |b|
  {
    if |b| < 1 then Bad else Got(b[0], b[1..])
  }

  function Print16(x: U16): (s: Bytes)
    ensures |s| == 2
  {
    [x % 256, x / 256]
  }

  function Print32(x: U32): (s: Bytes)
    ensures |s| == 4
  {
    Print16(x % 0x1_0000) + Print16(x / 0x1_0000)
  }

  function Print64(x: Address64): (s: Bytes)
    ensures |s| == 8
  {
    Print32(x % 0x1_0000_0000) + Print32(x / 0x1_0000_0000)
  }

  function ReadU16(b: Bytes): (r: Parsed<U16>)
    ensures r.Got? ==> |r.rest| < |b|
  {
    if |b| < 2 then Bad else Got(b[0] as int + 256 * b[1] as int, b[2..])
  }

  function ReadU32(b: Bytes): (r: Parsed<U32>)
    ensures r.Got? ==> |r.rest| <= |b|
  {
    var low :- ReadU16(b);
    var high :- ReadU16(low.1);
    Got(low.0 as int + 0x1_0000 * high.0 as int, high.1)
  }

  function ReadU64(b: Bytes): (r: Parsed<Address64>)
    ensures r.Got? ==> |r.rest| <= |b|
  {
    var low :- ReadU32(b);
    var high :- ReadU32(low.1);
    Got(low.0 as int + 0x1_0000_0000 * high.0 as int, high.1)
  }

  function ReadBytes(b: Bytes, n: nat): (r: Parsed<Bytes>)
    ensures r.Got? ==> |r.rest| <= |b|
  {
    if |b| < n then Bad else Got(b[..n], b[n..])
  }

  lemma Front(a: Bytes, b: Bytes)
    ensures (a + b)[..|a|] == a && (a + b)[|a|..] == b
  {
  }

  lemma Associative(a: Bytes, b: Bytes, c: Bytes)
    ensures a + b + c == a + (b + c)
  {
  }

  lemma ReadPrinted16(x: U16, rest: Bytes)
    ensures ReadU16(Print16(x) + rest) == Got(x, rest)
  {
    Front(Print16(x), rest);
  }

  lemma ReadPrinted32(x: U32, rest: Bytes)
    ensures ReadU32(Print32(x) + rest) == Got(x, rest)
  {
    var low, high := x % 0x1_0000, x / 0x1_0000;
    Associative(Print16(low), Print16(high), rest);
    ReadPrinted16(low, Print16(high) + rest);
    ReadPrinted16(high, rest);
  }

  lemma ReadPrinted64(x: Address64, rest: Bytes)
    ensures ReadU64(Print64(x) + rest) == Got(x, rest)
  {
    var low, high := x % 0x1_0000_0000, x / 0x1_0000_0000;
    Associative(Print32(low), Print32(high), rest);
    ReadPrinted32(low, Print32(high) + rest);
    ReadPrinted32(high, rest);
  }

  lemma ReadPrinted8(x: Octet, rest: Bytes)
    ensures ReadU8([x] + rest) == Got(x, rest)
  {
    Front([x], rest);
  }

  // ------------------------------------------------------------------
  // Optional fields
  // ------------------------------------------------------------------

  function PrintOpt16(x: Option<U16>): (s: Bytes)
    ensures |s| == if x.Some? then 2 else 0
  {
    if x.Some? then Print16(x.value) else []
  }

  function ReadOpt16(present: bool, b: Bytes): (r: Parsed<Option<U16>>)
    ensures r.Got? ==> |r.rest| <= |b|
  {
    if !present then Got(None, b)
    else
      var x :- ReadU16(b);
      Got(Some(x.0), x.1)
  }

  lemma ReadPrintedOpt16(x: Option<U16>, rest: Bytes)
    ensures ReadOpt16(x.Some?, PrintOpt16(x) + rest) == Got(x, rest)
  {
    if x.Some? {
      ReadPrinted16(x.value, rest);
    } else {
      assert [] + rest == rest;
    }
  }

  function PrintOpt32(present: bool, x: U32): (s: Bytes)
    ensures |s| == if present then 4 else 0
  {
    if present then Print32(x) else []
  }

  /** An absent counter reads as zero. */
  function ReadOpt32(present: bool, b: Bytes): (r: Parsed<U32>)
    ensures r.Got? ==> |r.rest| <= |b|
  {
    if present then ReadU32(b) else Got(0, b)
  }

  lemma ReadPrintedOpt32(present: bool, x: U32, rest: Bytes)
    ensures ReadOpt32(present, PrintOpt32(present, x) + rest) == Got(if present then x else 0, rest)
  {
    if present {
      ReadPrinted32(x, rest);
    } else {
      assert [] + rest == rest;
    }
  }

  function PrintOpt8(present: bool, x: Octet): (s: Bytes)
    ensures |s| == if present then 1 else 0
  {
    if present then [x] else []
  }

  function ReadOpt8(present: bool, b: Bytes): (r: Parsed<Octet>)
    ensures r.Got? ==> |r.rest| <= |b|
  {
    if present then ReadU8(b) else Got(0, b)
  }

  lemma ReadPrintedOpt8(present: bool, x: Octet, rest: Bytes)
    ensures ReadOpt8(present, PrintOpt8(present, x) + rest) == Got(if present then x else 0, rest)
  {
    if present {
      ReadPrinted8(x, rest);
    } else {
      assert [] + rest == rest;
    }
  }

  // ------------------------------------------------------------------
  // Lists
  // ------------------------------------------------------------------

  function PrintGroup(x: (U16, U16)): (r: Bytes)
    ensures |r| == 4
  {
    Print16(x.0) + Print16(x.1)
  }

  function ReadGroup(b: Bytes): (r: Parsed<(U16, U16)>)
    ensures r.Got? ==> |r.rest| <= |b|
  {
    var x :- ReadU16(b);
    var y :- ReadU16(x.1);
    Got((x.0, y.0), y.1)
  }

  function PrintGroups(s: seq<(U16, U16)>): (r: Bytes)
    ensures |r| == 4 * |s|
  {
    if s == [] then [] else PrintGroup(s[0]) + PrintGroups(s[1..])
  }

  function ReadGroups(b: Bytes, n: nat): (r: Parsed<seq<(U16, U16)>>)
    ensures r.Got? ==> |r.rest| <= |b|
  {
    if n == 0 then Got([], b)
    else
      var x :- ReadGroup(b);
      var s :- ReadGroups(x.1, n - 1);
      Got([x.0] + s.0, s.1)
  }

  lemma ReadGroupsStep(b: Bytes, x: (U16, U16), tail: Bytes, s: seq<(U16, U16)>, rest: Bytes)
    requires ReadGroup(b) == Got(x, tail) && ReadGroups(tail, |s|) == Got(s, rest)
    ensures ReadGroups(b, |s| + 1) == Got([x] + s, rest)
  {
  }

  lemma {:induction false} ReadPrintedGroups(s: seq<(U16, U16)>, rest: Bytes)
    ensures ReadGroups(PrintGroups(s) + rest, |s|) == Got(s, rest)
  {
    if s == [] {
      assert [] + rest == rest;
    } else {
      var tail := PrintGroups(s[1..]) + rest;
      ReadPrintedGroups(s[1..], rest);
      Associative(PrintGroup(s[0]), PrintGroups(s[1..]), rest);
      ReadGroupsStep(PrintGroup(s[0]) + tail, s[0], tail, s[1..], rest);
      assert [s[0]] + s[1..] == s;
    }
  }

  function PrintSink(x: (Address64, U16)): (r: Bytes)
    ensures |r| == 10
  {
    Print64(x.0) + Print16(x.1)
  }

  function ReadSink(b: Bytes): (r: Parsed<(Address64, U16)>)
    ensures r.Got? ==> |r.rest| <= |b|
  {
    var x :- ReadU64(b);
    var y :- ReadU16(x.1);
    Got((x.0, y.0), y.1)
  }

  function PrintSinks(s: seq<(Address64, U16)>): (r: Bytes)
    ensures |r| == 10 * |s|
  {
    if s == [] then [] else PrintSink(s[0]) + PrintSinks(s[1..])
  }

  function ReadSinks(b: Bytes, n: nat): (r: Parsed<seq<(Address64, U16)>>)
    ensures r.Got? ==> |r.rest| <= |b|
  {
    if n == 0 then Got([], b)
    else
      var x :- ReadSink(b);
      var s :- ReadSinks(x.1, n - 1);
      Got([x.0] + s.0, s.1)
  }

  lemma ReadSinksStep(b: Bytes, x: (Address64, U16), tail: Bytes, s: seq<(Address64, U16)>, rest: Bytes)
    requires ReadSink(b) == Got(x, tail) && ReadSinks(tail, |s|) == Got(s, rest)
    ensures ReadSinks(b, |s| + 1) == Got([x] + s, rest)
  {
  }

  lemma {:induction false} ReadPrintedSinks(s: seq<(Address64, U16)>, rest: Bytes)
    ensures ReadSinks(PrintSinks(s) + rest, |s|) == Got(s, rest)
  {
    if s == [] {
      assert [] + rest == rest;
    } else {
      var tail := PrintSinks(s[1..]) + rest;
      ReadPrintedSinks(s[1..], rest);
      Associative(PrintSink(s[0]), PrintSinks(s[1..]), rest);
      ReadSinksStep(PrintSink(s[0]) + tail, s[0], tail, s[1..], rest);
      assert [s[0]] + s[1..] == s;
    }
  }

  // ------------------------------------------------------------------
  // Bits
  // ------------------------------------------------------------------

  function Power2(n: nat): nat {
    if n == 0 then 1 else 2 * Power2(n - 1)
  }

  /** The number whose bits, low one first, are given. */
  function FromBits(bits: seq<bool>): (n: nat)
    ensures n < Power2(|bits|)
  {
    if bits == [] then 0 else (if bits[0] then 1 else 0) + 2 * FromBits(bits[1..])
  }

  function ToBits(n: nat, width: nat): (bits: seq<bool>)
    ensures |bits| == width
  {
    if width == 0 then [] else [n % 2 == 1] + ToBits(n / 2, width - 1)
  }

  lemma {:induction false} BitsRoundTrip(bits: seq<bool>)
    ensures ToBits(FromBits(bits), |bits|) == bits
  {
    if bits != [] {
      BitsRoundTrip(bits[1..]);
      assert bits == [bits[0]] + bits[1..];
    }
  }

  const NO_OPTIONS: seq<bool> := [false, false, false, false, false, false, false, false, false, false, false, false, false, false, false, false]

  /** The sixteen bits of an options word, low one first. */
  function Unpack(n: U16): (bits: seq<bool>)
    ensures |bits| == 16
  {
    ToBits(n, |NO_OPTIONS|)
  }

  function Pack(bits: seq<bool>): U16
    requires |bits| == 16
  {
    Powers();
    FromBits(bits)
  }

  lemma PackRoundTrip(bits: seq<bool>)
    requires |bits| == 16
    ensures Unpack(Pack(bits)) == bits
  {
    BitsRoundTrip(bits);
    assert |bits| == |NO_OPTIONS|;
  }

  lemma Powers()
    ensures Power2(16) == 0x1_0000
  {
    assert Power2(4) == 16;
    assert Power2(8) == 256;
    assert Power2(12) == 4096;
  }
}
