/**
 Short device setup codes (section 6.12 of BDB 3.1): characters of five bits each,
 packed little-endian into a 128-bit pass code, and back.
 */
module SetupCode {
  import opened Types
  import opened LittleEndian
  import opened Fields

  const ALPHABET: string := "ABCDEFGHJKLMNPQRSTUVWXYZ23456789"
  const MAX_CHARS: nat := 25

  type Digit = v: nat | v < 32

  datatype Error = InvalidCharacter(index: nat) | Length

  datatype Result<T> = Ok(value: T) | Err(error: Error)

  datatype PassCode = PassCode(bytes: Bytes, bits: nat)

  // ------------------------------------------------------------------
  // Characters
  // ------------------------------------------------------------------

  function Upper(c: char): char {
    if 'a' <= c <= 'z' then (c as int - 32) as char else c
  }

  function Letter(v: Digit): (c: char)
    ensures Upper(c) == c && c != '-' && c != ' '
  {
    ALPHABET[v]
  }

  /** The five-bit value of a character, whatever its case. */
  function ValueOf(c: char): Option<Digit> {
    var u := Upper(c);
    if 'A' <= u <= 'H' then Some(u as int - 'A' as int)
    else if 'J' <= u <= 'N' then Some(8 + u as int - 'J' as int)
    else if 'P' <= u <= 'Z' then Some(13 + u as int - 'P' as int)
    else if '2' <= u <= '9' then Some(24 + u as int - '2' as int)
    else None
  }

  /** The code of the letter of a value. */
  function LetterCode(v: Digit): nat {
    if v < 8 then 'A' as int + v
    else if v < 13 then 'J' as int + v - 8
    else if v < 24 then 'P' as int + v - 13
    else '2' as int + v - 24
  }

  lemma LetterIs(v: Digit)
    ensures Letter(v) as int == LetterCode(v)
  {
  }

  /** A character has the value at which the alphabet has it. */
  lemma ValueExactly(c: char, v: Digit)
    ensures ValueOf(c) == Some(v) <==> Letter(v) == Upper(c)
  {
    hide Letter;
    LetterIs(v);
  }

  method LookUp(c: char) returns (v: Option<Digit>)
    ensures v == ValueOf(c)
  {
    var u := Upper(c);
    for i := 0 to 32
      invariant forall j: Digit :: j < i ==> ALPHABET[j] != u
    {
      if ALPHABET[i] == u {
        ValueExactly(c, i);
        return Some(i);
      }
    }
    if ValueOf(c).Some? {
      ValueExactly(c, ValueOf(c).value);
    }
    return None;
  }

  predicate IsSeparator(c: char) {
    c == '-' || c == ' '
  }

  /** The values of the characters from `i` on, after those in `vs`. */
  function Scan(code: string, i: nat, vs: seq<Digit>): Result<seq<Digit>>
    requires i <= |code|
    decreases |code| - i
  {
    if i == |code| then (if vs == [] then Err(Length) else Ok(vs))
    else if IsSeparator(code[i]) then Scan(code, i + 1, vs)
    else if ValueOf(code[i]).None? then Err(InvalidCharacter(i))
    else if |vs| >= MAX_CHARS then Err(Length)
    else Scan(code, i + 1, vs + [ValueOf(code[i]).value])
  }

  /** Five bits each, the first character lowest. */
  function Number(vs: seq<Digit>): nat {
    if vs == [] then 0 else vs[0] + 32 * Number(vs[1..])
  }

  function Digits(n: nat, count: nat): (vs: seq<Digit>)
    ensures |vs| == count
  {
    if count == 0 then [] else [n % 32] + Digits(n / 32, count - 1)
  }

  function Power32(n: nat): nat {
    if n == 0 then 1 else 32 * Power32(n - 1)
  }

  lemma {:induction false} NumberDigits(vs: seq<Digit>)
    ensures Digits(Number(vs), |vs|) == vs && Number(vs) < Power32(|vs|)
  {
    if vs != [] {
      hide Digits;
      NumberDigits(vs[1..]);
      FirstDigit(vs[0], Number(vs[1..]), |vs|);
      assert vs == [vs[0]] + vs[1..];
    }
  }

  lemma {:induction false} DigitsNumber(n: nat, count: nat)
    requires n < Power32(count)
    ensures Number(Digits(n, count)) == n
  {
    if count > 0 {
      hide Digits;
      DigitsNumber(n / 32, count - 1);
      UnfoldDigits(n, count);
      assert Digits(n, count)[1..] == Digits(n / 32, count - 1);
    }
  }

  // ------------------------------------------------------------------
  // Bits of a pass code
  // ------------------------------------------------------------------

  /** All bits of some octets, low ones first. */
  function BitsOf(bytes: Bytes): (bits: seq<bool>)
    ensures |bits| == 8 * |bytes|
  {
    if bytes == [] then [] else ToBits(bytes[0], 8) + BitsOf(bytes[1..])
  }

  function CodeBits(vs: seq<Digit>): (bits: seq<bool>)
    ensures |bits| == 5 * |vs|
  {
    if vs == [] then [] else ToBits(vs[0], 5) + CodeBits(vs[1..])
  }

  function Zeros(n: nat): (bits: seq<bool>)
    ensures |bits| == n
  {
    seq(n, _ => false)
  }

  lemma {:induction false} FromBitsJoin(a: seq<bool>, b: seq<bool>)
    ensures FromBits(a + b) == FromBits(a) + Power2(|a|) * FromBits(b)
  {
    if a == [] {
      assert a + b == b;
    } else {
      FromBitsJoin(a[1..], b);
      assert (a + b)[1..] == a[1..] + b;
      var low, n, m := if a[0] then 1 else 0, FromBits(a[1..]), FromBits(b);
      Doubled(low, n, Power2(|a| - 1), m);
    }
  }

  lemma Doubled(low: nat, n: nat, p: nat, m: nat)
    ensures low + 2 * (n + p * m) == low + 2 * n + 2 * p * m
  {
  }

  lemma AppendBit(bits: seq<bool>, b: bool)
    ensures FromBits(bits + [b]) == FromBits(bits) + if b then Power2(|bits|) else 0
  {
    hide FromBits, Power2;
    FromBitsJoin(bits, [b]);
    OneBit(b);
  }

  lemma OneBit(b: bool)
    ensures FromBits([b]) == if b then 1 else 0
  {
    assert [b][1..] == [];
  }

  lemma {:induction false} ToBitsValue(n: nat, width: nat)
    requires n < Power2(width)
    ensures FromBits(ToBits(n, width)) == n
  {
    if width > 0 {
      ToBitsValue(n / 2, width - 1);
      assert ToBits(n, width)[1..] == ToBits(n / 2, width - 1);
    }
  }

  lemma SmallPowers()
    ensures Power2(5) == 32 && Power2(8) == 256
  {
    assert Power2(4) == 16;
    assert Power2(6) == 64;
  }

  lemma {:induction false} BitsOfValue(bytes: Bytes)
    ensures FromBits(BitsOf(bytes)) == FromLe(bytes)
  {
    if bytes != [] {
      hide ToBits;
      BitsOfValue(bytes[1..]);
      SmallPowers();
      ToBitsValue(bytes[0], 8);
      FromBitsJoin(ToBits(bytes[0], 8), BitsOf(bytes[1..]));
    }
  }

  lemma {:induction false} CodeBitsValue(vs: seq<Digit>, pad: nat)
    ensures FromBits(CodeBits(vs) + Zeros(pad)) == Number(vs)
  {
    if vs == [] {
      ZerosValue(pad);
      assert CodeBits(vs) + Zeros(pad) == Zeros(pad);
    } else {
      hide ToBits;
      CodeBitsValue(vs[1..], pad);
      SmallPowers();
      ToBitsValue(vs[0], 5);
      var rest := CodeBits(vs[1..]) + Zeros(pad);
      FromBitsJoin(ToBits(vs[0], 5), rest);
      assert CodeBits(vs) + Zeros(pad) == ToBits(vs[0], 5) + rest;
    }
  }

  lemma {:induction false} ZerosValue(n: nat)
    ensures FromBits(Zeros(n)) == 0
  {
    if n > 0 {
      ZerosValue(n - 1);
      assert Zeros(n)[1..] == Zeros(n - 1);
    }
  }

  lemma {:induction false} CodeBitsAppend(vs: seq<Digit>, v: Digit)
    ensures CodeBits(vs + [v]) == CodeBits(vs) + ToBits(v, 5)
  {
    hide ToBits;
    if vs == [] {
      assert [v][1..] == [];
      assert CodeBits([v]) == ToBits(v, 5) + [];
    } else {
      CodeBitsAppend(vs[1..], v);
      assert (vs + [v])[1..] == vs[1..] + [v];
    }
  }

  /** Bit `p` of the octets is bit `p % 8` of octet `p / 8`. */
  lemma {:induction false} BitsOfAt(bytes: Bytes, p: nat)
    requires p < 8 * |bytes|
    ensures BitsOf(bytes)[p] == ToBits(bytes[p / 8], 8)[p % 8]
  {
    hide ToBits;
    if p >= 8 {
      BitsOfAt(bytes[1..], p - 8);
    }
  }

  /** An octet with one more bit set. */
  function SetBit(x: Octet, k: nat): (r: Octet)
    requires k < 8
    ensures ToBits(r, 8) == ToBits(x, 8)[k := true]
  {
    SmallPowers();
    BitsRoundTrip(ToBits(x, 8)[k := true]);
    FromBits(ToBits(x, 8)[k := true])
  }

  lemma BitsOfSet(bytes: Bytes, p: nat)
    requires p < 8 * |bytes|
    ensures BitsOf(bytes[p / 8 := SetBit(bytes[p / 8], p % 8)]) == BitsOf(bytes)[p := true]
  {
    hide ToBits, BitsOf;
    var bytes' := bytes[p / 8 := SetBit(bytes[p / 8], p % 8)];
    forall q | 0 <= q < 8 * |bytes|
      ensures BitsOf(bytes')[q] == BitsOf(bytes)[p := true][q]
    {
      BitsOfAt(bytes, q);
      BitsOfAt(bytes', q);
    }
  }

  // ------------------------------------------------------------------
  // Decoding
  // ------------------------------------------------------------------

  /** The pass code of a list of values. */
  function Packed(vs: seq<Digit>): PassCode {
    PassCode(Le(Number(vs), 16), 5 * |vs|)
  }

  /** Sets the bits of one value from `bit` on. */
  method PutValue(bytes: array<Octet>, bit: nat, v: Digit)
    requires bytes.Length == 16 && bit + 5 <= 128
    requires forall p :: bit <= p < 128 ==> !BitsOf(bytes[..])[p]
    modifies bytes
    ensures BitsOf(bytes[..]) == BitsOf(old(bytes[..]))[..bit] + ToBits(v, 5) + Zeros(123 - bit)
  {
    hide ToBits, BitsOf;
    ghost var before := BitsOf(bytes[..]);
    for k := 0 to 5
      invariant BitsOf(bytes[..]) == before[..bit] + ToBits(v, 5)[..k] + Zeros(128 - bit - k)
    {
      ghost var now := BitsOf(bytes[..]);
      if ToBits(v, 5)[k] {
        var pos := bit + k;
        BitsOfSet(bytes[..], pos);
        ghost var octets := bytes[..];
        bytes[pos / 8] := SetBit(bytes[pos / 8], pos % 8);
        assert bytes[..] == octets[pos / 8 := SetBit(octets[pos / 8], pos % 8)];
        assert BitsOf(bytes[..]) == now[pos := true];
      }
      assert ToBits(v, 5)[..k + 1] == ToBits(v, 5)[..k] + [ToBits(v, 5)[k]];
    }
    assert ToBits(v, 5)[..5] == ToBits(v, 5);
  }

  lemma PackedIs(bytes: Bytes, vs: seq<Digit>)
    requires |bytes| == 16 && |vs| <= MAX_CHARS && BitsOf(bytes) == CodeBits(vs) + Zeros(128 - 5 * |vs|)
    ensures bytes == Le(Number(vs), 16)
  {
    hide BitsOf, CodeBits, Le, FromLe, Number, FromBits;
    BitsOfValue(bytes);
    CodeBitsValue(vs, 128 - 5 * |vs|);
    FromLeRoundTrip(bytes);
  }

  lemma {:induction false} BlankBits(bytes: Bytes)
    requires forall i :: 0 <= i < |bytes| ==> bytes[i] == 0
    ensures BitsOf(bytes) == Zeros(8 * |bytes|)
  {
    if bytes != [] {
      BlankBits(bytes[1..]);
      BlankOctet(8);
    }
  }

  lemma {:induction false} BlankOctet(width: nat)
    ensures ToBits(0, width) == Zeros(width)
  {
    if width > 0 {
      BlankOctet(width - 1);
    }
  }

  method Decode(code: string) returns (r: Result<PassCode>)
    ensures var s := Scan(code, 0, []); r == if s.Err? then Err(s.error) else Ok(Packed(s.value))
  {
    hide BitsOf, CodeBits, ToBits;
    var bytes := new Octet[16](_ => 0);
    var bit := 0;
    ghost var vs: seq<Digit> := [];
    BlankBits(bytes[..]);
    assert CodeBits([]) + Zeros(128) == Zeros(128);
    for i := 0 to |code|
      invariant Scan(code, 0, []) == Scan(code, i, vs)
      invariant |vs| <= MAX_CHARS && bit == 5 * |vs|
      invariant BitsOf(bytes[..]) == CodeBits(vs) + Zeros(128 - bit)
    {
      if code[i] == '-' || code[i] == ' ' {
        continue;
      }
      var v := LookUp(code[i]);
      if v.None? {
        return Err(InvalidCharacter(i));
      }
      if bit / 5 + 1 > MAX_CHARS {
        return Err(Length);
      }
      PutValue(bytes, bit, v.value);
      CodeBitsAppend(vs, v.value);
      assert (CodeBits(vs) + Zeros(128 - bit))[..bit] == CodeBits(vs);
      vs := vs + [v.value];
      bit := bit + 5;
    }
    if bit == 0 {
      return Err(Length);
    }
    PackedIs(bytes[..], vs);
    return Ok(PassCode(bytes[..], bit));
  }

  // ------------------------------------------------------------------
  // Encoding
  // ------------------------------------------------------------------

  function Text(vs: seq<Digit>): string {
    seq(|vs|, i requires 0 <= i < |vs| => Letter(vs[i]))
  }

  /** How many characters carry `bits` bits. */
  function CharsFor(bits: nat): nat {
    if (bits + 4) / 5 > MAX_CHARS then MAX_CHARS else (bits + 4) / 5
  }

  lemma FirstDigit(low: Digit, high: nat, count: nat)
    requires count > 0
    ensures Digits(low + 32 * high, count) == [low] + Digits(high, count - 1)
  {
    hide Digits;
    UnfoldDigits(low + 32 * high, count);
  }

  lemma UnfoldDigits(n: nat, count: nat)
    requires count > 0
    ensures Digits(n, count) == [n % 32] + Digits(n / 32, count - 1)
  {
  }

  lemma {:induction false} DigitAt(bits: seq<bool>, count: nat, c: nat)
    requires c < count && 5 * count <= |bits|
    ensures Digits(FromBits(bits), count)[c] == FromBits(bits[5 * c..5 * c + 5])
  {
    hide FromBits, Power2, Digits;
    var head, tail := bits[..5], bits[5..];
    FromBitsJoin(head, tail);
    SmallPowers();
    assert bits == head + tail;
    FirstDigit(FromBits(head), FromBits(tail), count);
    if c > 0 {
      DigitAt(tail, count - 1, c - 1);
      assert tail[5 * (c - 1)..5 * (c - 1) + 5] == bits[5 * c..5 * c + 5];
    }
  }

  lemma EmptyBits()
    ensures FromBits([]) == 0
  {
  }

  /** Collects the five bits of one character. */
  method TakeValue(bytes: Bytes, start: nat) returns (v: Digit)
    requires |bytes| == 16 && start + 5 <= 128
    ensures v == FromBits(BitsOf(bytes)[start..start + 5])
  {
    hide BitsOf, ToBits, FromBits, Power2;
    ghost var bits := BitsOf(bytes);
    var n: nat := 0;
    EmptyBits();
    for k := 0 to 5
      invariant n == FromBits(bits[start..start + k])
    {
      var pos := start + k;
      BitsOfAt(bytes, pos);
      AppendBit(bits[start..start + k], bits[pos]);
      assert bits[start..start + k + 1] == bits[start..start + k] + [bits[pos]];
      if ToBits(bytes[pos / 8], 8)[pos % 8] {
        n := n + Power2(k);
      }
    }
    SmallPowers();
    v := n;
  }

  /** Writes the characters of a pass code, as many as the buffer takes. */
  method Encode(bytes: Bytes, bits: nat, out: array<char>) returns (n: nat)
    requires |bytes| == 16
    modifies out
    ensures n == if CharsFor(bits) <= out.Length then CharsFor(bits) else out.Length
    ensures out[..n] == Text(Digits(FromLe(bytes), CharsFor(bits)))[..n]
  {
    hide BitsOf, Digits, FromLe, Letter;
    var chars := CharsFor(bits);
    ghost var vs := Digits(FromLe(bytes), chars);
    BitsOfValue(bytes);
    n := 0;
    while n < chars
      invariant n <= chars && n <= out.Length && out[..n] == Text(vs)[..n]
    {
      var v := TakeValue(bytes, n * 5);
      DigitAt(BitsOf(bytes), chars, n);
      if n >= out.Length {
        break;
      }
      out[n] := Letter(v);
      assert out[..n + 1] == out[..n] + [Letter(vs[n])];
      n := n + 1;
    }
  }

  // ------------------------------------------------------------------
  // Round trips
  // ------------------------------------------------------------------

  /** A code in upper case and without separators. */
  function Stripped(code: string, i: nat): string
    requires i <= |code|
    decreases |code| - i
  {
    if i == |code| then ""
    else if IsSeparator(code[i]) then Stripped(code, i + 1)
    else [Upper(code[i])] + Stripped(code, i + 1)
  }

  lemma {:induction false} ScanText(code: string, i: nat, vs: seq<Digit>)
    requires i <= |code| && Scan(code, i, vs).Ok?
    ensures Text(Scan(code, i, vs).value) == Text(vs) + Stripped(code, i)
    ensures |vs| <= MAX_CHARS ==> 1 <= |Scan(code, i, vs).value| <= MAX_CHARS
    decreases |code| - i
  {
    hide Letter;
    if i < |code| {
      if IsSeparator(code[i]) {
        ScanText(code, i + 1, vs);
      } else {
        var v := ValueOf(code[i]).value;
        ScanText(code, i + 1, vs + [v]);
        ValueExactly(code[i], v);
        assert Text(vs + [v]) == Text(vs) + [Letter(v)];
      }
    }
  }

  lemma {:induction false} ScanOfText(vs: seq<Digit>, i: nat)
    requires i <= |vs| && 1 <= |vs| <= MAX_CHARS
    ensures Scan(Text(vs), i, vs[..i]) == Ok(vs)
    decreases |vs| - i
  {
    hide ValueOf;
    if i == |vs| {
      assert vs[..i] == vs;
    } else {
      ScanOfText(vs, i + 1);
      var c := Letter(vs[i]);
      assert Upper(c) == c;
      ValueExactly(c, vs[i]);
      assert vs[..i + 1] == vs[..i] + [vs[i]];
    }
  }

  /** Decoding yields the little-endian number of the values, below 32 to the number of
      characters, and encoding that gives the code back in upper case without separators. */
  lemma DecodeThenEncode(code: string)
    requires Scan(code, 0, []).Ok?
    ensures var vs := Scan(code, 0, []).value;
            var p := Packed(vs);
            && FromLe(p.bytes) == Number(vs) < Power32(|vs|) && p.bits == 5 * |vs|
            && Text(Digits(FromLe(p.bytes), CharsFor(p.bits))) == Stripped(code, 0)
  {
    hide Letter, Le, FromLe, Digits, Scan;
    var vs := Scan(code, 0, []).value;
    ScanText(code, 0, []);
    NumberDigits(vs);
    PowerRange(|vs|);
    LeRoundTrip(Number(vs), 16);
    assert Text([]) == "";
  }

  /** 25 characters fit into 16 octets. */
  lemma PowerRange(n: nat)
    requires n <= MAX_CHARS
    ensures Power32(n) <= Range(16)
  {
    PowerGrows(n, MAX_CHARS);
    PowerSquare(12, 12);
    PowerSquare(24, 1);
    PowerFour();
  }

  lemma {:induction false} PowerGrows(n: nat, m: nat)
    requires n <= m
    ensures 0 < Power32(n) <= Power32(m)
  {
    if n < m {
      PowerGrows(n, m - 1);
    } else if n > 0 {
      PowerGrows(n - 1, m - 1);
    }
  }

  lemma {:induction false} PowerSquare(a: nat, b: nat)
    ensures Power32(a + b) == Power32(a) * Power32(b)
  {
    if a > 0 {
      PowerSquare(a - 1, b);
    }
  }

  lemma PowerFour()
    ensures Power32(1) == 32 && Power32(12) == 0x1000_0000_0000_0000
    ensures Range(16) == 0x1_0000_0000_0000_0000 * 0x1_0000_0000_0000_0000
  {
    assert Power32(4) == 0x10_0000;
    PowerSquare(4, 4);
    PowerSquare(8, 4);
    Ranges();
    assert Range(12) == 0x1_0000_0000 * Range(8);
    assert Range(16) == 0x1_0000_0000 * Range(12);
  }

  /** Encoding any value below 32 to the number of characters and decoding it is the identity. */
  lemma EncodeThenDecode(bytes: Bytes, n: nat)
    requires |bytes| == 16 && 1 <= n <= MAX_CHARS && FromLe(bytes) < Power32(n)
    ensures CharsFor(5 * n) == n
    ensures var text := Text(Digits(FromLe(bytes), n));
            Scan(text, 0, []).Ok? && Packed(Scan(text, 0, []).value) == PassCode(bytes, 5 * n)
  {
    hide Le, FromLe, Digits, Scan, Number, Text, Letter, Power32;
    var vs := Digits(FromLe(bytes), n);
    ScanOfText(vs, 0);
    assert vs[..0] == [];
    DigitsNumber(FromLe(bytes), n);
    FromLeRoundTrip(bytes);
  }
}
