/**
 The over-the-air form of Proxy Table and Sink Table entries (sections A.3.4.2.2.1.1
 and A.3.3.2.2.1.1 of GP Basic 1.1.2).
 */
module TableCodec {
  import opened Types
  import opened GreenPower
  import opened Fields
  import opened Cursor

  const LIST_CAPACITY: nat := 2

  type KeyBytes = k: Bytes | |k| == 16 witness [0, 0, 0, 0, 0, 0, 0, 0, 0, 0, 0, 0, 0, 0, 0, 0]

  const ZERO_KEY: KeyBytes := [0, 0, 0, 0, 0, 0, 0, 0, 0, 0, 0, 0, 0, 0, 0, 0]

  datatype WireSecurity = WireSecurity(level: SecurityLevel, keyType: KeyType, key: Option<KeyBytes>)

  type Groups = s: seq<(U16, U16)> | |s| <= LIST_CAPACITY
  type Sinks = s: seq<(Address64, U16)> | |s| <= LIST_CAPACITY

  /** An entry of either table as the format sees it, with key octets. */
  datatype Record =
    | ProxyRecord(
        gpd: GpdId, active: bool, valid: bool, sequenceCapable: bool, sinks: Sinks, derivedGroup: bool,
        groups: Groups, gpdFixed: bool, inRange: bool, assignedAlias: Option<U16>, security: Option<WireSecurity>,
        frameCounter: U32, radius: Octet, searchCounter: Octet)
    | SinkRecord(
        gpd: GpdId, mode: Mode, sequenceCapable: bool, rxOnCapable: bool, fixedLocation: bool, deviceId: Octet,
        groups: Groups, assignedAlias: Option<U16>, radius: Octet, security: Option<WireSecurity>, frameCounter: U32)

  // ------------------------------------------------------------------
  // Raw values
  // ------------------------------------------------------------------

  function LevelRaw(l: SecurityLevel): Octet {
    match l
    case Unprotected => 0
    case Mic => 2
    case EncryptedMic => 3
  }

  function LevelOf(raw: Octet): Option<SecurityLevel> {
    match raw
    case 0 => Some(Unprotected)
    case 2 => Some(Mic)
    case 3 => Some(EncryptedMic)
    case _ => None
  }

  function KeyTypeRaw(k: KeyType): Octet {
    match k
    case NoKey => 0
    case NwkKey => 1
    case GroupKey => 2
    case NwkDerivedGroupKey => 3
    case Individual => 4
    case DerivedIndividual => 7
  }

  function KeyTypeOf(raw: Octet): Option<KeyType> {
    match raw
    case 0 => Some(NoKey)
    case 1 => Some(NwkKey)
    case 2 => Some(GroupKey)
    case 3 => Some(NwkDerivedGroupKey)
    case 4 => Some(Individual)
    case 7 => Some(DerivedIndividual)
    case _ => None
  }

  function ModeBits(m: Mode): (bool, bool) {
    match m
    case FullUnicast => (false, false)
    case DerivedGroupcast => (true, false)
    case CommissionedGroupcast => (false, true)
    case LightweightUnicast => (true, true)
  }

  function ModeOf(low: bool, high: bool): Mode {
    if low then (if high then LightweightUnicast else DerivedGroupcast)
    else if high then CommissionedGroupcast else FullUnicast
  }

  // ------------------------------------------------------------------
  // Printing
  // ------------------------------------------------------------------

  function OptionBits(e: Record): (bits: seq<bool>)
    ensures |bits| == 16
  {
    if e.ProxyRecord? then
      [false, e.gpd.Ieee?, false, e.active, e.valid, e.sequenceCapable, e.sinks != [], e.derivedGroup,
       e.groups != [], false, e.inRange, e.gpdFixed, false, e.assignedAlias.Some?, e.security.Some?, false]
    else
      [false, e.gpd.Ieee?, false, ModeBits(e.mode).0, ModeBits(e.mode).1, e.sequenceCapable, e.rxOnCapable, e.fixedLocation,
       e.assignedAlias.Some?, e.security.Some?, false, false, false, false, false, false]
  }

  function Options(e: Record): U16 {
    Pack(OptionBits(e))
  }

  function PrintId(g: GpdId): (b: Bytes)
    ensures |b| == IdLength(g)
  {
    match g
    case SrcId(id) => Print32(id)
    case Ieee(address, endpoint) => Print64(address) + [endpoint]
  }

  function PrintLevel(s: Option<WireSecurity>): (b: Bytes)
    ensures |b| == if s.Some? then 1 else 0
  {
    if s.Some? then [LevelRaw(s.value.level) + 4 * KeyTypeRaw(s.value.keyType)] else []
  }

  /** A missing key is sent as zeroes. */
  function PrintKey(s: Option<WireSecurity>): (b: Bytes)
    ensures |b| == if s.Some? then 16 else 0
  {
    if s.None? then [] else if s.value.key.Some? then s.value.key.value else ZERO_KEY
  }

  predicate HasCounter(e: Record) {
    e.security.Some? || e.sequenceCapable
  }

  function PrintSinkList(s: Sinks): (b: Bytes)
    ensures |b| == if s == [] then 0 else 1 + 10 * |s|
  {
    if s == [] then [] else [|s|] + PrintSinks(s)
  }

  /** Only commissioned groupcast carries the groups, even when there are none. */
  function PrintCommissioned(m: Mode, s: Groups): (b: Bytes)
    ensures |b| == if m.CommissionedGroupcast? then 1 + 4 * |s| else 0
  {
    if m.CommissionedGroupcast? then [|s|] + PrintGroups(s) else []
  }

  function PrintGroupList(s: Groups): (b: Bytes)
    ensures |b| == if s == [] then 0 else 1 + 4 * |s|
  {
    if s == [] then [] else [|s|] + PrintGroups(s)
  }

  /** The fields of an entry in the order of the format. */
  function ProxyFields(e: Record): seq<Bytes>
    requires e.ProxyRecord?
  {
    [Print16(Options(e)), PrintId(e.gpd), PrintOpt16(e.assignedAlias), PrintLevel(e.security),
     PrintOpt32(HasCounter(e), e.frameCounter), PrintKey(e.security), PrintSinkList(e.sinks), PrintGroupList(e.groups),
     [e.radius], PrintOpt8(!e.active || !e.valid, e.searchCounter)]
  }

  function SinkFields(e: Record): seq<Bytes>
    requires e.SinkRecord?
  {
    [Print16(Options(e)), PrintId(e.gpd), [e.deviceId], PrintCommissioned(e.mode, e.groups), PrintOpt16(e.assignedAlias),
     [e.radius], PrintLevel(e.security), PrintOpt32(HasCounter(e), e.frameCounter), PrintKey(e.security)]
  }

  function FieldsOf(e: Record): seq<Bytes> {
    if e.ProxyRecord? then ProxyFields(e) else SinkFields(e)
  }

  function Encode(e: Record): Bytes {
    Joined(FieldsOf(e))
  }

  /** The length an entry announces for itself. */
  function EncodedLength(e: Record): nat {
    var common := 2 + IdLength(e.gpd) + 1
                  + (if e.assignedAlias.Some? then 2 else 0)
                  + (if e.security.Some? then 1 + 16 else 0)
                  + (if HasCounter(e) then 4 else 0);
    if e.ProxyRecord? then
      common + (if e.sinks != [] then 1 + 10 * |e.sinks| else 0) + (if e.groups != [] then 1 + 4 * |e.groups| else 0)
      + if !e.active || !e.valid then 1 else 0
    else
      common + 1 + if e.mode.CommissionedGroupcast? then 1 + 4 * |e.groups| else 0
  }

  /** The octets of the fields from `i` on. */
  function SumFrom(f: seq<Bytes>, i: nat): nat
    requires i <= |f|
    decreases |f| - i
  {
    if i == |f| then 0 else |f[i]| + SumFrom(f, i + 1)
  }

  lemma {:induction false} JoinedLength(f: seq<Bytes>, i: nat)
    requires i <= |f|
    ensures |Joined(f[i..])| == SumFrom(f, i)
    decreases |f| - i
  {
    if i < |f| {
      JoinedLength(f, i + 1);
      assert f[i..][1..] == f[i + 1..];
    }
  }

  lemma SumOfFive(f: seq<Bytes>, i: nat)
    requires i + 5 <= |f|
    ensures SumFrom(f, i) == |f[i]| + |f[i + 1]| + |f[i + 2]| + |f[i + 3]| + |f[i + 4]| + SumFrom(f, i + 5)
  {
    assert SumFrom(f, i + 4) == |f[i + 4]| + SumFrom(f, i + 5);
    assert SumFrom(f, i + 3) == |f[i + 3]| + SumFrom(f, i + 4);
    assert SumFrom(f, i + 2) == |f[i + 2]| + SumFrom(f, i + 3);
  }

  lemma JoinedTotal(f: seq<Bytes>)
    requires |f| == 9 || |f| == 10
    ensures |Joined(f)| == |f[0]| + |f[1]| + |f[2]| + |f[3]| + |f[4]| + |f[5]| + |f[6]| + |f[7]| + |f[8]| + if |f| == 10 then |f[9]| else 0
  {
    JoinedLength(f, 0);
    assert f[0..] == f;
    SumOfFive(f, 0);
    assert SumFrom(f, 8) == |f[8]| + SumFrom(f, 9);
    assert SumFrom(f, 7) == |f[7]| + SumFrom(f, 8);
    assert SumFrom(f, 6) == |f[6]| + SumFrom(f, 7);
  }

  /** Every entry writes exactly the octets it announces. */
  lemma EncodedExactly(e: Record)
    ensures |Encode(e)| == EncodedLength(e)
  {
    var f := FieldsOf(e);
    if e.ProxyRecord? {
    } else {
    }
    JoinedTotal(f);
  }

  // ------------------------------------------------------------------
  // Reading
  // ------------------------------------------------------------------

  function ReadId(ieee: bool, b: Bytes): (r: Parsed<GpdId>)
    ensures r.Got? ==> |r.rest| <= |b|
  {
    if ieee then
      var address :- ReadU64(b);
      var endpoint :- ReadU8(address.1);
      Got(Ieee(address.0, endpoint.0), endpoint.1)
    else
      var id :- ReadU32(b);
      Got(SrcId(id.0), id.1)
  }

  /** Level and key type; the reserved values are refused. */
  function ReadLevel(present: bool, b: Bytes): (r: Parsed<Option<WireSecurity>>)
    ensures r.Got? ==> |r.rest| <= |b|
  {
    if !present then Got(None, b)
    else
      var o :- ReadU8(b);
      var level, keyType := LevelOf(o.0 % 4), KeyTypeOf(o.0 / 4 % 8);
      if level.None? || keyType.None? then Bad else Got(Some(WireSecurity(level.value, keyType.value, None)), o.1)
  }

  /** Zeroes stand for a missing key. */
  function ReadKey(s: Option<WireSecurity>, b: Bytes): (r: Parsed<Option<WireSecurity>>)
    ensures r.Got? ==> |r.rest| <= |b|
  {
    if s.None? then Got(None, b)
    else
      var k :- ReadBytes(b, 16);
      Got(Some(s.value.(key := if k.0 == ZERO_KEY then None else Some(k.0))), k.1)
  }

  function TakeGroups(s: seq<(U16, U16)>): Groups {
    if |s| <= LIST_CAPACITY then s else s[..LIST_CAPACITY]
  }

  function TakeSinks(s: seq<(Address64, U16)>): Sinks {
    if |s| <= LIST_CAPACITY then s else s[..LIST_CAPACITY]
  }

  function ReadGroupList(present: bool, b: Bytes): (r: Parsed<Groups>)
    ensures r.Got? ==> |r.rest| <= |b|
  {
    if !present then Got([], b)
    else
      var n :- ReadU8(b);
      var s :- ReadGroups(n.1, n.0);
      Got(TakeGroups(s.0), s.1)
  }

  function ReadSinkList(present: bool, b: Bytes): (r: Parsed<Sinks>)
    ensures r.Got? ==> |r.rest| <= |b|
  {
    if !present then Got([], b)
    else
      var n :- ReadU8(b);
      var s :- ReadSinks(n.1, n.0);
      Got(TakeSinks(s.0), s.1)
  }

  function ProxyBody(bits: seq<bool>, b: Bytes): (r: Parsed<Record>)
    requires |bits| == 16
    ensures r.Got? ==> |r.rest| <= |b|
  {
    var gpd :- ReadId(bits[1], b);
    var alias :- ReadOpt16(bits[13], gpd.1);
    var level :- ReadLevel(bits[14], alias.1);
    var counter :- ReadOpt32(bits[14] || bits[5], level.1);
    var security :- ReadKey(level.0, counter.1);
    var sinks :- ReadSinkList(bits[6], security.1);
    var groups :- ReadGroupList(bits[8], sinks.1);
    var radius :- ReadU8(groups.1);
    var search :- ReadOpt8(!bits[3] || !bits[4], radius.1);
    Got(ProxyRecord(gpd.0, bits[3], bits[4], bits[5], sinks.0, bits[7], groups.0, bits[11], bits[10], alias.0, security.0,
                    counter.0, radius.0, search.0), search.1)
  }

  function SinkBody(bits: seq<bool>, b: Bytes): (r: Parsed<Record>)
    requires |bits| == 16
    ensures r.Got? ==> |r.rest| <= |b|
  {
    var mode := ModeOf(bits[3], bits[4]);
    var gpd :- ReadId(bits[1], b);
    var device :- ReadU8(gpd.1);
    var groups :- ReadGroupList(mode.CommissionedGroupcast?, device.1);
    var alias :- ReadOpt16(bits[8], groups.1);
    var radius :- ReadU8(alias.1);
    var level :- ReadLevel(bits[9], radius.1);
    var counter :- ReadOpt32(bits[9] || bits[5], level.1);
    var security :- ReadKey(level.0, counter.1);
    Got(SinkRecord(gpd.0, mode, bits[5], bits[6], bits[7], device.0, groups.0, alias.0, radius.0, security.0, counter.0), security.1)
  }

  /** Reads an entry; reserved application identifiers are refused. */
  function Decode(proxy: bool, b: Bytes): (r: Parsed<Record>)
    ensures r.Got? ==> |r.rest| < |b|
  {
    var o :- ReadU16(b);
    var bits := Unpack(o.0);
    if bits[0] || bits[2] then Bad
    else if proxy then ProxyBody(bits, o.1)
    else SinkBody(bits, o.1)
  }

  /** An entry without what the format does not carry. */
  function Normal(e: Record): Record {
    var security := if e.security.Some? && e.security.value.key == Some(ZERO_KEY) then Some(e.security.value.(key := None)) else e.security;
    var counter := if HasCounter(e) then e.frameCounter else 0;
    if e.ProxyRecord? then
      ProxyRecord(e.gpd, e.active, e.valid, e.sequenceCapable, e.sinks, e.derivedGroup, e.groups, e.gpdFixed, e.inRange,
                  e.assignedAlias, security, counter, e.radius, if e.active && e.valid then 0 else e.searchCounter)
    else
      SinkRecord(e.gpd, e.mode, e.sequenceCapable, e.rxOnCapable, e.fixedLocation, e.deviceId,
                 if e.mode.CommissionedGroupcast? then e.groups else [], e.assignedAlias, e.radius, security, counter)
  }

  // ------------------------------------------------------------------
  // Round trip
  // ------------------------------------------------------------------

  lemma ReadPrintedId(g: GpdId, rest: Bytes)
    ensures ReadId(g.Ieee?, PrintId(g) + rest) == Got(g, rest)
  {
    match g
    case SrcId(id) => ReadPrinted32(id, rest);
    case Ieee(address, endpoint) =>
      Associative(Print64(address), [endpoint], rest);
      ReadPrinted64(address, [endpoint] + rest);
      ReadPrinted8(endpoint, rest);
  }

  function WithoutKey(s: Option<WireSecurity>): Option<WireSecurity> {
    if s.Some? then Some(s.value.(key := None)) else None
  }

  lemma ReadPrintedLevel(s: Option<WireSecurity>, rest: Bytes)
    ensures ReadLevel(s.Some?, PrintLevel(s) + rest) == Got(WithoutKey(s), rest)
  {
    if s.Some? {
      ReadPrinted8(LevelRaw(s.value.level) + 4 * KeyTypeRaw(s.value.keyType), rest);
    } else {
      assert [] + rest == rest;
    }
  }

  lemma ReadPrintedKey(s: Option<WireSecurity>, rest: Bytes)
    ensures ReadKey(WithoutKey(s), PrintKey(s) + rest)
            == Got(if s.Some? && s.value.key == Some(ZERO_KEY) then WithoutKey(s) else s, rest)
  {
    if s.Some? {
      Front(PrintKey(s), rest);
    } else {
      assert [] + rest == rest;
    }
  }

  lemma ReadPrintedSinkList(s: Sinks, rest: Bytes)
    ensures ReadSinkList(s != [], PrintSinkList(s) + rest) == Got(s, rest)
  {
    if s != [] {
      Associative([|s|], PrintSinks(s), rest);
      ReadPrinted8(|s|, PrintSinks(s) + rest);
      ReadPrintedSinks(s, rest);
    } else {
      assert [] + rest == rest;
    }
  }

  lemma ReadPrintedGroupList(present: bool, s: Groups, rest: Bytes)
    ensures ReadGroupList(present, (if present then [|s|] + PrintGroups(s) else []) + rest) == Got(if present then s else [], rest)
  {
    if present {
      Associative([|s|], PrintGroups(s), rest);
      ReadPrinted8(|s|, PrintGroups(s) + rest);
      ReadPrintedGroups(s, rest);
    } else {
      assert [] + rest == rest;
    }
  }

  lemma ReadPrintedProxyGroups(s: Groups, rest: Bytes)
    ensures ReadGroupList(s != [], PrintGroupList(s) + rest) == Got(s, rest)
  {
    ReadPrintedGroupList(s != [], s, rest);
  }

  lemma ReadPrintedCommissioned(m: Mode, s: Groups, rest: Bytes)
    ensures ReadGroupList(m.CommissionedGroupcast?, PrintCommissioned(m, s) + rest)
            == Got(if m.CommissionedGroupcast? then s else [], rest)
  {
    ReadPrintedGroupList(m.CommissionedGroupcast?, s, rest);
  }

  /** The fields from `i` on in front of `rest`. */
  function Onto(f: seq<Bytes>, i: nat, rest: Bytes): Bytes
    requires i <= |f|
    decreases |f| - i
  {
    if i == |f| then rest else f[i] + Onto(f, i + 1, rest)
  }

  lemma {:induction false} JoinedOnto(f: seq<Bytes>, i: nat, rest: Bytes)
    requires i <= |f|
    ensures Joined(f[i..]) + rest == Onto(f, i, rest)
    decreases |f| - i
  {
    if i == |f| {
      assert [] + rest == rest;
    } else {
      JoinedOnto(f, i + 1, rest);
      assert f[i..][1..] == f[i + 1..];
      Associative(f[i], Joined(f[i + 1..]), rest);
    }
  }

  lemma ProxyBodyIs(
    bits: seq<bool>, b0: Bytes, gpd: GpdId, b1: Bytes, alias: Option<U16>, b2: Bytes, level: Option<WireSecurity>, b3: Bytes,
    counter: U32, b4: Bytes, security: Option<WireSecurity>, b5: Bytes, sinks: Sinks, b6: Bytes, groups: Groups, b7: Bytes,
    radius: Octet, b8: Bytes, search: Octet, b9: Bytes)
    requires |bits| == 16
    requires ReadId(bits[1], b0) == Got(gpd, b1) && ReadOpt16(bits[13], b1) == Got(alias, b2)
    requires ReadLevel(bits[14], b2) == Got(level, b3) && ReadOpt32(bits[14] || bits[5], b3) == Got(counter, b4)
    requires ReadKey(level, b4) == Got(security, b5) && ReadSinkList(bits[6], b5) == Got(sinks, b6)
    requires ReadGroupList(bits[8], b6) == Got(groups, b7) && ReadU8(b7) == Got(radius, b8)
    requires ReadOpt8(!bits[3] || !bits[4], b8) == Got(search, b9)
    ensures ProxyBody(bits, b0)
            == Got(ProxyRecord(gpd, bits[3], bits[4], bits[5], sinks, bits[7], groups, bits[11], bits[10], alias, security,
                               counter, radius, search), b9)
  {
  }

  lemma SinkBodyIs(
    bits: seq<bool>, b0: Bytes, gpd: GpdId, b1: Bytes, device: Octet, b2: Bytes, groups: Groups, b3: Bytes,
    alias: Option<U16>, b4: Bytes, radius: Octet, b5: Bytes, level: Option<WireSecurity>, b6: Bytes, counter: U32, b7: Bytes,
    security: Option<WireSecurity>, b8: Bytes)
    requires |bits| == 16
    requires ReadId(bits[1], b0) == Got(gpd, b1) && ReadU8(b1) == Got(device, b2)
    requires ReadGroupList(ModeOf(bits[3], bits[4]).CommissionedGroupcast?, b2) == Got(groups, b3)
    requires ReadOpt16(bits[8], b3) == Got(alias, b4) && ReadU8(b4) == Got(radius, b5)
    requires ReadLevel(bits[9], b5) == Got(level, b6) && ReadOpt32(bits[9] || bits[5], b6) == Got(counter, b7)
    requires ReadKey(level, b7) == Got(security, b8)
    ensures SinkBody(bits, b0)
            == Got(SinkRecord(gpd, ModeOf(bits[3], bits[4]), bits[5], bits[6], bits[7], device, groups, alias, radius,
                              security, counter), b8)
  {
  }

  /** The fields one after the other, each followed by the rest of the octets. */
  lemma ProxyBodyReads(
    e: Record, b0: Bytes, b1: Bytes, b2: Bytes, b3: Bytes, b4: Bytes, b5: Bytes, b6: Bytes, b7: Bytes, b8: Bytes, b9: Bytes)
    requires e.ProxyRecord?
    requires b0 == PrintId(e.gpd) + b1 && b1 == PrintOpt16(e.assignedAlias) + b2 && b2 == PrintLevel(e.security) + b3
    requires b3 == PrintOpt32(HasCounter(e), e.frameCounter) + b4 && b4 == PrintKey(e.security) + b5
    requires b5 == PrintSinkList(e.sinks) + b6 && b6 == PrintGroupList(e.groups) + b7 && b7 == [e.radius] + b8
    requires b8 == PrintOpt8(!e.active || !e.valid, e.searchCounter) + b9
    ensures ProxyBody(OptionBits(e), b0) == Got(Normal(e), b9)
  {
    hide ReadId, ReadLevel, ReadKey, ReadSinkList, ReadGroupList, ReadOpt16, ReadOpt32, ReadOpt8, ReadU8, ProxyBody, SinkBody;
    hide PrintId, PrintLevel, PrintKey, PrintSinkList, PrintGroupList, PrintCommissioned, PrintOpt16, PrintOpt32, PrintOpt8;
    var n := Normal(e);
    ReadPrintedId(e.gpd, b1);
    ReadPrintedOpt16(e.assignedAlias, b2);
    ReadPrintedLevel(e.security, b3);
    ReadPrintedOpt32(HasCounter(e), e.frameCounter, b4);
    ReadPrintedKey(e.security, b5);
    ReadPrintedSinkList(e.sinks, b6);
    ReadPrintedProxyGroups(e.groups, b7);
    ReadPrinted8(e.radius, b8);
    ReadPrintedOpt8(!e.active || !e.valid, e.searchCounter, b9);
    ProxyBodyIs(OptionBits(e), b0, e.gpd, b1, e.assignedAlias, b2, WithoutKey(e.security), b3, n.frameCounter, b4,
                n.security, b5, e.sinks, b6, e.groups, b7, e.radius, b8, n.searchCounter, b9);
  }

  lemma ProxyBodyRoundTrip(e: Record, f: seq<Bytes>, rest: Bytes)
    requires e.ProxyRecord? && f == ProxyFields(e)
    ensures ProxyBody(OptionBits(e), Onto(f, 1, rest)) == Got(Normal(e), rest)
  {
    hide ProxyBody, OptionBits, Normal, HasCounter, Options;
    hide PrintId, PrintLevel, PrintKey, PrintSinkList, PrintGroupList, PrintOpt16, PrintOpt32, PrintOpt8, Print16;
    ProxyBodyReads(e, Onto(f, 1, rest), Onto(f, 2, rest), Onto(f, 3, rest), Onto(f, 4, rest), Onto(f, 5, rest),
                   Onto(f, 6, rest), Onto(f, 7, rest), Onto(f, 8, rest), Onto(f, 9, rest), Onto(f, 10, rest));
  }

  lemma SinkBodyReads(
    e: Record, b0: Bytes, b1: Bytes, b2: Bytes, b3: Bytes, b4: Bytes, b5: Bytes, b6: Bytes, b7: Bytes, b8: Bytes)
    requires e.SinkRecord?
    requires b0 == PrintId(e.gpd) + b1 && b1 == [e.deviceId] + b2 && b2 == PrintCommissioned(e.mode, e.groups) + b3
    requires b3 == PrintOpt16(e.assignedAlias) + b4 && b4 == [e.radius] + b5 && b5 == PrintLevel(e.security) + b6
    requires b6 == PrintOpt32(HasCounter(e), e.frameCounter) + b7 && b7 == PrintKey(e.security) + b8
    ensures SinkBody(OptionBits(e), b0) == Got(Normal(e), b8)
  {
    hide ReadId, ReadLevel, ReadKey, ReadSinkList, ReadGroupList, ReadOpt16, ReadOpt32, ReadOpt8, ReadU8, ProxyBody, SinkBody;
    hide PrintId, PrintLevel, PrintKey, PrintSinkList, PrintGroupList, PrintCommissioned, PrintOpt16, PrintOpt32, PrintOpt8;
    var n := Normal(e);
    ReadPrintedId(e.gpd, b1);
    ReadPrinted8(e.deviceId, b2);
    ReadPrintedCommissioned(e.mode, e.groups, b3);
    ReadPrintedOpt16(e.assignedAlias, b4);
    ReadPrinted8(e.radius, b5);
    ReadPrintedLevel(e.security, b6);
    ReadPrintedOpt32(HasCounter(e), e.frameCounter, b7);
    ReadPrintedKey(e.security, b8);
    SinkBodyIs(OptionBits(e), b0, e.gpd, b1, e.deviceId, b2, n.groups, b3, e.assignedAlias, b4, e.radius, b5,
               WithoutKey(e.security), b6, n.frameCounter, b7, n.security, b8);
  }

  lemma SinkBodyRoundTrip(e: Record, f: seq<Bytes>, rest: Bytes)
    requires e.SinkRecord? && f == SinkFields(e)
    ensures SinkBody(OptionBits(e), Onto(f, 1, rest)) == Got(Normal(e), rest)
  {
    hide SinkBody, OptionBits, Normal, HasCounter, Options;
    hide PrintId, PrintLevel, PrintKey, PrintCommissioned, PrintOpt16, PrintOpt32, Print16;
    SinkBodyReads(e, Onto(f, 1, rest), Onto(f, 2, rest), Onto(f, 3, rest), Onto(f, 4, rest), Onto(f, 5, rest),
                  Onto(f, 6, rest), Onto(f, 7, rest), Onto(f, 8, rest), Onto(f, 9, rest));
  }

  lemma FirstField(e: Record)
    ensures |FieldsOf(e)| > 0 && FieldsOf(e)[0] == Print16(Options(e))
    ensures !OptionBits(e)[0] && !OptionBits(e)[2]
  {
    hide Pack, Print16, PrintId, PrintLevel, PrintKey, PrintSinkList, PrintGroupList, PrintCommissioned, PrintOpt16, PrintOpt32, PrintOpt8;
  }

  /** Reading a written entry gives it back up to the fields the format does not carry. */
  lemma EntryRoundTrip(e: Record, rest: Bytes)
    ensures Decode(e.ProxyRecord?, Encode(e) + rest) == Got(Normal(e), rest)
  {
    hide ReadU16, Print16, ProxyBody, SinkBody, Pack, Unpack, Normal, OptionBits, ProxyFields, SinkFields;
    var f := FieldsOf(e);
    FirstField(e);
    JoinedOnto(f, 0, rest);
    assert f[0..] == f;
    PackRoundTrip(OptionBits(e));
    ReadPrinted16(Options(e), Onto(f, 1, rest));
    if e.ProxyRecord? {
      ProxyBodyRoundTrip(e, f, rest);
    } else {
      SinkBodyRoundTrip(e, f, rest);
    }
  }
}
