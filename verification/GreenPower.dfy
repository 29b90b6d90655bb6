/**
 Green Power vocabulary: device identities, security levels, key types, the GP
 Pairing command and received frames, with symbolic keys and message integrity
 codes.
 */
module GreenPower {
  import opened Types

  const ENDPOINT_ALL: Octet := 0xff
  const ENDPOINT_INDEPENDENT: Octet := 0x00

  /** A Green Power device: a 32-bit source identifier, or an IEEE address and endpoint. */
  datatype GpdId = SrcId(id: U32) | Ieee(address: Address64, endpoint: Octet)

  predicate SameDevice(a: GpdId, b: GpdId) {
    (a.SrcId? && a == b) || (a.Ieee? && b.Ieee? && a.address == b.address)
  }

  /** Whether the table entry of `entry` answers for a frame of `frame`. */
  predicate Matches(entry: GpdId, frame: GpdId) {
    if entry.SrcId? then entry == frame
    else
      && frame.Ieee? && entry.address == frame.address
      && (|| entry.endpoint == frame.endpoint || entry.endpoint == ENDPOINT_ALL
          || frame.endpoint == ENDPOINT_ALL || frame.endpoint == ENDPOINT_INDEPENDENT)
  }

  predicate IsZero(g: GpdId) {
    match g
    case SrcId(id) => id == 0
    case Ieee(address, _) => address == 0
  }

  predicate IsValid(g: GpdId) {
    match g
    case SrcId(id) => 1 <= id <= 0xFFFF_FFF8
    case Ieee(address, _) => address != 0 && address != 0xFFFF_FFFF_FFFF_FFFF
  }

  function IdBits(g: GpdId): Address64 {
    match g
    case SrcId(id) => id
    case Ieee(address, _) => address
  }

  function IdLength(g: GpdId): nat {
    if g.SrcId? then 4 else 9
  }

  predicate ReservedAlias(v: U16) {
    v == 0 || v > 0xFFF7
  }

  /** Exclusive or below `range`, a power of two. */
  function Xor(range: nat, a: nat, b: nat): (r: nat)
    requires range > 0
    ensures r < range
  {
    if range == 1 then 0
    else (if a % 2 == b % 2 then 0 else 1) + 2 * Xor(range / 2, a / 2, b / 2)
  }

  /** The alias (and derived group) of a device: never a reserved network address. */
  function DerivedAlias(g: GpdId): (alias: U16)
    ensures !ReservedAlias(alias)
  {
    var low: U16 := IdBits(g) % 0x1_0000;
    var xored: U16 := Xor(0x1_0000, low, IdBits(g) / 0x1_0000 % 0x1_0000);
    if !ReservedAlias(low) then low
    else if !ReservedAlias(xored) then xored
    else if low == 0 then 0x0007
    else low - 8
  }

  function BitOf(x: nat, i: nat): nat {
    if i == 0 then x % 2 else BitOf(x / 2, i - 1)
  }

  function PowerOfTwo(n: nat): (r: nat)
    ensures r > 0
  {
    if n == 0 then 1 else 2 * PowerOfTwo(n - 1)
  }

  /** Below the range, every bit says whether the two bits differ. */
  lemma {:induction false} XorBits(n: nat, a: nat, b: nat, i: nat)
    requires i < n
    ensures BitOf(Xor(PowerOfTwo(n), a, b), i) == if BitOf(a, i) == BitOf(b, i) then 0 else 1
  {
    if i > 0 {
      XorBits(n - 1, a / 2, b / 2, i - 1);
    }
  }

  /** The alias is the low half of the identifier, and the two lowest halves combined only where
      that is reserved. */
  lemma DerivedAliasIs(g: GpdId)
    ensures var low := IdBits(g) % 0x1_0000;
            var both := Xor(PowerOfTwo(16), low, IdBits(g) / 0x1_0000 % 0x1_0000);
            && (1 <= low <= 0xFFF7 ==> DerivedAlias(g) == low)
            && (!(1 <= low <= 0xFFF7) && 1 <= both <= 0xFFF7 ==> DerivedAlias(g) == both)
            && (low == 0 && !(1 <= both <= 0xFFF7) ==> DerivedAlias(g) == 7)
            && (low > 0xFFF7 && !(1 <= both <= 0xFFF7) ==> DerivedAlias(g) == low - 8)
  {
    hide Xor;
    assert PowerOfTwo(16) == 65536 by {
      assert PowerOfTwo(8) == 256;
    }
  }

  datatype SecurityLevel = Unprotected | Mic | EncryptedMic

  datatype KeyType = NoKey | NwkKey | GroupKey | NwkDerivedGroupKey | Individual | DerivedIndividual

  predicate IsIndividual(k: KeyType) {
    k.Individual? || k.DerivedIndividual?
  }

  /** Keys as terms: stored ones, and those derived from them. */
  datatype Key = Stored(name: nat) | GroupKeyOf(nwk: Key) | IndividualKeyOf(shared: Key, id: Address64)

  /** A message integrity code names everything it was computed over. */
  datatype Tag = Tag(key: Key, level: SecurityLevel, gpd: GpdId, counter: U32, header: seq<Octet>, body: seq<Octet>, plain: seq<Octet>)

  /** What a sealed body can stand for: itself, or as many octets once decrypted. */
  predicate Carries(level: SecurityLevel, body: seq<Octet>, plain: seq<Octet>) {
    if level.EncryptedMic? then |plain| == |body| else plain == body
  }

  /** Verifies and decrypts; succeeds exactly on what was sealed with the same parameters. */
  function Unprotect(key: Key, level: SecurityLevel, gpd: GpdId, counter: U32, header: seq<Octet>, body: seq<Octet>, tag: Tag): Option<seq<Octet>> {
    if tag == Tag(key, level, gpd, counter, header, body, tag.plain) && Carries(level, body, tag.plain)
    then Some(tag.plain) else None
  }

  datatype Mode = FullUnicast | DerivedGroupcast | CommissionedGroupcast | LightweightUnicast

  datatype Sink = Unicast(ieee: Address64, short: U16) | Group(group: U16)

  /** A GP Pairing command; `level` is absent for the reserved encoding. */
  datatype Pairing = Pairing(
    gpd: GpdId, addSink: bool, removeGpd: bool, mode: Mode, gpdFixed: bool, sequenceCapable: bool,
    level: Option<SecurityLevel>, keyType: KeyType, sink: Option<Sink>, frameCounter: Option<U32>,
    key: Option<Key>, assignedAlias: Option<U16>, radius: Option<Octet>)

  /** The sink field has the kind the communication mode calls for, as decoding guarantees. */
  predicate WellFormed(p: Pairing) {
    !p.removeGpd ==>
      && p.sink.Some?
      && (p.sink.value.Unicast? <==> p.mode.FullUnicast? || p.mode.LightweightUnicast?)
  }

  /** A received Green Power frame. */
  datatype Gpdf = Gpdf(
    macSequence: Octet, maintenance: bool, autoCommissioning: bool, fromProxy: bool, rxAfterTx: bool,
    level: SecurityLevel, individualKey: bool, gpd: Option<GpdId>, frameCounter: Option<U32>,
    payload: seq<Octet>, tag: Option<Tag>, header: seq<Octet>)

  const COMMISSIONING: Octet := 0xE0
  const DECOMMISSIONING: Octet := 0xE1
  const CHANNEL_REQUEST: Octet := 0xE3

  predicate IsCommissioning(id: Octet) {
    0xE0 <= id <= 0xEF
  }

  predicate IsToGpd(id: Octet) {
    id >= 0xF0
  }

  predicate IsManufacturerDefined(id: Octet) {
    0xB0 <= id <= 0xBF
  }
}
