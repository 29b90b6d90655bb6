/**
 Zigbee Direct commissioning payloads (section 7.7.2 of ZD 1.1): Form Network, Join
 Network and Manage Joiners writes as sets of TLVs, with the usage rules of each.
 */
module CommissioningPayloads {
  import opened Types
  import opened Collections
  import opened Fields
  import opened Cursor
  import opened Tlv

  type KeyBytes = k: Bytes | |k| == 16 witness [0, 0, 0, 0, 0, 0, 0, 0, 0, 0, 0, 0, 0, 0, 0, 0]

  const EXTENDED_PAN_ID: Octet := 0x00
  const SHORT_PAN_ID: Octet := 0x01
  const NETWORK_CHANNEL: Octet := 0x02
  const NETWORK_KEY: Octet := 0x03
  const LINK_KEY: Octet := 0x04
  const DEVICE_TYPE: Octet := 0x05
  const NWK_ADDRESS: Octet := 0x06
  const JOINING_METHOD: Octet := 0x07
  const IEEE_ADDRESS: Octet := 0x08
  const TRUST_CENTER_ADDRESS: Octet := 0x09
  const NETWORK_STATUS_MAP: Octet := 0x0a
  const NWK_UPDATE_ID: Octet := 0x0b
  const ACTIVE_KEY_SEQUENCE: Octet := 0x0c
  const ADMIN_KEY: Octet := 0x0d

  const JOINER_KEY: Octet := 0x00
  const JOINER_ADDRESS: Octet := 0x01
  const JOINER_COMMAND: Octet := 0x02

  const ALL_ONES: Address64 := 0xFFFF_FFFF_FFFF_FFFF

  datatype ParseError = Malformed | MissingTlv(tag: Octet) | InvalidTlv(tag: Octet) | OutOfRange(tag: Octet)

  datatype Result<+T> = Ok(value: T) | Err(error: ParseError) {
    predicate IsFailure() {
      Err?
    }

    function PropagateFailure<U>(): Result<U>
      requires IsFailure()
    {
      Err(error)
    }

    function Extract(): T
      requires !IsFailure()
    {
      value
    }
  }

  datatype LinkKey = LinkKey(unique: bool, provisional: bool, key: KeyBytes)

  datatype FormNetwork = FormNetwork(
    distributed: bool, extendedPanId: Option<Address64>, panId: Option<U16>, channels: Option<U32>,
    networkKey: Option<KeyBytes>, linkKey: Option<LinkKey>, nwkAddress: Option<U16>, updateId: Option<Octet>,
    adminKey: Option<KeyBytes>)

  datatype Method = Association | Rejoin | OutOfBand

  datatype JoinNetwork = JoinNetwork(
    method_: Method, extendedPanId: Option<Address64>, panId: Option<U16>, channels: Option<U32>,
    networkKey: Option<KeyBytes>, linkKey: Option<LinkKey>, nwkAddress: Option<U16>, trustCenter: Option<Address64>,
    updateId: Option<Octet>, keySequence: Option<Octet>, adminKey: Option<KeyBytes>)

  datatype ManageJoiners = DropAll | Add(ieee: Address64, key: KeyBytes) | Remove(ieee: Address64)

  // ------------------------------------------------------------------
  // Values of TLVs
  // ------------------------------------------------------------------

  function Opt64(x: Option<Address64>): (v: Option<Bytes>)
    ensures v.Some? ==> |v.value| == 8
  {
    if x.Some? then Some(Print64(x.value)) else None
  }

  function Opt16(x: Option<U16>): (v: Option<Bytes>)
    ensures v.Some? ==> |v.value| == 2
  {
    if x.Some? then Some(Print16(x.value)) else None
  }

  function Opt8(x: Option<Octet>): (v: Option<Bytes>)
    ensures v.Some? ==> |v.value| == 1
  {
    if x.Some? then Some([x.value]) else None
  }

  function OptKey(x: Option<KeyBytes>): (v: Option<Bytes>)
    ensures v.Some? ==> |v.value| == 16
  {
    if x.Some? then Some(x.value) else None
  }

  function OptLinkKey(x: Option<LinkKey>): (v: Option<Bytes>)
    ensures v.Some? ==> |v.value| == 17
  {
    if x.Some? then Some([(if x.value.unique then 1 else 0) + if x.value.provisional then 2 else 0] + x.value.key) else None
  }

  /** One channel page. */
  function OptChannels(x: Option<U32>): (v: Option<Bytes>)
    ensures v.Some? ==> |v.value| == 5
  {
    if x.Some? then Some([1] + Print32(x.value)) else None
  }

  function Eui64(v: Option<Bytes>): Result<Option<Address64>> {
    if v.None? then Ok(None)
    else if |v.value| != 8 then Err(ParseError.Malformed)
    else Ok(Some(ReadU64(v.value).value))
  }

  function U16Value(v: Option<Bytes>): Result<Option<U16>> {
    if v.None? then Ok(None)
    else if |v.value| != 2 then Err(ParseError.Malformed)
    else Ok(Some(ReadU16(v.value).value))
  }

  function U8Value(v: Option<Bytes>): Result<Option<Octet>> {
    if v.None? then Ok(None)
    else if |v.value| != 1 then Err(ParseError.Malformed)
    else Ok(Some(v.value[0]))
  }

  function KeyValue(v: Option<Bytes>): Result<Option<KeyBytes>> {
    if v.None? then Ok(None)
    else if |v.value| != 16 then Err(ParseError.Malformed)
    else Ok(Some(v.value))
  }

  function LinkKeyValue(v: Option<Bytes>): Result<Option<LinkKey>> {
    if v.None? then Ok(None)
    else if |v.value| != 17 then Err(ParseError.Malformed)
    else Ok(Some(LinkKey(v.value[0] % 2 == 1, v.value[0] / 2 % 2 == 1, v.value[1..])))
  }

  function PageOf(mask: U32): nat {
    mask / 0x800_0000
  }

  /** The mask of page 0 in a list of masks, or the first one. */
  function PickMask(b: Bytes, first: Option<U32>): Option<U32> {
    if |b| < 4 then first
    else
      var mask := ReadU32(b).value;
      if PageOf(mask) == 0 then Some(mask)
      else PickMask(b[4..], if first.Some? then first else Some(mask))
  }

  function ChannelsValue(v: Option<Bytes>): Result<Option<U32>> {
    if v.None? then Ok(None)
    else if v.value == [] || |v.value| - 1 != 4 * v.value[0] as int then Err(ParseError.Malformed)
    else Ok(PickMask(v.value[1..], None))
  }

  method PickChannels(b: Bytes) returns (mask: Option<U32>)
    ensures mask == PickMask(b, None)
  {
    var rest := b;
    var first: Option<U32> := None;
    while |rest| >= 4
      invariant PickMask(b, None) == PickMask(rest, first)
      decreases |rest|
    {
      var m := ReadU32(rest).value;
      if PageOf(m) == 0 {
        return Some(m);
      }
      if first.None? {
        first := Some(m);
      }
      rest := rest[4..];
    }
    return first;
  }

  // ------------------------------------------------------------------
  // Parsing
  // ------------------------------------------------------------------

  function NoLocalEncapsulation(): Encapsulation {
    _ => false
  }

  /** The values a payload has under the tags the payloads use. */
  datatype Lookups = Lookups(
    extendedPanId: Option<Bytes>, panId: Option<Bytes>, channels: Option<Bytes>, networkKey: Option<Bytes>,
    linkKey: Option<Bytes>, deviceType: Option<Bytes>, nwkAddress: Option<Bytes>, joiningMethod: Option<Bytes>,
    ieee: Option<Bytes>, trustCenter: Option<Bytes>, statusMap: Option<Bytes>, updateId: Option<Bytes>,
    keySequence: Option<Bytes>, adminKey: Option<Bytes>)

  function LookUp(ts: seq<Tlv>): Lookups {
    Lookups(FindIn(ts, EXTENDED_PAN_ID), FindIn(ts, SHORT_PAN_ID), FindIn(ts, NETWORK_CHANNEL), FindIn(ts, NETWORK_KEY),
            FindIn(ts, LINK_KEY), FindIn(ts, DEVICE_TYPE), FindIn(ts, NWK_ADDRESS), FindIn(ts, JOINING_METHOD),
            FindIn(ts, IEEE_ADDRESS), FindIn(ts, TRUST_CENTER_ADDRESS), FindIn(ts, NETWORK_STATUS_MAP),
            FindIn(ts, NWK_UPDATE_ID), FindIn(ts, ACTIVE_KEY_SEQUENCE), FindIn(ts, ADMIN_KEY))
  }

  function Check(bad: bool, e: ParseError): Result<()> {
    if bad then Err(e) else Ok(())
  }

  function FormOf(l: Lookups): Result<FormNetwork> {
    var _ :- Check(l.keySequence.Some?, InvalidTlv(ACTIVE_KEY_SEQUENCE));
    var tc :- Eui64(l.trustCenter);
    var _ :- Check(tc.Some? && tc.value != ALL_ONES, InvalidTlv(TRUST_CENTER_ADDRESS));
    var epid :- Eui64(l.extendedPanId);
    var _ :- Check(epid.Some? && (epid.value == 0 || epid.value == ALL_ONES), OutOfRange(EXTENDED_PAN_ID));
    var pan :- U16Value(l.panId);
    var _ :- Check(pan.Some? && (pan.value == 0 || pan.value == 0xFFFF), OutOfRange(SHORT_PAN_ID));
    var nwk :- U16Value(l.nwkAddress);
    var _ :- Check(nwk.Some? && nwk.value > 0xFFF7, OutOfRange(NWK_ADDRESS));
    var channels :- ChannelsValue(l.channels);
    var networkKey :- KeyValue(l.networkKey);
    var linkKey :- LinkKeyValue(l.linkKey);
    var updateId :- U8Value(l.updateId);
    var adminKey :- KeyValue(l.adminKey);
    Ok(FormNetwork(tc.Some?, epid, pan, channels, networkKey, linkKey, nwk, updateId, adminKey))
  }

  function MethodOf(raw: Octet): Option<Method> {
    match raw
    case 0 => Some(Association)
    case 1 => Some(Rejoin)
    case 2 => Some(OutOfBand)
    case _ => None
  }

  /** The first of some conditions that holds decides the error. */
  function FirstBad(bads: seq<(bool, ParseError)>): Result<()> {
    if bads == [] then Ok(())
    else if bads[0].0 then Err(bads[0].1)
    else FirstBad(bads[1..])
  }

  /** Which TLVs each joining method forbids or needs, in the order they are checked. */
  function Offences(m: Method, epid: bool, pan: bool, channels: bool, networkKey: bool, nwk: bool, updateId: bool, keySequence: bool): seq<(bool, ParseError)> {
    match m
    case Association =>
      [(pan, InvalidTlv(SHORT_PAN_ID)), (networkKey, InvalidTlv(NETWORK_KEY)), (updateId, InvalidTlv(NWK_UPDATE_ID)),
       (keySequence, InvalidTlv(ACTIVE_KEY_SEQUENCE))]
    case Rejoin =>
      [(!epid, MissingTlv(EXTENDED_PAN_ID)), (pan, InvalidTlv(SHORT_PAN_ID)), (nwk, InvalidTlv(NWK_ADDRESS)),
       (updateId, InvalidTlv(NWK_UPDATE_ID)), (keySequence, InvalidTlv(ACTIVE_KEY_SEQUENCE))]
    case OutOfBand =>
      [(!epid, MissingTlv(EXTENDED_PAN_ID)), (!pan, MissingTlv(SHORT_PAN_ID)), (!channels, MissingTlv(NETWORK_CHANNEL)),
       (!networkKey, MissingTlv(NETWORK_KEY))]
  }

  function Usage(m: Method, epid: bool, pan: bool, channels: bool, networkKey: bool, nwk: bool, updateId: bool, keySequence: bool): Result<()> {
    FirstBad(Offences(m, epid, pan, channels, networkKey, nwk, updateId, keySequence))
  }

  function JoinOf(l: Lookups): Result<JoinNetwork> {
    var raw :- U8Value(l.joiningMethod);
    var _ :- Check(raw.None?, MissingTlv(JOINING_METHOD));
    var m := MethodOf(raw.value);
    var _ :- Check(m.None?, OutOfRange(JOINING_METHOD));
    var _ :- Check(l.deviceType.Some?, InvalidTlv(DEVICE_TYPE));
    var _ :- Check(l.ieee.Some?, InvalidTlv(IEEE_ADDRESS));
    var _ :- Check(l.statusMap.Some?, InvalidTlv(NETWORK_STATUS_MAP));
    var epid :- Eui64(l.extendedPanId);
    var pan :- U16Value(l.panId);
    var channels :- ChannelsValue(l.channels);
    var networkKey :- KeyValue(l.networkKey);
    var nwk :- U16Value(l.nwkAddress);
    var updateId :- U8Value(l.updateId);
    var keySequence :- U8Value(l.keySequence);
    var _ :- Usage(m.value, epid.Some?, pan.Some?, channels.Some?, networkKey.Some?, nwk.Some?, updateId.Some?, keySequence.Some?);
    var linkKey :- LinkKeyValue(l.linkKey);
    var tc :- Eui64(l.trustCenter);
    var adminKey :- KeyValue(l.adminKey);
    Ok(JoinNetwork(m.value, epid, pan, channels, networkKey, linkKey, nwk, tc, updateId, keySequence, adminKey))
  }

  function JoinersOf(command: Option<Bytes>, ieee: Option<Bytes>, key: Option<Bytes>): Result<ManageJoiners> {
    var raw :- U8Value(command);
    var _ :- Check(raw.None?, MissingTlv(JOINER_COMMAND));
    var i :- Eui64(ieee);
    var k :- KeyValue(key);
    match raw.value
    case 0 => Ok(DropAll)
    case 1 =>
      var _ :- Check(i.None?, MissingTlv(JOINER_ADDRESS));
      var _ :- Check(k.None?, MissingTlv(JOINER_KEY));
      Ok(Add(i.value, k.value))
    case 2 =>
      var _ :- Check(i.None?, MissingTlv(JOINER_ADDRESS));
      Ok(Remove(i.value))
    case _ => Err(OutOfRange(JOINER_COMMAND))
  }

  function Validated(payload: Bytes): Result<seq<Tlv>> {
    if Problem(NoLocalEncapsulation(), {}, payload).Some? then Err(ParseError.Malformed) else Ok(Items(payload))
  }

  function ParseForm(payload: Bytes): Result<FormNetwork> {
    var ts :- Validated(payload);
    FormOf(LookUp(ts))
  }

  function ParseJoin(payload: Bytes): Result<JoinNetwork> {
    var ts :- Validated(payload);
    JoinOf(LookUp(ts))
  }

  function ParseJoiners(payload: Bytes): Result<ManageJoiners> {
    var ts :- Validated(payload);
    JoinersOf(FindIn(ts, JOINER_COMMAND), FindIn(ts, JOINER_ADDRESS), FindIn(ts, JOINER_KEY))
  }

  // ------------------------------------------------------------------
  // Writing
  // ------------------------------------------------------------------

  /** A TLV that may be left out. */
  datatype Slot = Slot(tag: Octet, value: Option<Bytes>)

  function Present(slots: seq<Slot>): seq<Tlv> {
    if slots == [] then []
    else (if slots[0].value.Some? then [Tlv(slots[0].tag, slots[0].value.value)] else []) + Present(slots[1..])
  }

  function FormSlots(f: FormNetwork): seq<Slot> {
    [Slot(EXTENDED_PAN_ID, Opt64(f.extendedPanId)), Slot(SHORT_PAN_ID, Opt16(f.panId)), Slot(NETWORK_CHANNEL, OptChannels(f.channels)),
     Slot(NETWORK_KEY, OptKey(f.networkKey)), Slot(LINK_KEY, OptLinkKey(f.linkKey)), Slot(NWK_ADDRESS, Opt16(f.nwkAddress)),
     Slot(TRUST_CENTER_ADDRESS, Opt64(if f.distributed then Some(ALL_ONES) else None)), Slot(NWK_UPDATE_ID, Opt8(f.updateId)),
     Slot(ADMIN_KEY, OptKey(f.adminKey))]
  }

  function MethodRaw(m: Method): Octet {
    match m
    case Association => 0
    case Rejoin => 1
    case OutOfBand => 2
  }

  function JoinSlots(j: JoinNetwork): seq<Slot> {
    [Slot(EXTENDED_PAN_ID, Opt64(j.extendedPanId)), Slot(SHORT_PAN_ID, Opt16(j.panId)), Slot(NETWORK_CHANNEL, OptChannels(j.channels)),
     Slot(NETWORK_KEY, OptKey(j.networkKey)), Slot(LINK_KEY, OptLinkKey(j.linkKey)), Slot(NWK_ADDRESS, Opt16(j.nwkAddress)),
     Slot(JOINING_METHOD, Some([MethodRaw(j.method_)])), Slot(TRUST_CENTER_ADDRESS, Opt64(j.trustCenter)),
     Slot(NWK_UPDATE_ID, Opt8(j.updateId)), Slot(ACTIVE_KEY_SEQUENCE, Opt8(j.keySequence)), Slot(ADMIN_KEY, OptKey(j.adminKey))]
  }

  function JoinerSlots(m: ManageJoiners): seq<Slot> {
    [Slot(JOINER_KEY, if m.Add? then Some(m.key) else None),
     Slot(JOINER_ADDRESS, if m.DropAll? then None else Some(Print64(m.ieee))),
     Slot(JOINER_COMMAND, Some([if m.DropAll? then 0 else if m.Add? then 1 else 2]))]
  }

  /** Slots with different small tags and values the format can carry. */
  predicate Sound(slots: seq<Slot>) {
    && (forall i, j :: 0 <= i < j < |slots| ==> slots[i].tag != slots[j].tag)
    && (forall i :: 0 <= i < |slots| ==> slots[i].tag < 64)
    && (forall i :: 0 <= i < |slots| && slots[i].value.Some? ==> 1 <= |slots[i].value.value| <= MAX_VALUE)
  }

  lemma {:induction false} PresentMember(slots: seq<Slot>, t: Tlv)
    ensures t in Present(slots) <==> Slot(t.tag, Some(t.value)) in slots
  {
    if slots != [] {
      PresentMember(slots[1..], t);
      assert slots == [slots[0]] + slots[1..];
    }
  }

  lemma {:induction false} PresentAcceptable(slots: seq<Slot>)
    requires Sound(slots)
    ensures AllWellSized(Present(slots)) && Acceptable(NoLocalEncapsulation(), Present(slots))
  {
    var ts := Present(slots);
    forall i | 0 <= i < |ts|
      ensures WellSized(ts[i]) && !IsEncapsulation(NoLocalEncapsulation(), ts[i].tag)
    {
      assert ts[i] in ts;
      PresentMember(slots, ts[i]);
    }
    PresentDistinct(slots);
  }

  lemma {:induction false} PresentDistinct(slots: seq<Slot>)
    requires Sound(slots)
    ensures NoRepeatedTag(Present(slots))
  {
    if slots != [] {
      var tail := Present(slots[1..]);
      PresentDistinct(slots[1..]);
      forall i | 0 <= i < |tail|
        ensures tail[i].tag != slots[0].tag
      {
        assert tail[i] in tail;
        PresentMember(slots[1..], tail[i]);
        var k :| 0 <= k < |slots[1..]| && slots[1..][k] == Slot(tail[i].tag, Some(tail[i].value));
        assert slots[k + 1] == slots[1..][k];
      }
    }
  }

  lemma {:induction false} FindPresent(slots: seq<Slot>, k: nat)
    requires Sound(slots) && k < |slots|
    ensures FindIn(Present(slots), slots[k].tag) == slots[k].value
  {
    if k == 0 {
      FindAbsent(slots[1..], slots[0].tag);
    } else {
      FindPresent(slots[1..], k - 1);
    }
    if slots[0].value.Some? {
      assert Present(slots)[1..] == Present(slots[1..]);
    } else {
      assert Present(slots) == Present(slots[1..]);
    }
  }

  lemma {:induction false} FindAbsent(slots: seq<Slot>, tag: Octet)
    requires forall i :: 0 <= i < |slots| ==> slots[i].tag != tag
    ensures FindIn(Present(slots), tag).None?
  {
    if slots != [] {
      FindAbsent(slots[1..], tag);
      if slots[0].value.Some? {
        assert Present(slots)[1..] == Present(slots[1..]);
      } else {
        assert Present(slots) == Present(slots[1..]);
      }
    }
  }

  /** Writes the present TLVs one after the other, exactly when there is room for them. */
  method WriteSlots(w: Writer, slots: seq<Slot>) returns (ok: bool)
    requires w.Valid() && Sound(slots)
    modifies w, w.buffer
    ensures w.Valid()
    ensures AllWellSized(Present(slots)) && (ok <==> old(w.position) + |Concat(Present(slots))| <= w.buffer.Length)
    ensures ok ==> w.Written() == old(w.Written()) + Concat(Present(slots))
  {
    PresentAcceptable(slots);
    ok := WriteAll(w, Present(slots));
  }

  // ------------------------------------------------------------------
  // Round trips
  // ------------------------------------------------------------------

  lemma ValuesRoundTrip(a: Option<Address64>, b: Option<U16>, c: Option<Octet>, k: Option<KeyBytes>)
    ensures Eui64(Opt64(a)) == Ok(a) && U16Value(Opt16(b)) == Ok(b) && U8Value(Opt8(c)) == Ok(c) && KeyValue(OptKey(k)) == Ok(k)
  {
    if a.Some? {
      ReadPrinted64(a.value, []);
      assert Print64(a.value) + [] == Print64(a.value);
    }
    if b.Some? {
      ReadPrinted16(b.value, []);
      assert Print16(b.value) + [] == Print16(b.value);
    }
  }

  lemma LinkKeyRoundTrip(x: Option<LinkKey>)
    ensures LinkKeyValue(OptLinkKey(x)) == Ok(x)
  {
  }

  lemma ChannelsRoundTrip(x: Option<U32>)
    ensures ChannelsValue(OptChannels(x)) == Ok(x)
  {
    if x.Some? {
      var b := Print32(x.value);
      ReadPrinted32(x.value, []);
      assert b + [] == b;
      assert ([1] + b)[1..] == b;
      assert |b[4..]| == 0;
      assert PickMask(b, None) == Some(x.value);
    }
  }

  /** A Form Network is in range. */
  predicate FormInRange(f: FormNetwork) {
    && (f.extendedPanId.Some? ==> 0 < f.extendedPanId.value < ALL_ONES)
    && (f.panId.Some? ==> 0 < f.panId.value < 0xFFFF)
    && (f.nwkAddress.Some? ==> f.nwkAddress.value <= 0xFFF7)
  }

  /** A Join Network carries what its joining method calls for. */
  predicate JoinObeysUsage(j: JoinNetwork) {
    match j.method_
    case Association => j.panId.None? && j.networkKey.None? && j.updateId.None? && j.keySequence.None?
    case Rejoin => j.extendedPanId.Some? && j.panId.None? && j.nwkAddress.None? && j.updateId.None? && j.keySequence.None?
    case OutOfBand => j.extendedPanId.Some? && j.panId.Some? && j.channels.Some? && j.networkKey.Some?
  }

  lemma WrittenParses(slots: seq<Slot>)
    requires Sound(slots)
    ensures AllWellSized(Present(slots)) && Validated(Concat(Present(slots))) == Ok(Present(slots))
  {
    PresentAcceptable(slots);
    WrittenIsAccepted(NoLocalEncapsulation(), Present(slots));
  }

  /** What the parser finds in a written Form Network. */
  function FormLookups(f: FormNetwork): Lookups {
    Lookups(Opt64(f.extendedPanId), Opt16(f.panId), OptChannels(f.channels), OptKey(f.networkKey), OptLinkKey(f.linkKey), None,
            Opt16(f.nwkAddress), None, None, Opt64(if f.distributed then Some(ALL_ONES) else None), None, Opt8(f.updateId), None,
            OptKey(f.adminKey))
  }

  function JoinLookups(j: JoinNetwork): Lookups {
    Lookups(Opt64(j.extendedPanId), Opt16(j.panId), OptChannels(j.channels), OptKey(j.networkKey), OptLinkKey(j.linkKey), None,
            Opt16(j.nwkAddress), Some([MethodRaw(j.method_)]), None, Opt64(j.trustCenter), None, Opt8(j.updateId),
            Opt8(j.keySequence), OptKey(j.adminKey))
  }

  lemma FormFound(f: FormNetwork)
    ensures Sound(FormSlots(f)) && LookUp(Present(FormSlots(f))) == FormLookups(f)
  {
    hide Present, FindIn, Opt64, Opt16, Opt8, OptKey, OptLinkKey, OptChannels;
    var s := FormSlots(f);
    FormSound(f);
    forall k | 0 <= k < |s|
      ensures FindIn(Present(s), s[k].tag) == s[k].value
    {
      FindPresent(s, k);
    }
    FindAbsent(s, DEVICE_TYPE);
    FindAbsent(s, JOINING_METHOD);
    FindAbsent(s, IEEE_ADDRESS);
    FindAbsent(s, NETWORK_STATUS_MAP);
    FindAbsent(s, ACTIVE_KEY_SEQUENCE);
    assert s[0].tag == EXTENDED_PAN_ID && s[1].tag == SHORT_PAN_ID && s[2].tag == NETWORK_CHANNEL && s[3].tag == NETWORK_KEY;
    assert s[4].tag == LINK_KEY && s[5].tag == NWK_ADDRESS && s[6].tag == TRUST_CENTER_ADDRESS && s[7].tag == NWK_UPDATE_ID;
    assert s[8].tag == ADMIN_KEY;
  }

  lemma FormSound(f: FormNetwork)
    ensures Sound(FormSlots(f))
  {
    hide Opt64, Opt16, Opt8, OptKey, OptLinkKey, OptChannels;
  }

  lemma JoinSound(j: JoinNetwork)
    ensures Sound(JoinSlots(j))
  {
    hide Opt64, Opt16, Opt8, OptKey, OptLinkKey, OptChannels;
  }

  lemma JoinFound(j: JoinNetwork)
    ensures Sound(JoinSlots(j)) && LookUp(Present(JoinSlots(j))) == JoinLookups(j)
  {
    hide Present, FindIn, Opt64, Opt16, Opt8, OptKey, OptLinkKey, OptChannels;
    var s := JoinSlots(j);
    JoinSound(j);
    forall k | 0 <= k < |s|
      ensures FindIn(Present(s), s[k].tag) == s[k].value
    {
      FindPresent(s, k);
    }
    FindAbsent(s, DEVICE_TYPE);
    FindAbsent(s, IEEE_ADDRESS);
    FindAbsent(s, NETWORK_STATUS_MAP);
    assert s[0].tag == EXTENDED_PAN_ID && s[1].tag == SHORT_PAN_ID && s[2].tag == NETWORK_CHANNEL && s[3].tag == NETWORK_KEY;
    assert s[4].tag == LINK_KEY && s[5].tag == NWK_ADDRESS && s[6].tag == JOINING_METHOD && s[7].tag == TRUST_CENTER_ADDRESS;
    assert s[8].tag == NWK_UPDATE_ID && s[9].tag == ACTIVE_KEY_SEQUENCE && s[10].tag == ADMIN_KEY;
  }

  lemma FormFieldsRoundTrip(f: FormNetwork)
    ensures FormOf(FormLookups(f)) == Ok(f) <==> FormInRange(f)
  {
    hide Opt64, Opt16, Opt8, OptKey, OptLinkKey, OptChannels, Eui64, U16Value, U8Value, KeyValue, LinkKeyValue, ChannelsValue;
    ValuesRoundTrip(f.extendedPanId, f.panId, f.updateId, f.networkKey);
    ValuesRoundTrip(if f.distributed then Some(ALL_ONES) else None, f.nwkAddress, f.updateId, f.adminKey);
    LinkKeyRoundTrip(f.linkKey);
    ChannelsRoundTrip(f.channels);
  }

  lemma UsageExactly(j: JoinNetwork)
    ensures var r := Usage(j.method_, j.extendedPanId.Some?, j.panId.Some?, j.channels.Some?, j.networkKey.Some?,
                           j.nwkAddress.Some?, j.updateId.Some?, j.keySequence.Some?);
            r.Ok? <==> JoinObeysUsage(j)
  {
    hide FirstBad;
    var o := Offences(j.method_, j.extendedPanId.Some?, j.panId.Some?, j.channels.Some?, j.networkKey.Some?,
                      j.nwkAddress.Some?, j.updateId.Some?, j.keySequence.Some?);
    FirstBadExactly(o);
    assert JoinObeysUsage(j) <==> !o[0].0 && !o[1].0 && !o[2].0 && !o[3].0 && (|o| == 5 ==> !o[4].0);
  }

  lemma {:induction false} FirstBadExactly(bads: seq<(bool, ParseError)>)
    ensures FirstBad(bads).Ok? <==> forall i :: 0 <= i < |bads| ==> !bads[i].0
  {
    if bads != [] {
      FirstBadExactly(bads[1..]);
      assert forall i :: 1 <= i < |bads| ==> bads[i] == bads[1..][i - 1];
      if FirstBad(bads).Ok? {
        forall i | 0 <= i < |bads|
          ensures !bads[i].0
        {
          assert i > 0 ==> bads[i] == bads[1..][i - 1];
        }
      }
    }
  }

  lemma JoinFieldsRoundTrip(j: JoinNetwork)
    ensures JoinOf(JoinLookups(j)) == Ok(j) <==> JoinObeysUsage(j)
  {
    hide Opt64, Opt16, Opt8, OptKey, OptLinkKey, OptChannels, Eui64, U16Value, U8Value, KeyValue, LinkKeyValue, ChannelsValue, Usage;
    ValuesRoundTrip(j.extendedPanId, j.panId, j.updateId, j.networkKey);
    ValuesRoundTrip(j.trustCenter, j.nwkAddress, j.keySequence, j.adminKey);
    MethodRoundTrip(j.method_);
    LinkKeyRoundTrip(j.linkKey);
    ChannelsRoundTrip(j.channels);
    UsageExactly(j);
  }

  lemma MethodRoundTrip(m: Method)
    ensures U8Value(Some([MethodRaw(m)])) == Ok(Some(MethodRaw(m))) && MethodOf(MethodRaw(m)) == Some(m)
  {
  }

  /** A written Form Network parses back exactly when it is in range. */
  lemma FormRoundTrip(f: FormNetwork)
    ensures Sound(FormSlots(f)) && AllWellSized(Present(FormSlots(f)))
    ensures ParseForm(Concat(Present(FormSlots(f)))) == Ok(f) <==> FormInRange(f)
  {
    hide FormSlots, FormLookups, FormOf, LookUp, FormInRange;
    FormFound(f);
    WrittenParses(FormSlots(f));
    FormFieldsRoundTrip(f);
  }

  /** A written Join Network parses back exactly when it obeys the rules of its joining method. */
  lemma JoinRoundTrip(j: JoinNetwork)
    ensures Sound(JoinSlots(j)) && AllWellSized(Present(JoinSlots(j)))
    ensures ParseJoin(Concat(Present(JoinSlots(j)))) == Ok(j) <==> JoinObeysUsage(j)
  {
    hide JoinSlots, JoinLookups, JoinOf, LookUp, JoinObeysUsage;
    JoinFound(j);
    WrittenParses(JoinSlots(j));
    JoinFieldsRoundTrip(j);
  }

  /** Every Manage Joiners write parses back. */
  lemma JoinersRoundTrip(m: ManageJoiners)
    ensures Sound(JoinerSlots(m)) && AllWellSized(Present(JoinerSlots(m)))
    ensures ParseJoiners(Concat(Present(JoinerSlots(m)))) == Ok(m)
  {
    var s := JoinerSlots(m);
    WrittenParses(s);
    FindPresent(s, 0);
    FindPresent(s, 1);
    FindPresent(s, 2);
    ValuesRoundTrip(if m.DropAll? then None else Some(m.ieee), None, None, if m.Add? then Some(m.key) else None);
  }

  // ------------------------------------------------------------------
  // Order
  // ------------------------------------------------------------------

  lemma LookUpAnyOrder(ts: seq<Tlv>, us: seq<Tlv>)
    requires NoRepeatedTag(ts) && multiset(ts) == multiset(us)
    ensures LookUp(ts) == LookUp(us)
    ensures FindIn(ts, JOINER_KEY) == FindIn(us, JOINER_KEY) && FindIn(ts, JOINER_ADDRESS) == FindIn(us, JOINER_ADDRESS)
    ensures FindIn(ts, JOINER_COMMAND) == FindIn(us, JOINER_COMMAND)
  {
    hide FindIn;
    forall tag: Octet | tag < 64
      ensures FindIn(ts, tag) == FindIn(us, tag)
    {
      FindInAnyOrder(ts, us, tag);
    }
  }

  lemma AcceptableAnyOrder(local: Encapsulation, ts: seq<Tlv>, us: seq<Tlv>)
    requires Acceptable(local, ts) && multiset(ts) == multiset(us)
    ensures Acceptable(local, us)
  {
    forall i | 0 <= i < |us|
      ensures us[i] in ts
    {
      assert us[i] in multiset(us);
    }
    forall i, j | 0 <= i < j < |us| && us[i].tag == us[j].tag
      ensures us[i].tag == MANUFACTURER_SPECIFIC
    {
      var a, b :| 0 <= a < |ts| && 0 <= b < |ts| && ts[a] == us[i] && ts[b] == us[j];
      if us[i].tag != MANUFACTURER_SPECIFIC {
        assert a == b;
        CountTwice(us, i, j);
        CountOnce(ts, a);
      }
    }
  }

  lemma RejectedExactly(ts: seq<Tlv>)
    requires AllWellSized(ts) && !Acceptable(NoLocalEncapsulation(), ts)
    ensures Validated(Concat(ts)).Err?
  {
    ValidateExactly(NoLocalEncapsulation(), Concat(ts));
  }

  /** The order of the TLVs in a payload does not change what it parses to. */
  lemma ParsesInAnyOrder(ts: seq<Tlv>, us: seq<Tlv>)
    requires AllWellSized(ts) && AllWellSized(us) && multiset(ts) == multiset(us)
    ensures ParseForm(Concat(ts)) == ParseForm(Concat(us)) && ParseJoin(Concat(ts)) == ParseJoin(Concat(us))
    ensures ParseJoiners(Concat(ts)) == ParseJoiners(Concat(us))
  {
    hide LookUp, FormOf, JoinOf, JoinersOf, FindIn;
    if Acceptable(NoLocalEncapsulation(), ts) {
      AcceptableAnyOrder(NoLocalEncapsulation(), ts, us);
      WrittenIsAccepted(NoLocalEncapsulation(), ts);
      WrittenIsAccepted(NoLocalEncapsulation(), us);
      LookUpAnyOrder(ts, us);
    } else {
      if Acceptable(NoLocalEncapsulation(), us) {
        AcceptableAnyOrder(NoLocalEncapsulation(), us, ts);
      }
      RejectedExactly(ts);
      RejectedExactly(us);
    }
  }

  /** Writes a Form Network into an empty buffer. */
  method WriteForm(w: Writer, f: FormNetwork) returns (ok: bool)
    requires w.Valid() && w.position == 0
    modifies w, w.buffer
    ensures AllWellSized(Present(FormSlots(f))) && (ok <==> |Concat(Present(FormSlots(f)))| <= w.buffer.Length)
    ensures w.Valid() && (ok ==> (ParseForm(w.Written()) == Ok(f) <==> FormInRange(f)))
  {
    FormRoundTrip(f);
    ok := WriteSlots(w, FormSlots(f));
    assert ok ==> w.Written() == Concat(Present(FormSlots(f)));
  }

  /** Writes a Join Network into an empty buffer. */
  method WriteJoin(w: Writer, j: JoinNetwork) returns (ok: bool)
    requires w.Valid() && w.position == 0
    modifies w, w.buffer
    ensures AllWellSized(Present(JoinSlots(j))) && (ok <==> |Concat(Present(JoinSlots(j)))| <= w.buffer.Length)
    ensures w.Valid() && (ok ==> (ParseJoin(w.Written()) == Ok(j) <==> JoinObeysUsage(j)))
  {
    JoinRoundTrip(j);
    ok := WriteSlots(w, JoinSlots(j));
    assert ok ==> w.Written() == Concat(Present(JoinSlots(j)));
  }

  /** Writes a Manage Joiners command into an empty buffer. */
  method WriteJoiners(w: Writer, m: ManageJoiners) returns (ok: bool)
    requires w.Valid() && w.position == 0
    modifies w, w.buffer
    ensures AllWellSized(Present(JoinerSlots(m))) && (ok <==> |Concat(Present(JoinerSlots(m)))| <= w.buffer.Length)
    ensures w.Valid() && (ok ==> ParseJoiners(w.Written()) == Ok(m))
  {
    JoinersRoundTrip(m);
    ok := WriteSlots(w, JoinerSlots(m));
    assert ok ==> w.Written() == Concat(Present(JoinerSlots(m)));
  }
}
