/**
 Type-Length-Value framing (Annex I of the Zigbee specification R23.2): iteration,
 validation against the grammar, lookup and writing.
 */
module Tlv {
  import opened Types
  import opened Cursor

  const MANUFACTURER_SPECIFIC: Octet := 64
  const MAX_VALUE: nat := 256

  datatype Tlv = Tlv(tag: Octet, value: Bytes)

  datatype TlvError = Truncated | Malformed(tag: Octet) | DuplicateTag(tag: Octet) | NestedEncapsulation(tag: Octet)

  // ------------------------------------------------------------------
  // The grammar
  // ------------------------------------------------------------------

  predicate WellSized(t: Tlv) {
    1 <= |t.value| <= MAX_VALUE
  }

  function Framed(t: Tlv): Bytes
    requires WellSized(t)
  {
    [t.tag, |t.value| - 1] + t.value
  }

  predicate AllWellSized(ts: seq<Tlv>) {
    forall i :: 0 <= i < |ts| ==> WellSized(ts[i])
  }

  /** The octets of a list of TLVs. */
  function Concat(ts: seq<Tlv>): Bytes
    requires AllWellSized(ts)
  {
    if ts == [] then [] else Framed(ts[0]) + Concat(ts[1..])
  }

  type Encapsulation = Octet -> bool

  predicate IsEncapsulation(local: Encapsulation, tag: Octet) {
    tag == 72 || tag == 73 || local(tag)
  }

  /** The value of an encapsulation is a list of TLVs without encapsulations. */
  ghost predicate FlatContent(local: Encapsulation, value: Bytes) {
    exists inner :: AllWellSized(inner) && value == Concat(inner) && Flat(local, inner)
  }

  predicate Flat(local: Encapsulation, ts: seq<Tlv>) {
    forall i :: 0 <= i < |ts| ==> !IsEncapsulation(local, ts[i].tag)
  }

  predicate NoRepeatedTag(ts: seq<Tlv>) {
    forall i, j :: 0 <= i < j < |ts| && ts[i].tag == ts[j].tag ==> ts[i].tag == MANUFACTURER_SPECIFIC
  }

  /** What a message may consist of. */
  ghost predicate Acceptable(local: Encapsulation, ts: seq<Tlv>) {
    && AllWellSized(ts)
    && NoRepeatedTag(ts)
    && forall i :: 0 <= i < |ts| && IsEncapsulation(local, ts[i].tag) ==> FlatContent(local, ts[i].value)
  }

  // ------------------------------------------------------------------
  // Iteration
  // ------------------------------------------------------------------

  /** A whole TLV stands at the front. */
  predicate StartsWithTlv(b: Bytes) {
    |b| >= 2 && 3 + b[1] as int <= |b|
  }

  function HeadTlv(b: Bytes): (t: Tlv)
    requires StartsWithTlv(b)
    ensures WellSized(t) && b == Framed(t) + TailTlv(b)
  {
    Tlv(b[0], b[2..3 + b[1] as int])
  }

  function TailTlv(b: Bytes): Bytes
    requires StartsWithTlv(b)
  {
    b[3 + b[1] as int..]
  }

  /** What iteration yields before it ends or fails. */
  function Items(b: Bytes): (ts: seq<Tlv>)
    ensures AllWellSized(ts)
  {
    if StartsWithTlv(b) then [HeadTlv(b)] + Items(TailTlv(b)) else []
  }

  predicate CutShort(b: Bytes) {
    if StartsWithTlv(b) then CutShort(TailTlv(b)) else b != []
  }

  class TlvIter {
    var rest: Bytes
    var failed: bool

    constructor (bytes: Bytes)
      ensures rest == bytes && !failed
    {
      rest, failed := bytes, false;
    }

    /** The next TLV, an error once when the input is cut short, then nothing. */
    method Next() returns (item: Option<Tlv>, error: bool)
      modifies this
      ensures old(failed) || old(rest) == [] ==> item.None? && !error && rest == old(rest) && failed == old(failed)
      ensures !old(failed) && old(rest) != [] ==>
        if StartsWithTlv(old(rest)) then
          !error && item == Some(HeadTlv(old(rest))) && rest == TailTlv(old(rest)) && !failed
        else error && item.None? && failed && rest == old(rest)
    {
      item, error := None, false;
      if failed || rest == [] {
        return;
      }
      if |rest| < 2 {
        failed, error := true, true;
        return;
      }
      var end: nat := 3 + rest[1] as int;
      if end <= |rest| {
        item := Some(Tlv(rest[0], rest[2..end]));
        rest := rest[end..];
      } else {
        failed, error := true, true;
      }
    }
  }

  /** A list of TLVs is the only one its octets decompose into. */
  lemma {:induction false} ConcatItems(ts: seq<Tlv>)
    requires AllWellSized(ts)
    ensures Items(Concat(ts)) == ts && !CutShort(Concat(ts))
  {
    if ts != [] {
      var b := Concat(ts);
      ConcatItems(ts[1..]);
      assert b[..2] == [ts[0].tag, |ts[0].value| - 1];
      assert HeadTlv(b).value == ts[0].value;
      assert TailTlv(b) == Concat(ts[1..]);
    }
  }

  lemma {:induction false} ItemsConcat(b: Bytes)
    requires !CutShort(b)
    ensures Concat(Items(b)) == b
    decreases |b|
  {
    if StartsWithTlv(b) {
      ItemsConcat(TailTlv(b));
      var ts := Items(b);
      assert ts[1..] == Items(TailTlv(b));
    }
  }

  // ------------------------------------------------------------------
  // Validation
  // ------------------------------------------------------------------

  /** What is wrong with the value of an encapsulation. */
  function InnerProblem(local: Encapsulation, tag: Octet, b: Bytes): Option<TlvError> {
    if b == [] then None
    else if !StartsWithTlv(b) then Some(Malformed(tag))
    else if IsEncapsulation(local, HeadTlv(b).tag) then Some(NestedEncapsulation(tag))
    else InnerProblem(local, tag, TailTlv(b))
  }

  function ProblemAt(local: Encapsulation, seen: set<Octet>, t: Tlv): Option<TlvError> {
    if t.tag != MANUFACTURER_SPECIFIC && t.tag in seen then Some(DuplicateTag(t.tag))
    else if IsEncapsulation(local, t.tag) then InnerProblem(local, t.tag, t.value)
    else None
  }

  /** The first thing wrong with a message, given the tags seen so far. */
  function Problem(local: Encapsulation, seen: set<Octet>, b: Bytes): Option<TlvError>
    decreases |b|
  {
    if b == [] then None
    else if !StartsWithTlv(b) then Some(Truncated)
    else
      var p := ProblemAt(local, seen, HeadTlv(b));
      if p.Some? then p else Problem(local, seen + {HeadTlv(b).tag}, TailTlv(b))
  }

  /** The tags behind a bit mask of four words: word `tag / 64`, bit `tag % 64`. */
  ghost predicate Marks(mask: seq<set<nat>>, seen: set<Octet>) {
    && |mask| == 4
    && forall t: Octet :: t != MANUFACTURER_SPECIFIC ==> (t in seen <==> t % 64 in mask[t / 64])
  }

  method CheckInner(local: Encapsulation, tag: Octet, value: Bytes) returns (problem: Option<TlvError>)
    ensures problem == InnerProblem(local, tag, value)
  {
    var iter := new TlvIter(value);
    while true
      invariant !iter.failed
      invariant InnerProblem(local, tag, value) == InnerProblem(local, tag, iter.rest)
      decreases |iter.rest|
    {
      var item, error := iter.Next();
      if error {
        return Some(Malformed(tag));
      }
      if item.None? {
        return None;
      }
      if IsEncapsulation(local, item.value.tag) {
        return Some(NestedEncapsulation(tag));
      }
    }
  }

  /** Walks the message once, marking tags in a bit mask. */
  method Validate(local: Encapsulation, bytes: Bytes) returns (problem: Option<TlvError>)
    ensures problem == Problem(local, {}, bytes)
  {
    var mask: seq<set<nat>> := [{}, {}, {}, {}];
    ghost var seen: set<Octet> := {};
    var iter := new TlvIter(bytes);
    while true
      invariant !iter.failed && Marks(mask, seen)
      invariant Problem(local, {}, bytes) == Problem(local, seen, iter.rest)
      decreases |iter.rest|
    {
      var item, error := iter.Next();
      if error {
        return Some(Truncated);
      }
      if item.None? {
        return None;
      }
      var t := item.value;
      if t.tag != MANUFACTURER_SPECIFIC {
        if t.tag % 64 in mask[t.tag / 64] {
          return Some(DuplicateTag(t.tag));
        }
        mask := mask[t.tag / 64 := mask[t.tag / 64] + {t.tag % 64}];
      }
      seen := seen + {t.tag};
      if IsEncapsulation(local, t.tag) {
        var inner := CheckInner(local, t.tag, t.value);
        if inner.Some? {
          return inner;
        }
      }
    }
  }

  // ------------------------------------------------------------------
  // Validation accepts exactly the grammar
  // ------------------------------------------------------------------

  lemma {:induction false} InnerExactly(local: Encapsulation, tag: Octet, b: Bytes)
    ensures InnerProblem(local, tag, b).None? <==> !CutShort(b) && Flat(local, Items(b))
    decreases |b|
  {
    if StartsWithTlv(b) {
      InnerExactly(local, tag, TailTlv(b));
      var ts := Items(b);
      assert ts == [HeadTlv(b)] + Items(TailTlv(b));
      assert Flat(local, ts) ==> !IsEncapsulation(local, ts[0].tag);
      if Flat(local, ts) {
        forall i | 0 <= i < |ts[1..]|
          ensures !IsEncapsulation(local, ts[1..][i].tag)
        {
          assert ts[1..][i] == ts[i + 1];
        }
      }
    }
  }

  lemma FlatContentExactly(local: Encapsulation, tag: Octet, b: Bytes)
    ensures InnerProblem(local, tag, b).None? <==> FlatContent(local, b)
  {
    InnerExactly(local, tag, b);
    if FlatContent(local, b) {
      var inner :| AllWellSized(inner) && b == Concat(inner) && Flat(local, inner);
      ConcatItems(inner);
    } else if !CutShort(b) {
      ItemsConcat(b);
    }
  }

  /** No problem with a message whose earlier tags are `seen`. */
  ghost predicate AcceptableAfter(local: Encapsulation, seen: set<Octet>, ts: seq<Tlv>) {
    Acceptable(local, ts) && forall i :: 0 <= i < |ts| ==> ts[i].tag == MANUFACTURER_SPECIFIC || ts[i].tag !in seen
  }

  lemma AcceptableCons(local: Encapsulation, seen: set<Octet>, t: Tlv, ts: seq<Tlv>)
    requires WellSized(t)
    ensures AcceptableAfter(local, seen, [t] + ts) <==>
              && ProblemAt(local, seen, t).None? && AcceptableAfter(local, seen + {t.tag}, ts)
  {
    var all := [t] + ts;
    FlatContentExactly(local, t.tag, t.value);
    if AcceptableAfter(local, seen, all) {
      assert all[0] == t;
      forall i | 0 <= i < |ts|
        ensures WellSized(ts[i]) && (ts[i].tag == MANUFACTURER_SPECIFIC || ts[i].tag !in seen + {t.tag})
        ensures IsEncapsulation(local, ts[i].tag) ==> FlatContent(local, ts[i].value)
      {
        assert all[i + 1] == ts[i];
        assert ts[i].tag == all[0].tag ==> all[0].tag == MANUFACTURER_SPECIFIC;
      }
      forall i, j | 0 <= i < j < |ts| && ts[i].tag == ts[j].tag
        ensures ts[i].tag == MANUFACTURER_SPECIFIC
      {
        assert all[i + 1] == ts[i] && all[j + 1] == ts[j];
      }
    }
  }

  lemma {:induction false} ProblemExactly(local: Encapsulation, seen: set<Octet>, b: Bytes)
    ensures Problem(local, seen, b).None? <==> !CutShort(b) && AcceptableAfter(local, seen, Items(b))
    decreases |b|
  {
    if StartsWithTlv(b) {
      var t := HeadTlv(b);
      ProblemExactly(local, seen + {t.tag}, TailTlv(b));
      AcceptableCons(local, seen, t, Items(TailTlv(b)));
    }
  }

  /** A message is accepted exactly when it is the concatenation of an acceptable list, and then
      iteration yields that list. */
  lemma ValidateExactly(local: Encapsulation, b: Bytes)
    ensures Problem(local, {}, b).None? <==> exists ts :: Acceptable(local, ts) && b == Concat(ts)
    ensures forall ts :: AllWellSized(ts) && b == Concat(ts) ==> Items(b) == ts
  {
    ProblemExactly(local, {}, b);
    forall ts | AllWellSized(ts) && b == Concat(ts)
      ensures Items(b) == ts && !CutShort(b)
    {
      ConcatItems(ts);
    }
    if !CutShort(b) {
      ItemsConcat(b);
    }
  }

  // ------------------------------------------------------------------
  // Lookup
  // ------------------------------------------------------------------

  function FindIn(ts: seq<Tlv>, tag: Octet): Option<Bytes> {
    if ts == [] then None
    else if ts[0].tag == tag then Some(ts[0].value)
    else FindIn(ts[1..], tag)
  }

  method FindValue(bytes: Bytes, tag: Octet) returns (value: Option<Bytes>)
    ensures value == FindIn(Items(bytes), tag)
  {
    var iter := new TlvIter(bytes);
    while true
      invariant !iter.failed && FindIn(Items(bytes), tag) == FindIn(Items(iter.rest), tag)
      decreases |iter.rest|
    {
      var item, error := iter.Next();
      if error || item.None? {
        return None;
      }
      if item.value.tag == tag {
        return Some(item.value.value);
      }
    }
  }

  lemma {:induction false} FindInMember(ts: seq<Tlv>, tag: Octet)
    ensures FindIn(ts, tag).Some? ==> Tlv(tag, FindIn(ts, tag).value) in ts
    ensures FindIn(ts, tag).None? ==> forall t :: t in ts ==> t.tag != tag
  {
    if ts != [] && ts[0].tag != tag {
      FindInMember(ts[1..], tag);
    }
  }

  /** Lookups in an acceptable message do not depend on the order of its TLVs. */
  lemma FindInAnyOrder(ts: seq<Tlv>, us: seq<Tlv>, tag: Octet)
    requires NoRepeatedTag(ts) && multiset(ts) == multiset(us) && tag != MANUFACTURER_SPECIFIC
    ensures FindIn(ts, tag) == FindIn(us, tag)
  {
    FindInMember(ts, tag);
    FindInMember(us, tag);
    assert forall t :: t in us <==> t in multiset(us);
    assert forall t :: t in ts <==> t in multiset(ts);
    if FindIn(us, tag).Some? && FindIn(ts, tag).Some? {
      var t, u := Tlv(tag, FindIn(ts, tag).value), Tlv(tag, FindIn(us, tag).value);
      var i, j :| 0 <= i < |ts| && 0 <= j < |ts| && ts[i] == t && ts[j] == u;
      assert i == j;
    }
  }

  // ------------------------------------------------------------------
  // Writing
  // ------------------------------------------------------------------

  lemma {:induction false} ConcatAppend(ts: seq<Tlv>, t: Tlv)
    requires AllWellSized(ts) && WellSized(t)
    ensures AllWellSized(ts + [t]) && Concat(ts + [t]) == Concat(ts) + Framed(t)
  {
    if ts == [] {
      assert [t][1..] == [];
    } else {
      ConcatAppend(ts[1..], t);
      assert (ts + [t])[1..] == ts[1..] + [t];
    }
  }

  /** Writes one TLV; a value of a size the format cannot carry is refused. */
  method WriteTlv(w: Writer, tag: Octet, value: Bytes) returns (ok: bool)
    requires w.Valid()
    modifies w, w.buffer
    ensures w.Valid() && old(w.Written()) <= w.Written()
    ensures ok <==> WellSized(Tlv(tag, value)) && old(w.position) + 2 + |value| <= w.buffer.Length
    ensures ok ==> w.Written() == old(w.Written()) + Framed(Tlv(tag, value))
  {
    if value == [] || |value| > MAX_VALUE {
      return false;
    }
    ok := w.Put([tag]);
    if ok {
      ok := w.Put([|value| - 1]);
    }
    if ok {
      ok := w.Put(value);
    }
    assert ok ==> old(w.Written()) + [tag] + [|value| - 1] + value == old(w.Written()) + ([tag, |value| - 1] + value);
  }

  /** Writes a TLV whose value is produced in place; the length octet is patched afterwards. */
  method WriteTlvWith(w: Writer, tag: Octet, body: Bytes) returns (ok: bool)
    requires w.Valid()
    modifies w, w.buffer
    ensures w.Valid()
    ensures ok <==> WellSized(Tlv(tag, body)) && old(w.position) + 2 + |body| <= w.buffer.Length
    ensures ok ==> w.Written() == old(w.Written()) + Framed(Tlv(tag, body))
  {
    var start := w.position;
    ok := w.Put([tag]);
    if ok {
      ok := w.Put([0]);
    }
    if ok {
      ok := w.Put(body);
    }
    if !ok {
      return;
    }
    var len := w.position - (start + 2);
    if len == 0 || len > MAX_VALUE {
      return false;
    }
    assert w.Written() == old(w.Written()) + [tag] + [0] + body;
    w.Patch(start + 1, len - 1);
  }

  /** Writes a list of TLVs. */
  method WriteAll(w: Writer, ts: seq<Tlv>) returns (ok: bool)
    requires w.Valid()
    modifies w, w.buffer
    ensures w.Valid()
    ensures ok ==> AllWellSized(ts) && w.Written() == old(w.Written()) + Concat(ts)
    ensures AllWellSized(ts) && old(w.position) + |Concat(ts)| <= w.buffer.Length ==> ok
  {
    ok := true;
    ghost var start := w.Written();
    for i := 0 to |ts|
      invariant w.Valid() && AllWellSized(ts[..i])
      invariant w.Written() == start + Concat(ts[..i])
    {
      ok := WriteTlv(w, ts[i].tag, ts[i].value);
      if AllWellSized(ts) {
        ConcatPrefix(ts, i);
      }
      if !ok {
        return;
      }
      ConcatAppend(ts[..i], ts[i]);
      assert ts[..i + 1] == ts[..i] + [ts[i]];
    }
    assert ts[..|ts|] == ts;
  }

  lemma {:induction false} ConcatPrefix(ts: seq<Tlv>, i: nat)
    requires AllWellSized(ts) && i < |ts|
    ensures |Concat(ts[..i])| + 2 + |ts[i].value| <= |Concat(ts)|
  {
    if i == 0 {
      assert ts[..0] == [];
    } else {
      ConcatPrefix(ts[1..], i - 1);
      assert ts[1..][i - 1] == ts[i];
      assert ts[1..][..i - 1] == ts[..i][1..];
    }
  }

  /** Whatever acceptable list is written, its octets are accepted and read back as that list. */
  lemma WrittenIsAccepted(local: Encapsulation, ts: seq<Tlv>)
    requires Acceptable(local, ts)
    ensures Problem(local, {}, Concat(ts)).None? && Items(Concat(ts)) == ts
  {
    ValidateExactly(local, Concat(ts));
  }
}
