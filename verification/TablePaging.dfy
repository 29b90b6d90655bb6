/**
 Proxy and Sink Tables read out page by page, and restored from their octets.
 */
module TablePaging {
  import opened Types
  import opened Fields
  import opened Cursor
  import opened GreenPower
  import opened TableCodec

  const MAX_COUNT: nat := 255

  predicate OneKind(proxy: bool, es: seq<Record>) {
    forall i :: 0 <= i < |es| ==> es[i].ProxyRecord? == proxy
  }

  function EncodeAll(es: seq<Record>): Bytes {
    if es == [] then [] else Encode(es[0]) + EncodeAll(es[1..])
  }

  function NormalAll(es: seq<Record>): seq<Record> {
    seq(|es|, i requires 0 <= i < |es| => Normal(es[i]))
  }

  /** Restores entries from concatenated ones; fails on a bad entry or when they do not fit. */
  function DecodeEntries(proxy: bool, capacity: nat, b: Bytes): Option<seq<Record>>
    decreases |b|
  {
    if b == [] then Some([])
    else
      var p := Decode(proxy, b);
      if p.Bad? || capacity == 0 then None
      else
        var rest := DecodeEntries(proxy, capacity - 1, p.rest);
        if rest.None? then None else Some([p.value] + rest.value)
  }

  lemma EncodeNotEmpty(e: Record)
    ensures |Encode(e)| >= 7
  {
    EncodedExactly(e);
  }

  /** What was written as a whole table is restored, up to what the format does not carry. */
  lemma {:induction false} TableRoundTrip(proxy: bool, capacity: nat, es: seq<Record>)
    requires OneKind(proxy, es) && |es| <= capacity
    ensures DecodeEntries(proxy, capacity, EncodeAll(es)) == Some(NormalAll(es))
  {
    hide Encode, Decode, Normal;
    if es != [] {
      TableRoundTrip(proxy, capacity - 1, es[1..]);
      EntryRoundTrip(es[0], EncodeAll(es[1..]));
      EncodeNotEmpty(es[0]);
      assert NormalAll(es) == [Normal(es[0])] + NormalAll(es[1..]);
    } else {
      assert NormalAll(es) == [];
    }
  }

  // ------------------------------------------------------------------
  // Pages
  // ------------------------------------------------------------------

  /** How many entries from `start` on fit into `room` octets, one after the other. */
  function Fit(es: seq<Record>, start: nat, room: nat): (n: nat)
    ensures start <= |es| ==> start + n <= |es|
    decreases |es| - start
  {
    if start >= |es| || EncodedLength(es[start]) > room then 0
    else 1 + Fit(es, start + 1, room - EncodedLength(es[start]))
  }

  /** The count a page announces is an octet. */
  function Announced(n: nat): nat {
    if n > MAX_COUNT then MAX_COUNT else n
  }

  function Page(es: seq<Record>, start: nat, room: nat): seq<Record>
    requires start <= |es|
  {
    es[start..start + Fit(es, start, room)]
  }

  /** Writes the fields of an entry in order. */
  method WriteEntry(w: Writer, e: Record) returns (ok: bool)
    requires w.Valid()
    modifies w, w.buffer
    ensures w.Valid() && ok == (old(w.position) + EncodedLength(e) <= w.buffer.Length)
    ensures ok ==> w.Written() == old(w.Written()) + Encode(e)
  {
    hide FieldsOf, EncodedLength;
    EncodedExactly(e);
    ok := w.PutAll(FieldsOf(e));
  }

  /** Fills a buffer with entries from `start` on that fit completely. */
  method EncodeFrom(es: seq<Record>, start: nat, out: array<Octet>) returns (count: Octet, len: nat)
    requires start <= |es|
    modifies out
    ensures count as int == Announced(Fit(es, start, out.Length))
    ensures len <= out.Length && out[..len] == EncodeAll(Page(es, start, out.Length))
  {
    hide Encode, EncodedLength;
    var w := new Writer(out);
    count := 0;
    var i := start;
    assert es[start..i] == [];
    while i < |es| && EncodedLength(es[i]) <= out.Length - w.position
      invariant w.Valid() && w.buffer == out && start <= i <= |es|
      invariant w.Written() == EncodeAll(es[start..i])
      invariant Fit(es, start, out.Length) == i - start + Fit(es, i, out.Length - w.position)
      invariant count as int == Announced(i - start)
    {
      EncodedExactly(es[i]);
      EncodeAllAppend(es[start..i], es[i]);
      assert es[start..i + 1] == es[start..i] + [es[i]];
      var ok := WriteEntry(w, es[i]);
      if count < 255 {
        count := count + 1;
      }
      i := i + 1;
    }
    len := w.position;
  }

  lemma {:induction false} EncodeAllAppend(es: seq<Record>, e: Record)
    ensures EncodeAll(es + [e]) == EncodeAll(es) + Encode(e)
  {
    if es == [] {
      assert [e][1..] == [];
      assert EncodeAll([e]) == Encode(e) + [];
    } else {
      EncodeAllAppend(es[1..], e);
      assert (es + [e])[1..] == es[1..] + [e];
      Associative(Encode(es[0]), EncodeAll(es[1..]), Encode(e));
    }
  }

  /** What a reader collects that asks for page after page, each from where the last one ended. */
  function ReadOut(proxy: bool, es: seq<Record>, start: nat, room: nat): Option<seq<Record>>
    requires start <= |es|
    decreases |es| - start
  {
    var n := Fit(es, start, room);
    if n == 0 then Some([])
    else
      var page := DecodeEntries(proxy, n, EncodeAll(Page(es, start, room)));
      var rest := ReadOut(proxy, es, start + Announced(n), room);
      if page.None? || rest.None? then None else Some(page.value + rest.value)
  }

  /** No page on the way holds more entries than its count can say. */
  predicate CountsFit(es: seq<Record>, start: nat, room: nat)
    requires start <= |es|
    decreases |es| - start
  {
    var n := Fit(es, start, room);
    n <= MAX_COUNT && (n > 0 ==> CountsFit(es, start + n, room))
  }

  /** Every entry fits into an empty page. */
  predicate Roomy(es: seq<Record>, room: nat) {
    forall i :: 0 <= i < |es| ==> EncodedLength(es[i]) <= room
  }

  lemma PageDecodes(proxy: bool, es: seq<Record>, start: nat, room: nat)
    requires OneKind(proxy, es) && start <= |es|
    ensures DecodeEntries(proxy, Fit(es, start, room), EncodeAll(Page(es, start, room))) == Some(NormalAll(Page(es, start, room)))
  {
    var page := Page(es, start, room);
    forall i | 0 <= i < |page|
      ensures page[i].ProxyRecord? == proxy
    {
      assert page[i] == es[start + i];
    }
    TableRoundTrip(proxy, |page|, page);
  }

  /** Reading page by page terminates with at least everything; a page that holds more than it can
      announce makes the reader see entries again. */
  lemma {:induction false} ReadOutSize(proxy: bool, es: seq<Record>, start: nat, room: nat)
    requires OneKind(proxy, es) && Roomy(es, room) && start <= |es|
    ensures ReadOut(proxy, es, start, room).Some?
    ensures |ReadOut(proxy, es, start, room).value| >= |es| - start
    ensures |ReadOut(proxy, es, start, room).value| == |es| - start <==> CountsFit(es, start, room)
    decreases |es| - start
  {
    hide Encode, Decode, Normal, EncodedLength;
    var n := Fit(es, start, room);
    if start < |es| {
      assert n > 0;
      PageDecodes(proxy, es, start, room);
      ReadOutSize(proxy, es, start + Announced(n), room);
    }
  }

  lemma NormalAllJoin(a: seq<Record>, b: seq<Record>)
    ensures NormalAll(a + b) == NormalAll(a) + NormalAll(b)
  {
    hide Normal;
  }

  lemma ReadOutStep(proxy: bool, es: seq<Record>, start: nat, room: nat)
    requires OneKind(proxy, es) && start <= |es| && 0 < Fit(es, start, room) <= MAX_COUNT
    requires ReadOut(proxy, es, start + Fit(es, start, room), room) == Some(NormalAll(es[start + Fit(es, start, room)..]))
    ensures ReadOut(proxy, es, start, room) == Some(NormalAll(Page(es, start, room)) + NormalAll(es[start + Fit(es, start, room)..]))
  {
    hide Encode, Decode, Normal, EncodedLength, NormalAll, EncodeAll, DecodeEntries, Fit, OneKind;
    PageDecodes(proxy, es, start, room);
  }

  lemma {:induction false} ReadOutContent(proxy: bool, es: seq<Record>, start: nat, room: nat)
    requires OneKind(proxy, es) && Roomy(es, room) && start <= |es| && CountsFit(es, start, room)
    ensures ReadOut(proxy, es, start, room) == Some(NormalAll(es[start..]))
    decreases |es| - start
  {
    hide Encode, Decode, Normal, EncodedLength, NormalAll, EncodeAll, DecodeEntries, OneKind;
    var n := Fit(es, start, room);
    if start < |es| {
      assert n > 0;
      ReadOutContent(proxy, es, start + n, room);
      ReadOutStep(proxy, es, start, room);
      NormalAllJoin(Page(es, start, room), es[start + n..]);
      assert es[start..] == Page(es, start, room) + es[start + n..];
    } else {
      NormalOfNone(es[start..]);
    }
  }

  lemma NormalOfNone(es: seq<Record>)
    requires es == []
    ensures NormalAll(es) == []
  {
  }

  /** Page by page the reader gets the same entries in the same order, up to what the format does
      not carry, exactly when no page on the way holds more than 255 entries. */
  lemma ReadOutExactly(proxy: bool, es: seq<Record>, room: nat)
    requires OneKind(proxy, es) && Roomy(es, room)
    ensures ReadOut(proxy, es, 0, room) == Some(NormalAll(es)) <==> CountsFit(es, 0, room)
  {
    ReadOutSize(proxy, es, 0, room);
    if CountsFit(es, 0, room) {
      ReadOutContent(proxy, es, 0, room);
      assert es[0..] == es;
    }
  }

  lemma {:induction false} FitBound(es: seq<Record>, start: nat, room: nat)
    ensures 7 * Fit(es, start, room) <= room
    decreases |es| - start
  {
    if start < |es| && EncodedLength(es[start]) <= room {
      FitBound(es, start + 1, room - EncodedLength(es[start]));
    }
  }

  /** Tables of at most 255 entries, and pages below 1792 octets, always read out right. */
  lemma {:induction false} SmallTablesReadOut(es: seq<Record>, start: nat, room: nat)
    requires start <= |es| && (|es| <= MAX_COUNT || room < 7 * (MAX_COUNT + 1))
    ensures CountsFit(es, start, room)
    decreases |es| - start
  {
    FitBound(es, start, room);
    var n := Fit(es, start, room);
    if n > 0 {
      SmallTablesReadOut(es, start + n, room);
    }
  }

  /** The smallest entry there is, for this source identifier. */
  function Smallest(id: U32): Record {
    ProxyRecord(SrcId(id), true, true, false, [], true, [], false, false, None, None, 0, 0, 0)
  }

  lemma SmallestLength(id: U32)
    ensures EncodedLength(Smallest(id)) == 7
  {
  }

  lemma OverfullDoesNotFit(es: seq<Record>, room: nat)
    requires Fit(es, 0, room) > MAX_COUNT
    ensures !CountsFit(es, 0, room)
  {
  }

  /** A page of the smallest entries of 256 devices announces 255 of them, and the reader gets one twice. */
  lemma OverfullPage()
    ensures var es := seq(256, i requires 0 <= i < 256 => Smallest(i + 1));
            && (forall i, j :: 0 <= i < j < |es| ==> es[i].gpd != es[j].gpd)
            && Roomy(es, 7 * 256) && ReadOut(true, es, 0, 7 * 256) != Some(NormalAll(es))
  {
    hide EncodedLength, Fit, CountsFit, ReadOut, NormalAll;
    var es := seq(256, i requires 0 <= i < 256 => Smallest(i + 1));
    forall i | 0 <= i < |es|
      ensures EncodedLength(es[i]) == 7
    {
      SmallestLength(i + 1);
    }
    FitAll(es, 0);
    OverfullDoesNotFit(es, 7 * 256);
    ReadOutExactly(true, es, 7 * 256);
  }

  lemma {:induction false} FitAll(es: seq<Record>, start: nat)
    requires start <= |es| && forall i :: 0 <= i < |es| ==> EncodedLength(es[i]) == 7
    ensures Fit(es, start, 7 * (|es| - start)) == |es| - start
    decreases |es| - start
  {
    if start < |es| {
      FitAll(es, start + 1);
    }
  }

  /** Restores a table from its octets. */
  method RestoreTable(proxy: bool, capacity: nat, bytes: Bytes) returns (table: Option<seq<Record>>)
    ensures table == DecodeEntries(proxy, capacity, bytes)
  {
    hide Decode;
    var entries: seq<Record> := [];
    var rest := bytes;
    while rest != []
      invariant |entries| <= capacity
      invariant var whole, tail := DecodeEntries(proxy, capacity, bytes), DecodeEntries(proxy, capacity - |entries|, rest);
                whole.Some? == tail.Some? && (whole.Some? ==> whole.value == entries + tail.value)
      decreases |rest|
    {
      var p := Decode(proxy, rest);
      if p.Bad? || |entries| == capacity {
        return None;
      }
      entries := entries + [p.value];
      rest := p.rest;
    }
    assert entries + [] == entries;
    return Some(entries);
  }
}
