/**
 GPD application descriptions (section A.4.2.1.6 of GP Basic 1.1.2): the three-level
 report descriptors, written and read back.
 */
module Description {
  import opened Types
  import opened Fields
  import opened Cursor

  // ------------------------------------------------------------------
  // The tree and its octets
  // ------------------------------------------------------------------

  datatype Attribute = Attribute(id: U16, dataType: Octet, offset: Option<Octet>, value: Option<Bytes>)

  datatype Point = Point(cluster: U16, server: bool, manufacturer: Option<U16>, attributes: seq<Attribute>)

  datatype Report = Report(id: Octet, timeout: Option<U16>, points: seq<Point>)

  function Bit(b: bool): Octet {
    if b then 1 else 0
  }

  function Remaining(a: Attribute): nat {
    (if a.offset.Some? then 1 else 0) + if a.value.Some? then |a.value.value| else 0
  }

  predicate WritableAttribute(a: Attribute) {
    1 <= Remaining(a) <= 16
  }

  function AttributeBody(a: Attribute): Bytes {
    (if a.offset.Some? then [a.offset.value] else []) + if a.value.Some? then a.value.value else []
  }

  function AttributeOptions(a: Attribute): Octet
    requires WritableAttribute(a)
  {
    Remaining(a) - 1 + 16 * Bit(a.offset.Some?) + 32 * Bit(a.value.Some?)
  }

  function PrintAttribute(a: Attribute): Bytes
    requires WritableAttribute(a)
  {
    Print16(a.id) + [a.dataType, AttributeOptions(a)] + AttributeBody(a)
  }

  predicate WritableAttributes(s: seq<Attribute>) {
    forall i :: 0 <= i < |s| ==> WritableAttribute(s[i])
  }

  function PrintAttributes(s: seq<Attribute>): Bytes
    requires WritableAttributes(s)
  {
    if s == [] then [] else PrintAttribute(s[0]) + PrintAttributes(s[1..])
  }

  predicate WritablePoint(p: Point) {
    1 <= |p.attributes| <= 8 && WritableAttributes(p.attributes)
  }

  function PointOptions(count: nat, server: bool, manufacturer: Option<U16>): Octet
    requires 1 <= count <= 8
  {
    count - 1 + 8 * Bit(server) + 16 * Bit(manufacturer.Some?)
  }

  function PointPrefix(p: Point): Bytes
    requires WritablePoint(p)
  {
    [PointOptions(|p.attributes|, p.server, p.manufacturer)] + Print16(p.cluster) + PrintOpt16(p.manufacturer)
  }

  function PrintPoint(p: Point): Bytes
    requires WritablePoint(p)
  {
    PointPrefix(p) + PrintAttributes(p.attributes)
  }

  predicate WritablePoints(s: seq<Point>) {
    forall i :: 0 <= i < |s| ==> WritablePoint(s[i])
  }

  function PrintPoints(s: seq<Point>): Bytes
    requires WritablePoints(s)
  {
    if s == [] then [] else PrintPoint(s[0]) + PrintPoints(s[1..])
  }

  predicate WritableReport(r: Report) {
    WritablePoints(r.points) && |PrintPoints(r.points)| <= 255
  }

  function PrintReport(r: Report): Bytes
    requires WritableReport(r)
  {
    var points := PrintPoints(r.points);
    [r.id, Bit(r.timeout.Some?)] + PrintOpt16(r.timeout) + [|points|] + points
  }

  predicate WritableReports(s: seq<Report>) {
    forall i :: 0 <= i < |s| ==> WritableReport(s[i])
  }

  function PrintReports(s: seq<Report>): Bytes
    requires WritableReports(s)
  {
    if s == [] then [] else PrintReport(s[0]) + PrintReports(s[1..])
  }

  // ------------------------------------------------------------------
  // Reading
  // ------------------------------------------------------------------

  function U16At(b: Bytes, i: nat): U16
    requires i + 2 <= |b|
  {
    b[i] as int + 256 * b[i + 1] as int
  }

  /** How long the record at the front is, when it is whole. */
  function AttributeLength(b: Bytes): (n: Option<nat>)
    ensures n.Some? ==> 5 <= n.value <= |b|
  {
    if |b| < 4 then None
    else
      var n := 5 + b[3] as int % 16;
      if n <= |b| then Some(n) else None
  }

  function HeadAttribute(b: Bytes): Attribute
    requires AttributeLength(b).Some?
  {
    var body := b[4..AttributeLength(b).value];
    var reported, valued := b[3] / 16 % 2 == 1, b[3] / 32 % 2 == 1;
    Attribute(U16At(b, 0), b[2], if reported then Some(body[0]) else None,
              if valued then Some(if reported then body[1..] else body) else None)
  }

  /** What iterating the records of a data point yields. */
  function Attributes(b: Bytes, left: nat): seq<Attribute> {
    if left == 0 || AttributeLength(b).None? then []
    else [HeadAttribute(b)] + Attributes(b[AttributeLength(b).value..], left - 1)
  }

  /** How long `count` records are, when all of them are whole. */
  function RecordsLength(b: Bytes, count: nat): (n: Option<nat>)
    ensures n.Some? ==> n.value <= |b|
  {
    if count == 0 then Some(0)
    else if AttributeLength(b).None? then None
    else
      var n := AttributeLength(b).value;
      var m := RecordsLength(b[n..], count - 1);
      if m.None? then None else Some(n + m.value)
  }

  datatype RawPoint = RawPoint(cluster: U16, server: bool, manufacturer: Option<U16>, records: Bytes, count: nat)

  datatype RawReport = RawReport(id: Octet, timeout: Option<U16>, points: Bytes, raw: Bytes)

  /** Where the records of the data point at the front start. */
  function RecordsStart(b: Bytes): Option<nat> {
    if |b| < 3 then None
    else if b[0] / 16 % 2 == 0 then Some(3)
    else if |b| < 5 then None
    else Some(5)
  }

  function PointLength(b: Bytes): (n: Option<nat>)
    ensures n.Some? ==> 3 <= n.value <= |b|
  {
    var start := RecordsStart(b);
    if start.None? then None
    else
      var m := RecordsLength(b[start.value..], b[0] as int % 8 + 1);
      if m.None? then None else Some(start.value + m.value)
  }

  function HeadPoint(b: Bytes): RawPoint
    requires PointLength(b).Some?
  {
    var start := RecordsStart(b).value;
    RawPoint(U16At(b, 1), b[0] / 8 % 2 == 1, if start == 5 then Some(U16At(b, 3)) else None,
             b[start..PointLength(b).value], b[0] as int % 8 + 1)
  }

  function Points(b: Bytes): seq<RawPoint> {
    if PointLength(b).None? then [] else [HeadPoint(b)] + Points(b[PointLength(b).value..])
  }

  /** Where the length octet of the report at the front is. */
  function LengthAt(b: Bytes): Option<nat> {
    if |b| < 2 then None
    else
      var at := if b[1] % 2 == 1 then 4 else 2;
      if at < |b| then Some(at) else None
  }

  function ReportLength(b: Bytes): (n: Option<nat>)
    ensures n.Some? ==> 3 <= n.value <= |b|
  {
    var at := LengthAt(b);
    if at.None? || at.value + 1 + b[at.value] as int > |b| then None else Some(at.value + 1 + b[at.value] as int)
  }

  function HeadReport(b: Bytes): RawReport
    requires ReportLength(b).Some?
  {
    var at, n := LengthAt(b).value, ReportLength(b).value;
    RawReport(b[0], if at == 4 then Some(U16At(b, 2)) else None, b[at + 1..n], b[..n])
  }

  function Reports(b: Bytes): seq<RawReport> {
    if ReportLength(b).None? then [] else [HeadReport(b)] + Reports(b[ReportLength(b).value..])
  }

  function ReadPoint(p: RawPoint): Point {
    Point(p.cluster, p.server, p.manufacturer, Attributes(p.records, p.count))
  }

  function ReadPoints(s: seq<RawPoint>): seq<Point> {
    seq(|s|, i requires 0 <= i < |s| => ReadPoint(s[i]))
  }

  function ReadReport(r: RawReport): Report {
    Report(r.id, r.timeout, ReadPoints(Points(r.points)))
  }

  function ReadReports(s: seq<RawReport>): seq<Report> {
    seq(|s|, i requires 0 <= i < |s| => ReadReport(s[i]))
  }

  // ------------------------------------------------------------------
  // The iterators
  // ------------------------------------------------------------------

  class AttributeRecords {
    var rest: Bytes
    var left: nat

    constructor (rest: Bytes, left: nat)
      ensures this.rest == rest && this.left == left
    {
      this.rest, this.left := rest, left;
    }

    method Next() returns (a: Option<Attribute>)
      modifies this
      ensures if old(Attributes(rest, left)) == [] then a.None? && rest == old(rest) && left == old(left)
              else a == Some(old(Attributes(rest, left))[0]) && Attributes(rest, left) == old(Attributes(rest, left))[1..]
    {
      if left == 0 || |rest| < 4 {
        return None;
      }
      var options := rest[3];
      var end := 4 + options as int % 16 + 1;
      if end > |rest| {
        return None;
      }
      var body := rest[4..end];
      var reported, valued := options / 16 % 2 == 1, options / 32 % 2 == 1;
      var offset: Option<Octet> := None;
      var value: Option<Bytes> := None;
      if reported {
        offset := Some(body[0]);
      }
      if valued {
        value := Some(if reported then body[1..] else body);
      }
      a := Some(Attribute(U16At(rest, 0), rest[2], offset, value));
      rest, left := rest[end..], left - 1;
    }
  }

  lemma RecordsStep(b: Bytes, at: nat, n: nat, count: nat)
    requires at + 4 <= |b| && n == 5 + b[at + 3] as int % 16 && at + n <= |b|
    ensures var m := RecordsLength(b[at + n..], count);
            RecordsLength(b[at..], count + 1) == if m.None? then None else Some(n + m.value)
  {
    var t := b[at..];
    assert t[3] == b[at + 3] && AttributeLength(t) == Some(n);
    hide AttributeLength;
    assert t[n..] == b[at + n..];
  }

  lemma NoRecords(b: Bytes)
    ensures RecordsLength(b, 0) == Some(0)
  {
  }

  lemma RecordsCut(b: Bytes, at: nat, count: nat)
    requires at <= |b| && (at + 4 > |b| || at + 5 + b[at + 3] as int % 16 > |b|)
    ensures RecordsLength(b[at..], count + 1).None?
  {
  }

  class DataPoints {
    var rest: Bytes

    constructor (rest: Bytes)
      ensures this.rest == rest
    {
      this.rest := rest;
    }

    /** Walks `count` records from `start` on. */
    static method WalkRecords(b: Bytes, start: nat, count: nat) returns (end: Option<nat>)
      requires start <= |b|
      ensures end == if RecordsLength(b[start..], count).None? then None else Some(start + RecordsLength(b[start..], count).value)
    {
      hide RecordsLength;
      var at := start;
      for i := 0 to count
        invariant start <= at <= |b|
        invariant var m, n := RecordsLength(b[start..], count), RecordsLength(b[at..], count - i);
                  m.Some? == n.Some? && (m.Some? ==> start + m.value == at + n.value)
      {
        if at + 4 > |b| {
          RecordsCut(b, at, count - i - 1);
          return None;
        }
        var n := 5 + b[at + 3] as int % 16;
        if at + n > |b| {
          RecordsCut(b, at, count - i - 1);
          return None;
        }
        RecordsStep(b, at, n, count - i - 1);
        at := at + n;
      }
      NoRecords(b[at..]);
      return Some(at);
    }

    method Next() returns (p: Option<RawPoint>)
      modifies this
      ensures if old(Points(rest)) == [] then p.None? && rest == old(rest)
              else p == Some(old(Points(rest))[0]) && Points(rest) == old(Points(rest))[1..]
    {
      hide RecordsLength, HeadAttribute;
      if |rest| < 3 {
        return None;
      }
      var options := rest[0];
      var count := options as int % 8 + 1;
      var manufacturer: Option<U16> := None;
      var start := 3;
      if options / 16 % 2 == 1 {
        if |rest| < 5 {
          return None;
        }
        manufacturer := Some(U16At(rest, 3));
        start := 5;
      }
      var end := WalkRecords(rest, start, count);
      if end.None? {
        return None;
      }
      p := Some(RawPoint(U16At(rest, 1), options / 8 % 2 == 1, manufacturer, rest[start..end.value], count));
      rest := rest[end.value..];
    }
  }

  class ReportDescriptors {
    var rest: Bytes

    constructor (rest: Bytes)
      ensures this.rest == rest
    {
      this.rest := rest;
    }

    method Next() returns (r: Option<RawReport>)
      modifies this
      ensures if old(Reports(rest)) == [] then r.None? && rest == old(rest)
              else r == Some(old(Reports(rest))[0]) && Reports(rest) == old(Reports(rest))[1..] && |rest| < |old(rest)|
    {
      if |rest| < 2 {
        return None;
      }
      var timeout: Option<U16> := None;
      var at := 2;
      if rest[1] % 2 == 1 {
        if |rest| < 4 {
          return None;
        }
        timeout := Some(U16At(rest, 2));
        at := 4;
      }
      if at >= |rest| {
        return None;
      }
      var end := at + 1 + rest[at] as int;
      if end > |rest| {
        return None;
      }
      r := Some(RawReport(rest[0], timeout, rest[at + 1..end], rest[..end]));
      rest := rest[end..];
    }
  }

  // ------------------------------------------------------------------
  // The writers
  // ------------------------------------------------------------------

  lemma FiveParts(a: Bytes, b: Bytes, c: Bytes, d: Bytes, e: Bytes)
    ensures Joined([a, b, c, d, e]) == a + b + c + d + e
    ensures Joined([a, b, c, d]) == a + b + c + d
  {
    assert [a, b, c, d, e][1..] == [b, c, d, e] && [b, c, d, e][1..] == [c, d, e];
    assert [c, d, e][1..] == [d, e] && [d, e][1..] == [e] && [e][1..] == [];
    assert [a, b, c, d][1..] == [b, c, d] && [b, c, d][1..] == [c, d] && [c, d][1..] == [d] && [d][1..] == [];
    assert Joined([d, e]) == d + e && Joined([d]) == d;
    assert Joined([c, d, e]) == c + (d + e) && Joined([c, d]) == c + d;
    assert Joined([b, c, d, e]) == b + (c + (d + e)) && Joined([b, c, d]) == b + (c + d);
  }

  lemma AttributeParts(a: Attribute, offset: Bytes, value: Bytes)
    requires WritableAttribute(a)
    requires offset == (if a.offset.Some? then [a.offset.value] else []) && value == if a.value.Some? then a.value.value else []
    ensures Joined([Print16(a.id), [a.dataType], [AttributeOptions(a)], offset, value]) == PrintAttribute(a)
  {
    hide Print16, Joined, AttributeOptions;
    FiveParts(Print16(a.id), [a.dataType], [AttributeOptions(a)], offset, value);
  }

  method WriteAttribute(w: Writer, a: Attribute) returns (ok: bool)
    requires w.Valid()
    modifies w, w.buffer
    ensures w.Valid()
    ensures ok <==> WritableAttribute(a) && old(w.position) + |PrintAttribute(a)| <= w.buffer.Length
    ensures ok ==> w.Written() == old(w.Written()) + PrintAttribute(a)
  {
    hide Print16, Joined, PrintAttribute;
    var remaining := Remaining(a);
    if remaining == 0 || remaining > 16 {
      return false;
    }
    var options: Octet := remaining - 1 + 16 * Bit(a.offset.Some?) + 32 * Bit(a.value.Some?);
    var offset := if a.offset.Some? then [a.offset.value] else [];
    var value := if a.value.Some? then a.value.value else [];
    AttributeParts(a, offset, value);
    ok := w.PutAll([Print16(a.id), [a.dataType], [options], offset, value]);
  }

  method WritePoint(w: Writer, cluster: U16, server: bool, manufacturer: Option<U16>, count: Octet, records: Bytes) returns (ok: bool)
    requires w.Valid()
    modifies w, w.buffer
    ensures w.Valid()
    ensures ok <==> 1 <= count <= 8 && old(w.position) + 3 + |PrintOpt16(manufacturer)| + |records| <= w.buffer.Length
    ensures ok ==> w.Written() == old(w.Written()) + ([PointOptions(count, server, manufacturer)] + Print16(cluster) + PrintOpt16(manufacturer) + records)
  {
    hide Print16, Joined, PrintOpt16;
    if count < 1 || count > 8 {
      return false;
    }
    var options: Octet := count - 1 + 8 * Bit(server) + 16 * Bit(manufacturer.Some?);
    FiveParts([options], Print16(cluster), PrintOpt16(manufacturer), records, []);
    ok := w.PutAll([[options], Print16(cluster), PrintOpt16(manufacturer), records]);
  }

  method WriteReport(w: Writer, id: Octet, timeout: Option<U16>, points: Bytes) returns (ok: bool)
    requires w.Valid()
    modifies w, w.buffer
    ensures w.Valid()
    ensures ok <==> |points| <= 255 && old(w.position) + 3 + |PrintOpt16(timeout)| + |points| <= w.buffer.Length
    ensures ok ==> w.Written() == old(w.Written()) + ([id, Bit(timeout.Some?)] + PrintOpt16(timeout) + [|points|] + points)
  {
    hide Joined, PrintOpt16;
    if |points| > 255 {
      var _ := w.PutAll([[id, Bit(timeout.Some?)], PrintOpt16(timeout)]);
      return false;
    }
    FiveParts([id, Bit(timeout.Some?)], PrintOpt16(timeout), [|points|], points, []);
    ok := w.PutAll([[id, Bit(timeout.Some?)], PrintOpt16(timeout), [|points|], points]);
  }

  // ------------------------------------------------------------------
  // Round trips
  // ------------------------------------------------------------------

  lemma OptionBits(rem: nat, a: bool, b: bool)
    requires rem < 16
    ensures var o := rem + 16 * Bit(a) as int + 32 * Bit(b) as int;
            o % 16 == rem && (o / 16 % 2 == 1 <==> a) && (o / 32 % 2 == 1 <==> b)
  {
  }

  lemma OptionBits8(count: nat, a: bool, b: bool)
    requires count < 8
    ensures var o := count + 8 * Bit(a) as int + 16 * Bit(b) as int;
            o % 8 == count && (o / 8 % 2 == 1 <==> a) && (o / 16 % 2 == 1 <==> b)
  {
  }

  lemma DropFront(a: Bytes, b: Bytes)
    ensures (a + b)[|a|..] == b && (a + b)[..|a|] == a
  {
  }

  lemma BodyRoundTrip(a: Attribute)
    requires WritableAttribute(a)
    ensures var body := AttributeBody(a);
            && |body| == Remaining(a)
            && (a.offset.Some? ==> body[0] == a.offset.value)
            && (a.value.Some? ==> a.value.value == if a.offset.Some? then body[1..] else body)
  {
  }

  lemma AttributeRoundTrip(a: Attribute, rest: Bytes)
    requires WritableAttribute(a)
    ensures var b := PrintAttribute(a) + rest;
            AttributeLength(b) == Some(|PrintAttribute(a)|) && HeadAttribute(b) == a
  {
    var b := PrintAttribute(a) + rest;
    OptionBits(Remaining(a) - 1, a.offset.Some?, a.value.Some?);
    assert b[3] == AttributeOptions(a);
    assert U16At(b, 0) == a.id;
    assert AttributeLength(b) == Some(4 + Remaining(a));
    assert b[4..4 + Remaining(a)] == AttributeBody(a);
    BodyRoundTrip(a);
  }

  /** One step of iterating records whose front is known. */
  lemma AttributesStep(x: Bytes, tail: Bytes, left: nat)
    requires AttributeLength(x + tail) == Some(|x|)
    ensures Attributes(x + tail, left + 1) == [HeadAttribute(x + tail)] + Attributes(tail, left)
    ensures RecordsLength(tail, left).Some? ==> RecordsLength(x + tail, left + 1) == Some(|x| + RecordsLength(tail, left).value)
  {
    DropFront(x, tail);
  }

  lemma {:induction false} AttributesRoundTrip(s: seq<Attribute>, rest: Bytes)
    requires WritableAttributes(s)
    ensures Attributes(PrintAttributes(s) + rest, |s|) == s
    ensures RecordsLength(PrintAttributes(s) + rest, |s|) == Some(|PrintAttributes(s)|)
  {
    hide PrintAttribute, HeadAttribute, AttributeLength, WritableAttribute, Attributes, RecordsLength;
    if s != [] {
      var x, tail := PrintAttribute(s[0]), PrintAttributes(s[1..]) + rest;
      AttributesRoundTrip(s[1..], rest);
      AttributeRoundTrip(s[0], tail);
      AttributesStep(x, tail, |s| - 1);
      assert PrintAttributes(s) + rest == x + tail;
    } else {
      NoAttributes(rest);
    }
  }

  lemma NoAttributes(b: Bytes)
    ensures Attributes([] + b, 0) == [] && RecordsLength([] + b, 0) == Some(0)
  {
  }

  /** The header of a data point in front of `b`. */
  lemma PointHeader(p: Point, b: Bytes)
    requires WritablePoint(p)
    requires PointPrefix(p) <= b
    ensures var start := if p.manufacturer.Some? then 5 else 3;
            && RecordsStart(b) == Some(start) && b[0] as int % 8 + 1 == |p.attributes| && (b[0] / 8 % 2 == 1 <==> p.server)
            && U16At(b, 1) == p.cluster && (p.manufacturer.Some? ==> U16At(b, 3) == p.manufacturer.value)
  {
    var h := PointPrefix(p);
    OptionBits8(|p.attributes| - 1, p.server, p.manufacturer.Some?);
    assert b[0] == h[0] && b[1] == h[1] && b[2] == h[2];
    if p.manufacturer.Some? {
      assert b[3] == h[3] && b[4] == h[4];
    }
  }

  lemma PointExtent(p: Point, rest: Bytes)
    requires WritablePoint(p)
    ensures var b, h, records := PrintPoint(p) + rest, PointPrefix(p), PrintAttributes(p.attributes);
            && PointLength(b) == Some(|h| + |records|) && RecordsStart(b) == Some(|h|)
            && b[|h|..|h| + |records|] == records
  {
    hide Attributes, RecordsLength, PrintAttribute, AttributeLength;
    var b, h, records := PrintPoint(p) + rest, PointPrefix(p), PrintAttributes(p.attributes);
    assert b == h + (records + rest);
    PointHeader(p, b);
    DropFront(h, records + rest);
    AttributesRoundTrip(p.attributes, rest);
    DropFront(records, rest);
    assert b[|h|..|h| + |records|] == b[|h|..][..|records|];
  }

  lemma PointRoundTrip(p: Point, rest: Bytes)
    requires WritablePoint(p)
    ensures var b := PrintPoint(p) + rest;
            PointLength(b) == Some(|PrintPoint(p)|) && ReadPoint(HeadPoint(b)) == p
  {
    var b, records := PrintPoint(p) + rest, PrintAttributes(p.attributes);
    PointExtent(p, rest);
    assert PointPrefix(p) <= b;
    PointHeader(p, b);
    AttributesRoundTrip(p.attributes, []);
    assert records + [] == records;
    assert HeadPoint(b) == RawPoint(p.cluster, p.server, p.manufacturer, records, |p.attributes|);
  }

  lemma PointsStep(x: Bytes, tail: Bytes)
    requires PointLength(x + tail) == Some(|x|)
    ensures Points(x + tail) == [HeadPoint(x + tail)] + Points(tail)
  {
    DropFront(x, tail);
  }

  lemma {:induction false} PointsRoundTrip(s: seq<Point>)
    requires WritablePoints(s)
    ensures ReadPoints(Points(PrintPoints(s))) == s
  {
    if s == [] {
      assert PointLength([]).None?;
    } else {
      var x, tail := PrintPoint(s[0]), PrintPoints(s[1..]);
      PointsRoundTrip(s[1..]);
      PointRoundTrip(s[0], tail);
      PointsStep(x, tail);
      ReadPointsCons(HeadPoint(x + tail), Points(tail));
    }
  }

  lemma ReadPointsCons(p: RawPoint, s: seq<RawPoint>)
    ensures ReadPoints([p] + s) == [ReadPoint(p)] + ReadPoints(s)
  {
  }

  lemma ReportHeader(r: Report, points: Bytes, b: Bytes)
    requires |points| <= 255
    requires [r.id, Bit(r.timeout.Some?)] + PrintOpt16(r.timeout) + [|points|] <= b
    ensures var at := if r.timeout.Some? then 4 else 2;
            && LengthAt(b) == Some(at) && b[at] as int == |points| && b[0] == r.id
            && (r.timeout.Some? ==> U16At(b, 2) == r.timeout.value)
  {
    var h := [r.id, Bit(r.timeout.Some?)] + PrintOpt16(r.timeout) + [|points|];
    assert forall i :: 0 <= i < |h| ==> b[i] == h[i];
    assert h[|h| - 1] as int == |points|;
    if r.timeout.Some? {
      assert h[2] == r.timeout.value % 256 && h[3] == r.timeout.value / 256;
    }
  }

  lemma ReportRoundTrip(r: Report, rest: Bytes)
    requires WritableReport(r)
    ensures var b := PrintReport(r) + rest;
            ReportLength(b) == Some(|PrintReport(r)|) && ReadReport(HeadReport(b)) == r && HeadReport(b).raw == PrintReport(r)
  {
    hide Points, PrintPoint, PointLength;
    var b, points := PrintReport(r) + rest, PrintPoints(r.points);
    var h := [r.id, Bit(r.timeout.Some?)] + PrintOpt16(r.timeout) + [|points|];
    assert b == h + (points + rest);
    ReportHeader(r, points, b);
    assert b[|h|..|h| + |points|] == points;
    DropFront(PrintReport(r), rest);
    PointsRoundTrip(r.points);
  }

  lemma ReportsStep(x: Bytes, tail: Bytes)
    requires ReportLength(x + tail) == Some(|x|)
    ensures Reports(x + tail) == [HeadReport(x + tail)] + Reports(tail)
  {
    DropFront(x, tail);
  }

  lemma ReadReportsCons(r: RawReport, s: seq<RawReport>)
    ensures ReadReports([r] + s) == [ReadReport(r)] + ReadReports(s)
  {
  }

  /** Printing any tree the writers accept and reading it back gives the same tree. */
  lemma {:induction false} TreeRoundTrip(s: seq<Report>)
    requires WritableReports(s)
    ensures ReadReports(Reports(PrintReports(s))) == s
    ensures forall i :: 0 <= i < |s| ==> Reports(PrintReports(s))[i].raw == PrintReport(s[i])
  {
    hide PrintReport, ReportLength, HeadReport, ReadReport;
    if s != [] {
      var x, tail := PrintReport(s[0]), PrintReports(s[1..]);
      TreeRoundTrip(s[1..]);
      ReportRoundTrip(s[0], tail);
      ReportsStep(x, tail);
      ReadReportsCons(HeadReport(x + tail), Reports(tail));
    }
  }
}
