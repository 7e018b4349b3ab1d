/**
 * Cataloguing dead letters (api/.../replay/DeadLetterCatalog.java): decoding the source
 * position headers, written as decimal text by the simulator and as big-endian binary by
 * Spring Kafka, and inserting at most one row per message.
 */
module DeadLetterCatalog {
  import opened Common

  type Byte = b: int | 0 <= b < 256

  /** integerHeader and longHeader. */
  datatype Width = INT | LONG

  function Size(w: Width): nat { if w.INT? then 4 else 8 }

  function MaxValue(w: Width): nat { if w.INT? then 0x7fff_ffff else 0x7fff_ffff_ffff_ffff }

  /** The value whose binary form is all ASCII zeros. */
  function AllZeroDigits(w: Width): nat { if w.INT? then 0x3030_3030 else 0x3030_3030_3030_3030 }

  // ---------------------------------------------------------------- decoding and encoding

  predicate IsDigit(b: Byte) { 48 <= b <= 57 }

  predicate AllDigits(v: seq<Byte>) {
    v == [] || (IsDigit(v[|v| - 1]) && AllDigits(v[..|v| - 1]))
  }

  /** Integer.valueOf, before its range check. */
  function Decimal(v: seq<Byte>): (n: nat)
    requires AllDigits(v)
  {
    if v == [] then 0 else 10 * Decimal(v[..|v| - 1]) + (v[|v| - 1] - 48)
  }

  /** ByteBuffer's big-endian value, read as unsigned. */
  function BigEndian(v: seq<Byte>): nat {
    if v == [] then 0 else 256 * BigEndian(v[..|v| - 1]) + v[|v| - 1]
  }

  /** A header's position: decimal text if it is all digits, else a non-negative binary number of the exact size. */
  function Decode(header: Option<seq<Byte>>, w: Width): Option<nat> {
    if header.None? then None
    else
      var v := header.value;
      if v != [] && AllDigits(v) then (if Decimal(v) <= MaxValue(w) then Some(Decimal(v)) else None)
      else if |v| != Size(w) then None
      else if BigEndian(v) <= MaxValue(w) then Some(BigEndian(v)) else None  // above it, Java reads a negative
  }

  /** str(n), as the simulator writes it. */
  function DecimalText(n: nat): (v: seq<Byte>)
    ensures v != []
  {
    if n < 10 then [48 + n] else DecimalText(n / 10) + [48 + n % 10]
  }

  /** The big-endian form of n in `size` bytes. */
  function Binary(n: nat, size: nat): (v: seq<Byte>)
    ensures |v| == size
  {
    if size == 0 then [] else Binary(n / 256, size - 1) + [n % 256]
  }

  lemma {:induction false} TextDecodes(n: nat)
    ensures AllDigits(DecimalText(n)) && Decimal(DecimalText(n)) == n
  {
    if n >= 10 {
      TextDecodes(n / 10);
      var front := DecimalText(n / 10);
      assert (front + [48 + n % 10])[..|front|] == front;
    }
  }

  /** Decimal text is recovered exactly when the value fits the type. */
  lemma {:induction false} TextRoundTrip(n: nat, w: Width)
    ensures Decode(Some(DecimalText(n)), w) == if n <= MaxValue(w) then Some(n) else None
  {
    TextDecodes(n);
  }

  function Power256(size: nat): nat { if size == 0 then 1 else 256 * Power256(size - 1) }

  lemma {:induction false} BinaryDecodes(n: nat, size: nat)
    requires n < Power256(size)
    ensures BigEndian(Binary(n, size)) == n
  {
    if size > 0 {
      BinaryDecodes(n / 256, size - 1);
      var front := Binary(n / 256, size - 1);
      assert (front + [n % 256])[..|front|] == front;
    }
  }

  /** 0x30 repeated, and the largest number of `size` digits. */
  function Zeros(size: nat): nat { if size == 0 then 0 else 256 * Zeros(size - 1) + 48 }

  function Nines(size: nat): nat { if size == 0 then 0 else 10 * Nines(size - 1) + 9 }

  /** Read as binary, digits are at least all zeros; read as text, at most all nines. */
  lemma {:induction false} DigitBounds(v: seq<Byte>)
    requires AllDigits(v)
    ensures BigEndian(v) >= Zeros(|v|) && Decimal(v) <= Nines(|v|)
  {
    if v != [] { DigitBounds(v[..|v| - 1]); }
  }

  lemma Constants(w: Width)
    ensures Zeros(Size(w)) == AllZeroDigits(w) && Nines(Size(w)) < AllZeroDigits(w)
    ensures MaxValue(w) < Power256(Size(w))
  {
    assert Zeros(4) == 0x3030_3030 && Nines(4) == 9999 && Power256(4) == 0x1_0000_0000 by {
      assert Zeros(2) == 0x3030 && Nines(2) == 99 && Power256(2) == 0x1_0000;
    }
    if w.LONG? {
      assert Zeros(6) == 0x3030_3030_3030 && Nines(6) == 999999 && Power256(6) == 0x1_0000_0000_0000;
    }
  }

  /**
   * Binary is recovered exactly when its bytes are not all ASCII digits, hence for every
   * value below 0x30303030 (partitions) or 0x3030303030303030 (offsets).
   */
  lemma {:induction false} BinaryRoundTrip(n: nat, w: Width)
    requires n <= MaxValue(w)
    ensures Decode(Some(Binary(n, Size(w))), w) == Some(n) <==> !AllDigits(Binary(n, Size(w)))
    ensures n < AllZeroDigits(w) ==> Decode(Some(Binary(n, Size(w))), w) == Some(n)
  {
    Constants(w);
    var v := Binary(n, Size(w));
    BinaryDecodes(n, Size(w));
    if AllDigits(v) { DigitBounds(v); }
    hide Binary, AllDigits, Decimal, BigEndian, Zeros, Nines, Power256;
  }

  /** The bound is sharp: the first ambiguous value is read as the text "0000" or "00000000". */
  lemma {:induction false} FirstAmbiguousValue(w: Width)
    ensures AllDigits(Binary(AllZeroDigits(w), Size(w)))
    ensures Decode(Some(Binary(AllZeroDigits(w), Size(w))), w) == Some(0)
  {
    Constants(w);
    ZerosAreDigits(Size(w));
    hide Binary, AllDigits, Decimal, Zeros, Nines, Power256;
  }

  lemma {:induction false} ZerosAreDigits(size: nat)
    ensures AllDigits(Binary(Zeros(size), size)) && Decimal(Binary(Zeros(size), size)) == 0
  {
    if size > 0 {
      ZerosAreDigits(size - 1);
      var front := Binary(Zeros(size - 1), size - 1);
      assert Zeros(size) / 256 == Zeros(size - 1) && Zeros(size) % 256 == 48;
      assert (front + [48])[..|front|] == front;
    }
  }

  /** The first byte bounds a big-endian value. */
  lemma {:induction false} TopByteBounds(v: seq<Byte>)
    requires v != []
    ensures v[0] * Power256(|v| - 1) <= BigEndian(v) < (v[0] + 1) * Power256(|v| - 1)
  {
    if |v| > 1 {
      var p := Power256(|v| - 2);
      TopByteBounds(v[..|v| - 1]);
      assert Power256(|v| - 1) == 256 * p;
      var top: nat := v[0];
      Regroup(top, p);
      Regroup(top + 1, p);
      hide Power256;
    }
  }

  lemma Regroup(a: nat, p: nat)
    ensures a * (256 * p) == 256 * (a * p)
  {
  }

  /** Exactly these headers decode to nothing: digits too large for the type, another length, or a negative number. */
  lemma {:induction false} UndecodableHeaders(v: seq<Byte>, w: Width)
    ensures Decode(None, w).None?
    ensures AllDigits(v) <==> forall i :: 0 <= i < |v| ==> 48 <= v[i] <= 57
    ensures Decode(Some(v), w).None? <==>
            if v != [] && AllDigits(v) then Decimal(v) > (if w.INT? then 0x7fff_ffff else 0x7fff_ffff_ffff_ffff)
            else |v| != (if w.INT? then 4 else 8) || v[0] >= 128
  {
    DigitsThroughout(v);
    if |v| == Size(w) {
      TopByteBounds(v);
      assert Power256(3) == 0x100_0000 by { assert Power256(1) == 256; }
      assert Power256(7) == 0x100_0000_0000_0000 by { assert Power256(5) == 0x100_0000_0000; }
    }
    hide BigEndian, AllDigits, Power256, Decimal;
  }

  lemma {:induction false} DigitsThroughout(v: seq<Byte>)
    ensures AllDigits(v) <==> forall i :: 0 <= i < |v| ==> 48 <= v[i] <= 57
  {
    if v != [] { DigitsThroughout(v[..|v| - 1]); }
  }

  // ---------------------------------------------------------------- the catalog

  datatype Position = Position(topic: string, partition: int, offset: int)

  /** The row's original columns: partition and offset are both known or both null. */
  datatype Source = Known(position: Position) | TopicOnly(topic: string)

  datatype Row = Row(source: Source, dlq: Position)

  datatype Record = Record(dlq: Position, topic: Option<string>, partition: Option<seq<Byte>>, offset: Option<seq<Byte>>)

  const DEFAULT_TOPIC := "vehicle.telemetry.v1"

  predicate Blank(text: string) { forall i :: 0 <= i < |text| ==> text[i] <= ' ' }

  function SourceOf(r: Record): Source {
    var topic := if r.topic.None? || Blank(r.topic.value) then DEFAULT_TOPIC else r.topic.value;
    var partition, offset := Decode(r.partition, INT), Decode(r.offset, LONG);
    if partition.None? || offset.None? then TopicOnly(topic) else Known(Position(topic, partition.value, offset.value))
  }

  predicate HasDlq(rows: seq<Row>, dlq: Position) {
    rows != [] && (rows[|rows| - 1].dlq == dlq || HasDlq(rows[..|rows| - 1], dlq))
  }

  predicate HasSource(rows: seq<Row>, source: Source) {
    rows != [] && (rows[|rows| - 1].source == source || HasSource(rows[..|rows| - 1], source))
  }

  function Captured(rows: seq<Row>, r: Record): seq<Row> {
    if HasDlq(rows, r.dlq) || (SourceOf(r).Known? && HasSource(rows, SourceOf(r))) then rows
    else rows + [Row(SourceOf(r), r.dlq)]
  }

  /** The catalog after a consumer, redeliveries included, has been through the records. */
  function Catalog(records: seq<Record>): seq<Row> {
    if records == [] then [] else Captured(Catalog(records[..|records| - 1]), records[|records| - 1])
  }

  predicate RowsUnique(rows: seq<Row>) {
    rows == []
    || (RowsUnique(rows[..|rows| - 1]) && !HasDlq(rows[..|rows| - 1], rows[|rows| - 1].dlq)
        && (rows[|rows| - 1].source.Known? ==> !HasSource(rows[..|rows| - 1], rows[|rows| - 1].source)))
  }

  lemma {:induction false} CatalogUnique(records: seq<Record>)
    ensures RowsUnique(Catalog(records))
  {
    if records != [] {
      var rows := Catalog(records[..|records| - 1]);
      CatalogUnique(records[..|records| - 1]);
      var row := Row(SourceOf(records[|records| - 1]), records[|records| - 1].dlq);
      assert (rows + [row])[..|rows|] == rows;
      hide SourceOf, HasDlq, HasSource;
    }
  }

  lemma {:induction false} PresentRowIsFound(rows: seq<Row>, i: nat)
    requires i < |rows|
    ensures HasDlq(rows, rows[i].dlq) && HasSource(rows, rows[i].source)
  {
    if i < |rows| - 1 { PresentRowIsFound(rows[..|rows| - 1], i); }
  }

  lemma {:induction false} UniqueRows(rows: seq<Row>, i: nat, j: nat)
    requires RowsUnique(rows) && i < j < |rows|
    ensures rows[i].dlq != rows[j].dlq && !(rows[i].source.Known? && rows[i].source == rows[j].source)
  {
    var front := rows[..|rows| - 1];
    if j < |front| { UniqueRows(front, i, j); } else { PresentRowIsFound(front, i); }
  }

  /** Under any redelivery, no two rows share a DLQ position or a known source position. */
  lemma {:induction false} NoTwoRowsForOneMessage(records: seq<Record>, i: nat, j: nat)
    requires i < j < |Catalog(records)|
    ensures Catalog(records)[i].dlq != Catalog(records)[j].dlq
    ensures Catalog(records)[i].source.Known? ==> Catalog(records)[i].source != Catalog(records)[j].source
  {
    CatalogUnique(records);
    UniqueRows(Catalog(records), i, j);
  }

  lemma {:induction false} HeldExactly(rows: seq<Row>, dlq: Position, source: Source)
    ensures HasDlq(rows, dlq) <==> exists i :: 0 <= i < |rows| && rows[i].dlq == dlq
    ensures HasSource(rows, source) <==> exists i :: 0 <= i < |rows| && rows[i].source == source
  {
    if rows != [] { HeldExactly(rows[..|rows| - 1], dlq, source); }
  }

  /**
   * A record is catalogued exactly when no row has its position in the dead letter topic and, if both
   * position headers decode, none has that source position. Its row names the topic header, or the
   * telemetry topic when that is missing or blank, with the position if it is known.
   */
  lemma {:induction false} CapturesExactly(rows: seq<Row>, r: Record)
    ensures var topic := if r.topic.Some? && !Blank(r.topic.value) then r.topic.value else "vehicle.telemetry.v1";
            var known := Decode(r.partition, INT).Some? && Decode(r.offset, LONG).Some?;
            var source := if known then Known(Position(topic, Decode(r.partition, INT).value, Decode(r.offset, LONG).value)) else TopicOnly(topic);
            var held := exists i :: 0 <= i < |rows| && (rows[i].dlq == r.dlq || (known && rows[i].source == source));
            Captured(rows, r) == if held then rows else rows + [Row(source, r.dlq)]
  {
    HeldExactly(rows, r.dlq, SourceOf(r));
    hide HasDlq, HasSource, Decode, Blank;
  }

  /** A row stands for the record: its own DLQ position, or the same known source position. */
  predicate Represented(rows: seq<Row>, r: Record) {
    HasDlq(rows, r.dlq) || (SourceOf(r).Known? && HasSource(rows, SourceOf(r)))
  }

  lemma CaptureRepresents(rows: seq<Row>, r: Record, other: Record)
    ensures Represented(Captured(rows, r), r)
    ensures Represented(rows, other) ==> Represented(Captured(rows, r), other)
  {
    hide SourceOf;
    assert (rows + [Row(SourceOf(r), r.dlq)])[..|rows|] == rows;
  }

  /** Nothing is lost: every record consumed is represented, so delivering it again changes nothing. */
  lemma {:induction false} RedeliveryChangesNothing(records: seq<Record>, k: nat)
    requires k < |records|
    ensures Represented(Catalog(records), records[k])
    ensures Captured(Catalog(records), records[k]) == Catalog(records)
  {
    var front, last := records[..|records| - 1], records[|records| - 1];
    if k < |front| { RedeliveryChangesNothing(front, k); }
    CaptureRepresents(Catalog(front), last, records[k]);
    hide HasDlq, HasSource, SourceOf;
  }

  /** The record quarantine_invalid_delivery_event publishes for a delivery.created message. */
  function Quarantined(message: Position, dlq: Position): Record
    requires message.partition >= 0 && message.offset >= 0
  {
    Record(dlq, Some(message.topic), Some(DecimalText(message.partition)), Some(DecimalText(message.offset)))
  }

  predicate IsPosition(p: Position) {
    !Blank(p.topic) && 0 <= p.partition <= MaxValue(INT) && 0 <= p.offset <= MaxValue(LONG)
  }

  lemma {:induction false} QuarantineKeepsPosition(message: Position, dlq: Position)
    requires IsPosition(message)
    ensures SourceOf(Quarantined(message, dlq)) == Known(message)
  {
    TextRoundTrip(message.partition, INT);
    TextRoundTrip(message.offset, LONG);
  }

  /** A log position holds one record, however often it is delivered. */
  ghost predicate OneRecordPerPosition(records: seq<Record>) {
    forall i, j :: 0 <= i < j < |records| && records[i].dlq == records[j].dlq ==> records[i] == records[j]
  }

  lemma {:induction false} RowComesFromRecord(records: seq<Record>, dlq: Position) returns (i: nat)
    requires HasDlq(Catalog(records), dlq)
    ensures i < |records| && records[i].dlq == dlq
  {
    var front, last := records[..|records| - 1], records[|records| - 1];
    if HasDlq(Catalog(front), dlq) {
      i := RowComesFromRecord(front, dlq);
    } else {
      i := |front|;
      var rows := Catalog(front);
      assert (rows + [Row(SourceOf(last), last.dlq)])[..|rows|] == rows;
    }
  }

  /** A record with a known source position leaves a row with that position. */
  lemma {:induction false} KnownSourceIsCatalogued(records: seq<Record>, k: nat)
    requires k < |records| && SourceOf(records[k]).Known? && OneRecordPerPosition(records)
    ensures HasSource(Catalog(records), SourceOf(records[k]))
  {
    var front, last := records[..|records| - 1], records[|records| - 1];
    var rows := Catalog(front);
    assert (rows + [Row(SourceOf(last), last.dlq)])[..|rows|] == rows;
    hide SourceOf;
    if k < |front| {
      KnownSourceIsCatalogued(front, k);
    } else if HasDlq(rows, last.dlq) {
      var i := RowComesFromRecord(front, last.dlq);
      assert records[i] == records[k];
      KnownSourceIsCatalogued(front, i);
    }
  }

  /** A message quarantined twice, before and after a crash, is catalogued once whatever comes between. */
  lemma {:induction false} QuarantinedTwiceIsCataloguedOnce(before: seq<Record>, between: seq<Record>, message: Position, first: Position, second: Position)
    requires IsPosition(message)
    requires OneRecordPerPosition(before + [Quarantined(message, first)] + between)
    ensures var once := before + [Quarantined(message, first)] + between;
            Catalog(once + [Quarantined(message, second)]) == Catalog(once)
  {
    var again := Quarantined(message, second);
    var once := before + [Quarantined(message, first)] + between;
    QuarantineKeepsPosition(message, first);
    QuarantineKeepsPosition(message, second);
    assert once[|before|] == Quarantined(message, first);
    KnownSourceIsCatalogued(once, |before|);
    assert (once + [again])[..|once|] == once;
    hide SourceOf, Quarantined, OneRecordPerPosition;
  }

  // ---------------------------------------------------------------- the consumer

  class Catalogue {
    var rows: seq<Row>

    constructor ()
      ensures rows == Catalog([])
    {
      rows := [];
    }

    method Capture(r: Record)
      modifies this
      ensures rows == Captured(old(rows), r)
    {
      if HasDlq(rows, r.dlq) { return; }
      var topic := r.topic;
      if topic.None? || Blank(topic.value) { topic := Some(DEFAULT_TOPIC); }
      var partition, offset := Decode(r.partition, INT), Decode(r.offset, LONG);
      if partition.None? || offset.None? { partition, offset := None, None; }
      var source := TopicOnly(topic.value);
      if partition.Some? && offset.Some? {
        source := Known(Position(topic.value, partition.value, offset.value));
        if HasSource(rows, source) { return; }
      }
      rows := rows + [Row(source, r.dlq)];
    }
  }
}
