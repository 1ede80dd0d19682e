/**
 * The records a NEM12 file is read into. Field values are kept as the text
 * of the file; an empty field is `None` (JavaScript `undefined`). Dates are
 * kept as their digit text, not parsed. Numeric fields are what
 * `Number(...)` makes of the text.
 */
module Nem12 {
  import opened JsValues

  /** One comma-separated field: `None` when empty. */
  type Field = Option<string>

  /** A 100 record. `dateTime` is the text of field 2, which must be present. */
  datatype Header = Header(
    versionHeader: Field,
    dateTime: string,
    fromParticipant: Field,
    toParticipant: Field)

  /** A 200 record: the NMI data details. */
  datatype NmiRecord = NmiRecord(
    nmi: Field,
    nmiConfiguration: Field,
    registerId: Field,
    nmiSuffix: Field,
    mdmDataStreamIdentifier: Field,
    meterSerialNumber: Field,
    uom: Field,
    intervalLength: JsNumber,
    nextScheduledReadDate: Field)

  /**
   * A 300 record without its 400 and 500 records. `updateDateTime` is ""
   * when the field is empty; `msatsLoadDateTime` is `None` only in the
   * relaxed 48-reading form, which has no such field.
   */
  datatype DayRecord = DayRecord(
    intervalDate: string,
    intervalValues: seq<JsNumber>,
    qualityMethod: Field,
    reasonCode: JsNumber,
    reasonDescription: Field,
    updateDateTime: string,
    msatsLoadDateTime: Option<string>)

  /** A 400 record: the quality of the readings `startInterval` to `endInterval`. */
  datatype IntervalEvent = IntervalEvent(
    startInterval: JsNumber,
    endInterval: JsNumber,
    qualityMethod: Field,
    reasonCode: JsNumber,
    reasonDescription: Field)

  /** A 500 record. `readDateTime` is "" when the field is empty. */
  datatype B2BDetails = B2BDetails(
    transCode: Field,
    retServiceOrder: Field,
    readDateTime: string,
    indexRead: JsNumber)

  /**
   * A 300 record with the 400 and 500 records that follow it. A list is
   * `None` when there are no such records; otherwise it holds them in
   * reverse file order.
   */
  datatype IntervalData = IntervalData(
    day: DayRecord,
    intervalEvents: Option<seq<IntervalEvent>>,
    b2bDetails: Option<seq<B2BDetails>>)

  /**
   * A 200 record with the 300 groups that follow it: `None` when there are
   * none, otherwise in reverse file order.
   */
  datatype NmiDataDetails = NmiDataDetails(details: NmiRecord, intervalData: Option<seq<IntervalData>>)

  /** A 900 record. */
  datatype Nem12End = End

  /** A whole file. The NMI blocks are in file order. */
  datatype Nem12File = Nem12File(header: Option<Header>, data: seq<NmiDataDetails>, footer: Option<Nem12End>)

  function Reverse<T>(s: seq<T>): (r: seq<T>)
    ensures |r| == |s|
  {
    if s == [] then [] else Reverse(s[1..]) + [s[0]]
  }

  lemma {:induction false} ReverseIndex<T>(s: seq<T>)
    ensures forall i :: 0 <= i < |s| ==> Reverse(s)[i] == s[|s| - 1 - i]
  {
    if s != [] {
      ReverseIndex(s[1..]);
      var r := Reverse(s);
      assert r == Reverse(s[1..]) + [s[0]];
      assert forall i :: 0 <= i < |s| - 1 ==> r[i] == s[1..][|s| - 2 - i];
    }
  }

  lemma ReverseReverse<T>(s: seq<T>)
    ensures Reverse(Reverse(s)) == s
  {
    ReverseIndex(s);
    ReverseIndex(Reverse(s));
    var r := Reverse(Reverse(s));
    assert forall i :: 0 <= i < |s| ==> r[i] == s[i];
  }
}
