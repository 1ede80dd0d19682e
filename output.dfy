/**
 * The two CSV exports of a parsed NEM12 file, without the CSV text itself:
 * the header columns and the rows the exports hand to the CSV writer.
 *
 * The wide view has one row per interval day of every NMI block whose unit is
 * additive, with 48 half-hour buckets summed from the readings. The long view
 * has one row per reading interval, with the interval's quality taken from the
 * day's 400 records when it has any. Either export returns nothing at all
 * (`undefined`) as soon as one of its steps throws; the model returns the
 * reason as an `ExportError`.
 */
module Output {
  import opened JsValues
  import opened Nem12
  import opened Units
  import opened Sequences

  const MinutesInDay: int := 1440

  /** A CSV column: the row property it reads and the title it is written under. */
  datatype Column = Column(id: string, title: string)

  /** What makes an export throw, and so return nothing. */
  datatype ExportError =
    | MissingUom        // `item.uom.toUpperCase()` on an empty uom field
    | MissingDays       // `item.intervalData.map` on a 200 record without 300 records
    | InvalidReading    // `Big(x)` of a reading that is NaN
    | NoMatchingEvent   // `intervalEvent[0]` when no 400 record covers an interval
    | NoEnd             // `i <= numIntervalsInDay` with an interval length of 0 never fails

  // ---------------------------------------------------------------------
  // Zero padding and half-hour labels.

  function Zeros(k: nat): (z: string)
    ensures |z| == k && forall i :: 0 <= i < k ==> z[i] == '0'
  {
    seq(k, _ => '0')
  }

  /** `pad(s, size)`: `s` with '0's in front until it is `size` long. */
  function Padded(s: string, size: int): string {
    if |s| < size then Zeros(size - |s|) + s else s
  }

  /** `pad`: the `while` loop that puts one '0' in front at a time. */
  method Pad(s: string, size: int) returns (r: string)
    ensures r == Padded(s, size)
  {
    r := s;
    while |r| < size
      invariant |s| <= |r| && (|s| < size ==> |r| <= size)
      invariant r == Zeros(|r| - |s|) + s
      invariant |s| >= size ==> r == s
      decreases size - |r|
    {
      assert Zeros(|r| + 1 - |s|) == "0" + Zeros(|r| - |s|);
      r := "0" + r;
    }
  }

  /**
   * The padded text is `size` long unless `s` is already longer, ends with
   * `s`, has only '0's in front of it, and is `s` itself when `s` is long
   * enough.
   */
  lemma PaddedShape(s: string, size: int)
    ensures |Padded(s, size)| == if |s| < size then size else |s|
    ensures Padded(s, size)[|Padded(s, size)| - |s|..] == s
    ensures forall i :: 0 <= i < |Padded(s, size)| - |s| ==> Padded(s, size)[i] == '0'
    ensures |s| >= size ==> Padded(s, size) == s
  {
    if |s| < size {
      DropAppend(Zeros(size - |s|), s);
    }
  }

  /** Padding a numeral keeps its value. */
  lemma PaddedValue(s: string, size: int)
    requires AllDigits(s)
    ensures AllDigits(Padded(s, size)) && DigitsValue(Padded(s, size)) == DigitsValue(s)
  {
    if |s| < size {
      LeadingZerosValue(size - |s|, s);
      assert Zeros(size - |s|) == seq(size - |s|, _ => '0');
    }
  }

  /** The hour of half-hour interval `i`: `Math.floor(i / 2) % 24`. */
  function HourOf(i: nat): nat {
    (i / 2) % 24
  }

  /**
   * `convert30IntervalToString(i)`: the end time of half-hour interval `i`
   * as HHmm, with the hour zero-padded to two digits.
   */
  function Convert30IntervalToString(i: nat): string {
    Padded(NatString(HourOf(i)), 2) + (if i % 2 == 1 then "30" else "00")
  }

  lemma NatStringShort(n: nat)
    requires n < 100
    ensures |NatString(n)| <= 2
  {
    if n >= 10 {
      assert NatString(n / 10) == [DigitChar(n / 10)];
    }
  }

  /** A label is four digits: the hour, then "30" for odd intervals and "00" for even ones. */
  lemma LabelShape(i: nat)
    ensures |Convert30IntervalToString(i)| == 4
    ensures AllDigits(Convert30IntervalToString(i)[..2])
    ensures DigitsValue(Convert30IntervalToString(i)[..2]) == HourOf(i)
    ensures Convert30IntervalToString(i)[2..] == if i % 2 == 1 then "30" else "00"
  {
    var h := NatString(HourOf(i));
    NatStringShort(HourOf(i));
    PaddedShape(h, 2);
    PaddedValue(h, 2);
    NatStringValue(HourOf(i));
    DropAppend(Padded(h, 2), if i % 2 == 1 then "30" else "00");
  }

  lemma LabelExamples()
    ensures Convert30IntervalToString(1) == "0030"
    ensures Convert30IntervalToString(13) == "0630"
    ensures Convert30IntervalToString(47) == "2330"
    ensures Convert30IntervalToString(48) == "0000"
  {
    assert NatString(0) == "0";
    assert NatString(6) == "6";
    assert NatString(23) == "23" by {
      assert NatString(2) == "2";
      assert NatString(3) == "3";
    }
    assert Zeros(1) == "0";
  }

  /** The 48 half-hour labels of a day are pairwise distinct. */
  lemma LabelsDistinct(i: nat, j: nat)
    requires 1 <= i <= 48 && 1 <= j <= 48 && i != j
    ensures Convert30IntervalToString(i) != Convert30IntervalToString(j)
  {
    var a := Convert30IntervalToString(i);
    var b := Convert30IntervalToString(j);
    LabelShape(i);
    LabelShape(j);
    if HourOf(i) != HourOf(j) {
      assert a[..2] != b[..2];
    } else {
      assert i % 2 != j % 2;
      assert a[2..][0] != b[2..][0];
    }
  }

  // ---------------------------------------------------------------------
  // Columns.

  /** The first eleven columns of the wide view (the misspelt id is the source's own). */
  const WideFixedColumns: seq<Column> := [
    Column("intervalDate", "interval_date"),
    Column("nmi", "nmi"),
    Column("registerId", "register_id"),
    Column("nmiSuffix", "nmi_suffix"),
    Column("mdmDataStreamIdenfier", "mdm_data_stream_identifier"),
    Column("meterSerialNumber", "meter_serial_number"),
    Column("nextScheduledReadDate", "next_scheduled_read_date"),
    Column("qualityMethod", "quality_method"),
    Column("updateDatetime", "update_datetime"),
    Column("uom", "uom"),
    Column("originalIntervalLength", "original_interval_length")
  ]

  /** The column of half-hour bucket `i`: id and title are both `interval_HHmm`. */
  function IntervalColumn(i: nat): (c: Column)
    ensures c.id == c.title
  {
    var id := "interval_" + Convert30IntervalToString(i);
    Column(id, id)
  }

  /** The wide header: the fixed columns, then the buckets 1 to 48 in order. */
  method WideHeader() returns (header: seq<Column>)
    ensures |header| == 59 && header[..11] == WideFixedColumns
    ensures forall i :: 1 <= i <= 48 ==> header[10 + i] == IntervalColumn(i)
  {
    header := WideFixedColumns;
    for i := 1 to 49
      invariant |header| == 10 + i && header[..11] == WideFixedColumns
      invariant forall k :: 1 <= k < i ==> header[10 + k] == IntervalColumn(k)
    {
      header := header + [IntervalColumn(i)];
    }
  }

  /** The bucket columns have distinct ids. */
  lemma IntervalIdsDistinct(i: nat, j: nat)
    requires 1 <= i <= 48 && 1 <= j <= 48 && i != j
    ensures IntervalColumn(i).id != IntervalColumn(j).id
  {
    LabelsDistinct(i, j);
    DropAppend("interval_", Convert30IntervalToString(i));
    DropAppend("interval_", Convert30IntervalToString(j));
  }

  /** No bucket column has the id of a fixed column. */
  lemma IntervalIdNotFixed(i: nat)
    ensures forall k :: 0 <= k < |WideFixedColumns| ==> WideFixedColumns[k].id != IntervalColumn(i).id
  {
    LabelShape(i);
    var id := IntervalColumn(i).id;
    assert |id| == 13 && id[0] == 'i';
    assert forall k :: 0 <= k < |WideFixedColumns| ==> |WideFixedColumns[k].id| != 13 || WideFixedColumns[k].id[0] != 'i';
  }

  /** The long view's columns. */
  const LongColumns: seq<Column> := [
    Column("intervalDate", "interval_date"),
    Column("nmi", "nmi"),
    Column("registerId", "register_id"),
    Column("nmiSuffix", "nmi_suffix"),
    Column("mdmDataStreamIdenfier", "mdm_data_stream_identifier"),
    Column("meterSerialNumber", "meter_serial_number"),
    Column("nextScheduledReadDate", "next_scheduled_read_date"),
    Column("updateDatetime", "update_datetime"),
    Column("uom", "uom"),
    Column("intervalLength", "interval_length"),
    Column("qualityMethod", "quality_method"),
    Column("reasonCode", "reason_code"),
    Column("reasonDescription", "reason_description"),
    Column("intervalStartTimestamp", "interval_start_timestamp"),
    Column("intervalEndTimestamp", "interval_end_timestamp"),
    Column("readValue", "read_value")
  ]

  // ---------------------------------------------------------------------
  // Filtering by NMI and suffix (both exports).

  /** The optional `args` of both exports: the NMI and the suffix to keep. */
  datatype FilterArgs = FilterArgs(nmi: Option<string>, nmiSuffix: Option<string>)

  /** The 200 record field a filter compares. */
  datatype Key = ByNmi | BySuffix

  function KeyOf(b: NmiDataDetails, k: Key): Field {
    match k
    case ByNmi => b.details.nmi
    case BySuffix => b.details.nmiSuffix
  }

  /** `filter(item => item[k] == v)`: an empty field is `undefined` and never equals `v`. */
  function Select(bs: seq<NmiDataDetails>, k: Key, v: string): seq<NmiDataDetails> {
    if bs == [] then []
    else (if KeyOf(bs[0], k) == Some(v) then [bs[0]] else []) + Select(bs[1..], k, v)
  }

  /** The blocks both exports start from: the NMI filter, then the suffix filter, each only when asked for. */
  function PreFilter(bs: seq<NmiDataDetails>, args: Option<FilterArgs>): seq<NmiDataDetails> {
    if args.None? then bs
    else
      var byNmi := if args.value.nmi.Some? then Select(bs, ByNmi, args.value.nmi.value) else bs;
      if args.value.nmiSuffix.Some? then Select(byNmi, BySuffix, args.value.nmiSuffix.value) else byNmi
  }

  /** Whether a block passes every filter `args` asks for. */
  predicate Matches(args: Option<FilterArgs>, b: NmiDataDetails) {
    args.None? ||
    ((args.value.nmi.None? || b.details.nmi == args.value.nmi) &&
     (args.value.nmiSuffix.None? || b.details.nmiSuffix == args.value.nmiSuffix))
  }

  lemma {:induction false} SelectMembers(bs: seq<NmiDataDetails>, k: Key, v: string)
    ensures forall b :: b in Select(bs, k, v) <==> b in bs && KeyOf(b, k) == Some(v)
  {
    if bs != [] {
      SelectMembers(bs[1..], k, v);
      assert forall b :: b in bs <==> b == bs[0] || b in bs[1..];
    }
  }

  lemma {:induction false} SelectAppend(a: seq<NmiDataDetails>, c: seq<NmiDataDetails>, k: Key, v: string)
    ensures Select(a + c, k, v) == Select(a, k, v) + Select(c, k, v)
  {
    if a != [] {
      assert (a + c)[1..] == a[1..] + c;
      SelectAppend(a[1..], c, k, v);
    } else {
      assert a + c == c;
    }
  }

  /** A block is kept exactly when it passes the filters. */
  lemma PreFilterMembers(bs: seq<NmiDataDetails>, args: Option<FilterArgs>)
    ensures forall b :: b in PreFilter(bs, args) <==> b in bs && Matches(args, b)
  {
    if args.Some? {
      SelectMembers(bs, ByNmi, if args.value.nmi.Some? then args.value.nmi.value else "");
      var byNmi := if args.value.nmi.Some? then Select(bs, ByNmi, args.value.nmi.value) else bs;
      SelectMembers(byNmi, BySuffix, if args.value.nmiSuffix.Some? then args.value.nmiSuffix.value else "");
    }
  }

  /**
   * The filters keep the blocks' order: filtering a concatenation is
   * concatenating the filtered parts.
   */
  lemma PreFilterOrder(a: seq<NmiDataDetails>, c: seq<NmiDataDetails>, args: Option<FilterArgs>)
    ensures PreFilter(a + c, args) == PreFilter(a, args) + PreFilter(c, args)
  {
    if args.Some? {
      if args.value.nmi.Some? {
        SelectAppend(a, c, ByNmi, args.value.nmi.value);
      }
      var na := if args.value.nmi.Some? then Select(a, ByNmi, args.value.nmi.value) else a;
      var nc := if args.value.nmi.Some? then Select(c, ByNmi, args.value.nmi.value) else c;
      if args.value.nmiSuffix.Some? {
        SelectAppend(na, nc, BySuffix, args.value.nmiSuffix.value);
      }
    }
  }

  lemma SelectSingle(b: NmiDataDetails, k: Key, v: string)
    ensures Select([b], k, v) == if KeyOf(b, k) == Some(v) then [b] else []
  {
    assert [b][1..] == [];
  }

  /** One block is kept or dropped whole, as it passes the filters or not. */
  lemma PreFilterSingle(b: NmiDataDetails, args: Option<FilterArgs>)
    ensures PreFilter([b], args) == if Matches(args, b) then [b] else []
  {
    if args.Some? {
      if args.value.nmi.Some? {
        SelectSingle(b, ByNmi, args.value.nmi.value);
      }
      if args.value.nmiSuffix.Some? {
        SelectSingle(b, BySuffix, args.value.nmiSuffix.value);
        assert Select([], BySuffix, args.value.nmiSuffix.value) == [];
      }
    }
  }

  // ---------------------------------------------------------------------
  // Which blocks the wide view exports.

  /** `getIsAdditive(getUomFromUpper(uom.toUpperCase()))` is truthy: `null` and `false` are not. */
  predicate AdditiveUom(uom: string) {
    GetIsAdditive(GetUomFromUpper(Some(ToUpper(uom)))) == Some(true)
  }

  /** The `uom` column of the wide view: the canonical unit of the upper-cased unit. */
  function CanonicalOf(uom: string): Option<string> {
    GetCanonicalUnitName(GetUomFromUpper(Some(ToUpper(uom))))
  }

  /**
   * The additive-unit filter. A block whose unit field is empty makes
   * `toUpperCase` throw, which ends the whole export.
   */
  function EligibleBlocks(bs: seq<NmiDataDetails>): Result<seq<NmiDataDetails>, ExportError> {
    if bs == [] then Ok([])
    else if bs[0].details.uom.None? then Err(MissingUom)
    else
      match EligibleBlocks(bs[1..])
      case Err(e) => Err(e)
      case Ok(rest) => Ok((if AdditiveUom(bs[0].details.uom.value) then [bs[0]] else []) + rest)
  }

  /**
   * A unit is additive exactly when its upper-cased text is the upper-case
   * name of an additive unit; any other text, an unknown unit included, is
   * dropped.
   */
  lemma AdditiveUomIff(uom: string)
    ensures AdditiveUom(uom) <==> exists u :: ToUpper(uom) == UpperName(u) && Info(u).additive
    ensures (forall u :: ToUpper(uom) != UpperName(u)) ==> GetUomFromUpper(Some(ToUpper(uom))).None?
  {
    var up := ToUpper(uom);
    match UnitFromUpper(up)
    case None =>
      forall u ensures up != UpperName(u) {
        UnitFromUpperIsUpperName(up, u);
      }
    case Some(u) =>
      UnitFromUpperIsUpperName(up, u);
      UnitNamedOfName(u);
      forall v | up == UpperName(v) ensures v == u {
        UnitFromUpperIsUpperName(up, v);
      }
  }

  /**
   * The additive filter fails exactly when some block has no unit, and
   * otherwise keeps exactly the blocks whose unit is additive.
   */
  lemma {:induction false} EligibleBlocksIff(bs: seq<NmiDataDetails>)
    ensures EligibleBlocks(bs).Err? <==> exists i :: 0 <= i < |bs| && bs[i].details.uom.None?
    ensures EligibleBlocks(bs).Err? ==> EligibleBlocks(bs).error == MissingUom
    ensures EligibleBlocks(bs).Ok? ==>
      forall b :: b in EligibleBlocks(bs).value <==> b in bs && b.details.uom.Some? && AdditiveUom(b.details.uom.value)
  {
    if bs != [] {
      EligibleBlocksIff(bs[1..]);
      assert forall i :: 1 <= i < |bs| ==> bs[i] == bs[1..][i - 1];
      assert forall b :: b in bs <==> b == bs[0] || b in bs[1..];
    }
  }

  /**
   * An additive unit has a canonical unit, and converting to that unit
   * changes no value, since every canonical unit has multiplier 1.
   */
  lemma CanonicalOfAdditive(uom: string, value: real)
    requires AdditiveUom(uom)
    ensures CanonicalOf(uom).Some?
    ensures GetIsAdditive(CanonicalOf(uom)) == Some(true)
    ensures ConvertToCanonicalUnit(CanonicalOf(uom), value) == Some(value)
  {
    var named := GetUomFromUpper(Some(ToUpper(uom)));
    AdditiveWithinFamily(named);
    ConvertCanonicalIsIdentity(named, value);
  }

  // ---------------------------------------------------------------------
  // The wide view's half-hour buckets.

  /** JavaScript's conversion of a finite number to an integer index: toward zero. */
  function Trunc(r: real): int {
    if r >= 0.0 then WholePart(r) else -(WholePart(-r) as int)
  }

  /** The whole part of a non-negative number, one unit at a time. */
  function WholePart(r: real): nat
    requires r >= 0.0
    decreases r.Floor
  {
    if r < 1.0 then 0 else 1 + WholePart(r - 1.0)
  }

  lemma {:induction false} WholePartBounds(r: real)
    requires r >= 0.0
    ensures WholePart(r) as real <= r < WholePart(r) as real + 1.0
    decreases r.Floor
  {
    if r >= 1.0 {
      WholePartBounds(r - 1.0);
    }
  }

  /** A `slice` bound: negative counts from the end, and both ends are clamped to the sequence. */
  function RelativeIndex(rel: real, len: nat): (k: nat)
    ensures k <= len
  {
    var t := Trunc(rel);
    if t < 0 then (if len + t < 0 then 0 else len + t)
    else if t < len then t else len
  }

  /** `s.slice(start, end)` with finite bounds. */
  function JsSlice<T>(s: seq<T>, start: real, end: real): seq<T> {
    var from := RelativeIndex(start, |s|);
    var to := RelativeIndex(end, |s|);
    if from < to then s[from..to] else []
  }

  /**
   * The readings summed into bucket `k`: with `step = 30 / length`,
   * `values.slice((k - 1) * step, (k - 1) * step + step)`. A length that is
   * NaN makes both bounds NaN, which `slice` reads as 0. A length of 0 makes
   * `step` Infinity: bucket 1's bounds are `0 * Infinity`, NaN, and every
   * later bucket's are Infinity, which is the end of the readings. A
   * length of -0 makes `step` -Infinity: the bounds are NaN or -Infinity,
   * both the start of the readings. Every such bucket is empty.
   */
  function BucketSlice(values: seq<JsNumber>, length: JsNumber, k: int): seq<JsNumber> {
    match length
    case NaN => []
    case NegZero => []
    case Num(x) => if x == 0.0 then [] else BucketOf(values, 30.0 / x, k)
  }

  /** Bucket `k` for a finite `step`. */
  function BucketOf(values: seq<JsNumber>, step: real, k: int): seq<JsNumber> {
    JsSlice(values, (k as real - 1.0) * step, (k as real - 1.0) * step + step)
  }

  /**
   * `map(x => Big(x)).reduce((a, b) => a.plus(b), 0)`: the sum of the
   * readings, or an error when one of them is NaN, which `Big` refuses.
   */
  function SumReadings(xs: seq<JsNumber>): (r: Result<real, ExportError>)
    ensures r.Err? <==> exists i :: 0 <= i < |xs| && xs[i].NaN?
    ensures r.Err? ==> r.error == InvalidReading
  {
    if xs == [] then Ok(0.0)
    else if xs[0].NaN? then Err(InvalidReading)
    else
      match SumReadings(xs[1..])
      case Err(e) => (assert xs[1..][0] == xs[1]; Err(e))
      case Ok(t) => Ok(RealOf(xs[0]) + t)
  }

  /**
   * When the interval length divides 30 minutes into `s` readings, bucket
   * `k` is the `k`-th run of `s` readings: indices `(k - 1) * s` up to
   * `k * s`.
   */
  lemma BucketFormula(values: seq<JsNumber>, x: real, s: nat, k: nat)
    requires x > 0.0 && s >= 1 && 30.0 / x == s as real
    requires 1 <= k && k * s <= |values|
    ensures BucketSlice(values, Num(x), k) == values[(k - 1) * s..k * s]
  {
    BucketOfRun(values, s, k);
  }

  lemma BucketOfRun(values: seq<JsNumber>, s: nat, k: nat)
    requires s >= 1 && 1 <= k && k * s <= |values|
    ensures BucketOf(values, s as real, k) == values[(k - 1) * s..k * s]
  {
    var a, b := (k - 1) * s, k * s;
    assert b == a + s;
    NatProduct(k - 1, s);
    assert (k as real - 1.0) * (s as real) == a as real;
    TruncOfNat(a);
    TruncOfNat(b);
    assert RelativeIndex(a as real, |values|) == a;
    assert RelativeIndex(b as real, |values|) == b;
  }

  lemma NatProduct(a: nat, b: nat)
    ensures (a as real) * (b as real) == (a * b) as real
  {
  }

  lemma {:induction false} TruncOfNat(n: nat)
    ensures Trunc(n as real) == n
  {
    if n > 0 {
      TruncOfNat(n - 1);
      assert n as real - 1.0 == (n - 1) as real;
    }
  }

  /** Fifteen-minute readings: bucket `k` sums readings `2k - 2` and `2k - 1`. */
  lemma FifteenMinuteBucket(values: seq<JsNumber>, k: nat)
    requires 1 <= k && 2 * k <= |values|
    ensures BucketSlice(values, Num(15.0), k) == [values[2 * k - 2], values[2 * k - 1]]
  {
    BucketFormula(values, 15.0, 2, k);
  }

  /** With an interval length of NaN, 0 or -0, every bucket is empty, so it sums to 0. */
  lemma DegenerateLengthBuckets(values: seq<JsNumber>, length: JsNumber, k: nat)
    requires length.NaN? || length.NegZero? || length == Num(0.0)
    ensures BucketSlice(values, length, k) == []
    ensures SumReadings(BucketSlice(values, length, k)) == Ok(0.0)
  {
  }

  // ---------------------------------------------------------------------
  // The wide view's rows.

  /**
   * One row of the wide view: an interval day of a block. `uom` is the
   * canonical unit, and `intervals[k - 1]` is the value of the column of
   * bucket `k`.
   */
  datatype WideRow = WideRow(
    intervalDate: string,
    nmi: Field,
    registerId: Field,
    nmiSuffix: Field,
    meterSerialNumber: Field,
    nextScheduledReadDate: Field,
    qualityMethod: Field,
    updateDatetime: string,
    uom: Option<string>,
    originalIntervalLength: JsNumber,
    intervals: seq<Option<real>>)

  /** The value of bucket `k`'s column: its sum in the canonical unit. */
  function Cell(values: seq<JsNumber>, length: JsNumber, canonical: Option<string>, k: int): Option<real> {
    match SumReadings(BucketSlice(values, length, k))
    case Err(_) => None
    case Ok(sum) => ConvertToCanonicalUnit(canonical, sum)
  }

  /** Whether all 48 buckets of a day can be summed. */
  predicate BucketsReadable(values: seq<JsNumber>, length: JsNumber) {
    forall k :: 1 <= k <= 48 ==> BucketReadable(values, length, k)
  }

  /** Whether bucket `k` of a day can be summed. */
  predicate BucketReadable(values: seq<JsNumber>, length: JsNumber, k: int) {
    SumReadings(BucketSlice(values, length, k)).Ok?
  }

  /** The 48 bucket columns of a day, or an error when a bucket holds a NaN reading. */
  function WideCells(values: seq<JsNumber>, length: JsNumber, canonical: Option<string>): Result<seq<Option<real>>, ExportError> {
    if !BucketsReadable(values, length) then Err(InvalidReading)
    else Ok(seq(48, j => Cell(values, length, canonical, j + 1)))
  }

  /** The row of day `d` of block `b`, or the reason computing it throws. */
  function WideRowOf(b: NmiDataDetails, d: IntervalData): Result<WideRow, ExportError> {
    if b.details.uom.None? then Err(MissingUom)
    else
      var canonical := CanonicalOf(b.details.uom.value);
      match WideCells(d.day.intervalValues, b.details.intervalLength, canonical)
      case Err(e) => Err(e)
      case Ok(cells) => Ok(RowWith(b, d, canonical, cells))
  }

  /** The `row` object: the block's and the day's fields, then the bucket columns. */
  function RowWith(b: NmiDataDetails, d: IntervalData, canonical: Option<string>, cells: seq<Option<real>>): WideRow {
    WideRow(
      d.day.intervalDate, b.details.nmi, b.details.registerId, b.details.nmiSuffix,
      b.details.meterSerialNumber, b.details.nextScheduledReadDate, d.day.qualityMethod,
      d.day.updateDateTime, canonical, b.details.intervalLength, cells)
  }

  /** The `for` loop that sets the 48 bucket columns of a row in turn. */
  method BucketCells(values: seq<JsNumber>, length: JsNumber, canonical: Option<string>) returns (r: Result<seq<Option<real>>, ExportError>)
    ensures r == WideCells(values, length, canonical)
  {
    ghost var all := seq(48, j => Cell(values, length, canonical, j + 1));
    var cells: seq<Option<real>> := [];
    for i := 1 to 49
      invariant cells == all[..i - 1]
      invariant forall k :: 1 <= k < i ==> BucketReadable(values, length, k)
    {
      var sum := SumReadings(BucketSlice(values, length, i));
      if sum.Err? {
        assert !BucketReadable(values, length, i);
        return Err(InvalidReading);
      }
      assert all[i - 1] == ConvertToCanonicalUnit(canonical, sum.value);
      cells := cells + [ConvertToCanonicalUnit(canonical, sum.value)];
    }
    assert cells == all;
    r := Ok(cells);
  }

  /** The row of one day: the block's fields, the canonical unit and the bucket columns. */
  method BuildWideRow(b: NmiDataDetails, d: IntervalData) returns (r: Result<WideRow, ExportError>)
    ensures r == WideRowOf(b, d)
  {
    if b.details.uom.None? {
      return Err(MissingUom);
    }
    var canonical := CanonicalOf(b.details.uom.value);
    var cells := BucketCells(d.day.intervalValues, b.details.intervalLength, canonical);
    if cells.Err? {
      return Err(cells.error);
    }
    r := Ok(RowWith(b, d, canonical, cells.value));
  }

  /** `intervalData.map(...)`: the rows of a block's days, in the order the days are stored. */
  function WideDayRows(b: NmiDataDetails, days: seq<IntervalData>): Result<seq<WideRow>, ExportError> {
    if days == [] then Ok([])
    else
      match WideRowOf(b, days[0])
      case Err(e) => Err(e)
      case Ok(row) =>
        match WideDayRows(b, days[1..])
        case Err(e) => Err(e)
        case Ok(rest) => Ok([row] + rest)
  }

  /**
   * The rows of the eligible blocks, flattened one level. A 200 record
   * without 300 records has no `intervalData`, and mapping over it throws.
   */
  function WideBlockRows(bs: seq<NmiDataDetails>): Result<seq<WideRow>, ExportError> {
    if bs == [] then Ok([])
    else if bs[0].intervalData.None? then Err(MissingDays)
    else
      match WideDayRows(bs[0], bs[0].intervalData.value)
      case Err(e) => Err(e)
      case Ok(rows) =>
        match WideBlockRows(bs[1..])
        case Err(e) => Err(e)
        case Ok(rest) => Ok(rows + rest)
  }

  /** The records `getReadsCSV30` writes after its header, or the reason it returns nothing. */
  function ReadsCSV30(file: Nem12File, args: Option<FilterArgs>): Result<seq<WideRow>, ExportError> {
    match EligibleBlocks(PreFilter(file.data, args))
    case Err(e) => Err(e)
    case Ok(blocks) => WideBlockRows(blocks)
  }

  /**
   * The rows of an additive block hold raw sums: bucket `k`'s column is the
   * sum of its readings, not rescaled, and the `uom` column names the
   * additive canonical unit.
   */
  lemma WideCellsAreSums(b: NmiDataDetails, d: IntervalData)
    requires b.details.uom.Some? && AdditiveUom(b.details.uom.value)
    requires WideRowOf(b, d).Ok?
    ensures var row := WideRowOf(b, d).value;
      && row.uom == CanonicalOf(b.details.uom.value)
      && GetIsAdditive(row.uom) == Some(true)
      && |row.intervals| == 48
      && forall k :: 1 <= k <= 48 ==>
           SumReadings(BucketSlice(d.day.intervalValues, b.details.intervalLength, k)).Ok? &&
           row.intervals[k - 1] == Some(SumReadings(BucketSlice(d.day.intervalValues, b.details.intervalLength, k)).value)
  {
    var uom := b.details.uom.value;
    var values, length := d.day.intervalValues, b.details.intervalLength;
    CanonicalOfAdditive(uom, 0.0);
    assert BucketsReadable(values, length);
    forall k | 1 <= k <= 48
      ensures SumReadings(BucketSlice(values, length, k)).Ok? &&
              Cell(values, length, CanonicalOf(uom), k) == Some(SumReadings(BucketSlice(values, length, k)).value)
    {
      assert BucketReadable(values, length, k);
      CanonicalOfAdditive(uom, SumReadings(BucketSlice(values, length, k)).value);
    }
  }

  /** A day's row fails exactly when its unit is empty or one of its buckets holds a NaN reading. */
  lemma WideRowFails(b: NmiDataDetails, d: IntervalData)
    ensures WideRowOf(b, d).Err? <==>
      b.details.uom.None? ||
      exists k, i :: 1 <= k <= 48 && 0 <= i < |BucketSlice(d.day.intervalValues, b.details.intervalLength, k)| &&
        BucketSlice(d.day.intervalValues, b.details.intervalLength, k)[i].NaN?
  {
    var values, length := d.day.intervalValues, b.details.intervalLength;
    assert forall k :: BucketReadable(values, length, k) <==>
      !exists i :: 0 <= i < |BucketSlice(values, length, k)| && BucketSlice(values, length, k)[i].NaN?;
  }

  /**
   * A block's rows are its days' rows, one per day in the order the days
   * are stored, and they fail exactly when one day's row fails.
   */
  lemma {:induction false} WideDayRowsIff(b: NmiDataDetails, days: seq<IntervalData>)
    ensures WideDayRows(b, days).Err? <==> exists j :: 0 <= j < |days| && WideRowOf(b, days[j]).Err?
    ensures WideDayRows(b, days).Ok? ==>
      |WideDayRows(b, days).value| == |days| &&
      forall j :: 0 <= j < |days| ==> WideRowOf(b, days[j]) == Ok(WideDayRows(b, days).value[j])
  {
    if days != [] {
      WideDayRowsIff(b, days[1..]);
      assert forall j :: 1 <= j < |days| ==> days[1..][j - 1] == days[j];
    }
  }

  /** A block fails the wide view when it has no days or one of its days fails. */
  predicate WideBlockFails(b: NmiDataDetails) {
    b.intervalData.None? || WideDayRows(b, b.intervalData.value).Err?
  }

  /** The number of interval days of some blocks. */
  function DayCount(bs: seq<NmiDataDetails>): nat {
    if bs == [] then 0
    else (if bs[0].intervalData.Some? then |bs[0].intervalData.value| else 0) + DayCount(bs[1..])
  }

  /**
   * The eligible blocks' rows fail exactly when one block fails, and
   * otherwise are one row per interval day.
   */
  lemma {:induction false} WideBlockRowsIff(bs: seq<NmiDataDetails>)
    ensures WideBlockRows(bs).Err? <==> exists i :: 0 <= i < |bs| && WideBlockFails(bs[i])
    ensures WideBlockRows(bs).Ok? ==> |WideBlockRows(bs).value| == DayCount(bs)
  {
    if bs != [] {
      WideBlockRowsIff(bs[1..]);
      assert forall i :: 1 <= i < |bs| ==> bs[1..][i - 1] == bs[i];
      if bs[0].intervalData.Some? {
        WideDayRowsIff(bs[0], bs[0].intervalData.value);
      }
    }
  }

  /** What every row of a view keeps of the filters: the NMI and suffix asked for. */
  predicate RowPassesFilter(args: Option<FilterArgs>, nmi: Field, nmiSuffix: Field) {
    args.None? ||
    ((args.value.nmi.None? || nmi == args.value.nmi) &&
     (args.value.nmiSuffix.None? || nmiSuffix == args.value.nmiSuffix))
  }

  /** A wide row that keeps the filters and is in an additive canonical unit. */
  predicate WideRowAllowed(args: Option<FilterArgs>, r: WideRow) {
    RowPassesFilter(args, r.nmi, r.nmiSuffix) && GetIsAdditive(r.uom) == Some(true)
  }

  /** A block the wide view may take rows from. */
  predicate WideBlockAllowed(args: Option<FilterArgs>, b: NmiDataDetails) {
    Matches(args, b) && b.details.uom.Some? && AdditiveUom(b.details.uom.value)
  }

  lemma {:induction false} WideDayRowsAllowed(args: Option<FilterArgs>, b: NmiDataDetails, days: seq<IntervalData>)
    requires WideBlockAllowed(args, b) && WideDayRows(b, days).Ok?
    ensures forall r :: r in WideDayRows(b, days).value ==> WideRowAllowed(args, r)
  {
    if days != [] {
      WideDayRowsAllowed(args, b, days[1..]);
      CanonicalOfAdditive(b.details.uom.value, 0.0);
    }
  }

  lemma {:induction false} WideBlockRowsAllowed(args: Option<FilterArgs>, bs: seq<NmiDataDetails>)
    requires forall b :: b in bs ==> WideBlockAllowed(args, b)
    requires WideBlockRows(bs).Ok?
    ensures forall r :: r in WideBlockRows(bs).value ==> WideRowAllowed(args, r)
  {
    if bs != [] {
      assert bs[0] in bs;
      assert forall b :: b in bs[1..] ==> b in bs;
      WideDayRowsAllowed(args, bs[0], bs[0].intervalData.value);
      WideBlockRowsAllowed(args, bs[1..]);
    }
  }

  /**
   * Every row of the wide view is of the NMI and suffix asked for, and in
   * an additive unit; its length is the number of interval days of the
   * additive blocks that pass the filters.
   */
  lemma WideViewRows(file: Nem12File, args: Option<FilterArgs>)
    requires ReadsCSV30(file, args).Ok?
    ensures EligibleBlocks(PreFilter(file.data, args)).Ok?
    ensures |ReadsCSV30(file, args).value| == DayCount(EligibleBlocks(PreFilter(file.data, args)).value)
    ensures forall r :: r in ReadsCSV30(file, args).value ==> WideRowAllowed(args, r)
  {
    var pre := PreFilter(file.data, args);
    PreFilterMembers(file.data, args);
    EligibleBlocksIff(pre);
    var blocks := EligibleBlocks(pre).value;
    WideBlockRowsIff(blocks);
    WideBlockRowsAllowed(args, blocks);
  }

  // ---------------------------------------------------------------------
  // The long view.

  /** How many times `for (let i = 1; i <= MINUTES_IN_DAY / length; i++)` runs. */
  datatype Count = Finite(n: nat) | Unbounded

  /**
   * `1440 / length` as a loop bound: NaN and negative bounds stop the loop
   * at once (`1440 / -0` is -Infinity), a length of 0 makes the bound
   * Infinity, and a positive length runs the loop up to the whole part of
   * the quotient.
   */
  function IntervalCount(length: JsNumber): Count {
    match length
    case NaN => Finite(0)
    case NegZero => Finite(0)
    case Num(x) =>
      if x == 0.0 then Unbounded
      else if x < 0.0 then Finite(0)
      else (
        var q := MinutesInDay as real / x;
        assert q > 0.0;
        Finite(WholePart(q)))
  }

  /** A positive length `x` gives `n` intervals with `n * x <= 1440 < (n + 1) * x`. */
  lemma IntervalCountBounds(x: real)
    requires x > 0.0
    ensures IntervalCount(Num(x)).Finite?
    ensures IntervalCount(Num(x)).n as real * x <= MinutesInDay as real
    ensures MinutesInDay as real < (IntervalCount(Num(x)).n + 1) as real * x
  {
    var q := MinutesInDay as real / x;
    var n := IntervalCount(Num(x)).n;
    WholePartBounds(q);
    assert n as real <= q < n as real + 1.0;
    assert q * x == MinutesInDay as real;
    RealMulMono(n as real, q, x);
    RealMulMono(q, n as real + 1.0, x);
  }

  lemma RealMulMono(a: real, b: real, x: real)
    requires x > 0.0 && a <= b
    ensures a * x <= b * x
    ensures a < b ==> a * x < b * x
  {
  }

  /** The usual interval lengths: 5, 15 and 30 minutes give 288, 96 and 48 rows a day. */
  lemma IntervalCountExamples()
    ensures IntervalCount(Num(5.0)) == Finite(288)
    ensures IntervalCount(Num(15.0)) == Finite(96)
    ensures IntervalCount(Num(30.0)) == Finite(48)
    ensures IntervalCount(NaN) == Finite(0) && IntervalCount(Num(-5.0)) == Finite(0)
    ensures IntervalCount(NegZero) == Finite(0)
    ensures IntervalCount(Num(0.0)) == Unbounded
  {
    assert (1440.0 / 5.0) == 288 as real;
    assert (1440.0 / 15.0) == 96 as real;
    assert (1440.0 / 30.0) == 48 as real;
    TruncOfNat(288);
    TruncOfNat(96);
    TruncOfNat(48);
  }

  /** `i >= startInterval && i <= endInterval`: comparisons with NaN are false. */
  predicate Covers(e: IntervalEvent, i: int) {
    !e.startInterval.NaN? && !e.endInterval.NaN? &&
    RealOf(e.startInterval) <= i as real <= RealOf(e.endInterval)
  }

  /**
   * Where the first element of `intervalEvents.filter(...)` sits in the
   * stored list: the first event covering `i`, or `|es|` when none does.
   */
  function FirstCovering(es: seq<IntervalEvent>, i: int): (k: nat)
    ensures k <= |es|
    ensures forall j :: 0 <= j < k ==> !Covers(es[j], i)
    ensures k < |es| ==> Covers(es[k], i)
  {
    if es == [] then 0
    else if Covers(es[0], i) then 0
    else 1 + FirstCovering(es[1..], i)
  }

  /** `QualityDetail`: the quality an event gives the intervals it covers. */
  datatype Quality = Quality(qualityMethod: Field, reasonCode: JsNumber, reasonDescription: Field)

  function QualityOf(e: IntervalEvent): Quality {
    Quality(e.qualityMethod, e.reasonCode, e.reasonDescription)
  }

  /** The quality of interval `i`, from the first covering event (a placeholder when none does). */
  function QualityAt(es: seq<IntervalEvent>, i: int): Quality {
    var k := FirstCovering(es, i);
    if k < |es| then QualityOf(es[k]) else Quality(None, NaN, None)
  }

  /** Whether every interval 1 to `n` is covered by some event. */
  predicate AllCovered(es: seq<IntervalEvent>, n: nat) {
    forall i :: 1 <= i <= n ==> FirstCovering(es, i) < |es|
  }

  /**
   * `qualityArray`: the qualities of intervals 1 to `n`, or an error when
   * an interval is covered by no event, since `intervalEvent[0]` is then
   * `undefined` and reading its fields throws.
   */
  function QualityList(es: seq<IntervalEvent>, n: nat): Result<seq<Quality>, ExportError> {
    if AllCovered(es, n) then Ok(seq(n, j => QualityAt(es, j + 1))) else Err(NoMatchingEvent)
  }

  /** The `for` loop that pushes one quality per interval onto `qualityArray`. */
  method QualityArray(es: seq<IntervalEvent>, n: nat) returns (r: Result<seq<Quality>, ExportError>)
    ensures r == QualityList(es, n)
  {
    var quals: seq<Quality> := [];
    for i := 1 to n + 1
      invariant |quals| == i - 1
      invariant forall k :: 1 <= k < i ==> FirstCovering(es, k) < |es|
      invariant forall j :: 0 <= j < i - 1 ==> quals[j] == QualityAt(es, j + 1)
    {
      var k := FirstCovering(es, i);
      if k == |es| {
        return Err(NoMatchingEvent);
      }
      quals := quals + [QualityOf(es[k])];
    }
    assert quals == seq(n, j => QualityAt(es, j + 1));
    r := Ok(quals);
  }

  /**
   * One row of the long view: one reading interval of a day. The
   * timestamps are minutes after the start of the interval date;
   * `reasonCode` and `reasonDescription` are `None` where the source writes
   * `null` or `undefined`, and `readValue` is `None` past the last reading.
   */
  datatype LongRow = LongRow(
    intervalDate: string,
    nmi: Field,
    registerId: Field,
    nmiSuffix: Field,
    meterSerialNumber: Field,
    nextScheduledReadDate: Field,
    updateDatetime: string,
    uom: Field,
    intervalLength: JsNumber,
    qualityMethod: Field,
    reasonCode: Option<real>,
    reasonDescription: Field,
    startMinute: real,
    endMinute: real,
    readValue: Option<JsNumber>)

  /** The interval length as a number of minutes, where there are rows at all. */
  function LengthOf(length: JsNumber): real {
    if length.Num? then length.value else 0.0
  }

  /**
   * Row `i` of a day: `rowHeader`, then the quality (`None` when the day
   * has no 400 records, and the day's own quality method is used), the
   * reason code unless it is falsy, the timestamps and reading `i - 1`.
   */
  function MakeLongRow(b: NmiDataDetails, d: IntervalData, q: Option<Quality>, i: int): LongRow {
    var x := LengthOf(b.details.intervalLength);
    var values := d.day.intervalValues;
    LongRow(
      d.day.intervalDate, b.details.nmi, b.details.registerId, b.details.nmiSuffix,
      b.details.meterSerialNumber, b.details.nextScheduledReadDate, d.day.updateDateTime,
      b.details.uom, b.details.intervalLength,
      if q.None? then d.day.qualityMethod else q.value.qualityMethod,
      if q.Some? && Truthy(q.value.reasonCode) then Some(q.value.reasonCode.value) else None,
      if q.None? then None else q.value.reasonDescription,
      (i as real - 1.0) * x,
      i as real * x,
      if 1 <= i <= |values| then Some(values[i - 1]) else None)
  }

  /** Row `i` of a day, its quality taken straight from the events. */
  function LongRowOf(b: NmiDataDetails, d: IntervalData, i: int): LongRow {
    MakeLongRow(b, d, if d.intervalEvents.None? then None else Some(QualityAt(d.intervalEvents.value, i)), i)
  }

  /**
   * The rows of one day. A length of 0 never ends the loops: with events,
   * the quality loop reaches an interval no event covers and throws (see
   * `UnboundedUncovered`); without, the row loop never stops.
   */
  function LongDayRows(b: NmiDataDetails, d: IntervalData): Result<seq<LongRow>, ExportError> {
    match IntervalCount(b.details.intervalLength)
    case Unbounded => if d.intervalEvents.Some? then Err(NoMatchingEvent) else Err(NoEnd)
    case Finite(n) =>
      if d.intervalEvents.Some? && !AllCovered(d.intervalEvents.value, n) then Err(NoMatchingEvent)
      else Ok(seq(n, j => LongRowOf(b, d, j + 1)))
  }

  /** A bound past every event's end interval. */
  function EndBound(es: seq<IntervalEvent>): (m: nat)
    ensures forall k :: 0 <= k < |es| && !es[k].endInterval.NaN? ==> RealOf(es[k].endInterval) < m as real
  {
    if es == [] then 0
    else
      var t := EndBound(es[1..]);
      var e := es[0].endInterval;
      assert forall k :: 1 <= k < |es| ==> es[k] == es[1..][k - 1];
      if e.Num? && e.value >= t as real then (WholePartBounds(e.value); WholePart(e.value) + 1)
      else if e.NegZero? && t == 0 then 1
      else t
  }

  /** An endless quality loop stops: past every end interval, no event covers the interval. */
  lemma UnboundedUncovered(es: seq<IntervalEvent>)
    ensures FirstCovering(es, EndBound(es) + 1) == |es|
  {
    var m := EndBound(es);
    forall k | 0 <= k < |es| ensures !Covers(es[k], m + 1) {
      PastEnd(es[k], m);
    }
    NoneCovers(es, m + 1);
  }

  lemma PastEnd(e: IntervalEvent, m: nat)
    requires !e.endInterval.NaN? ==> RealOf(e.endInterval) < m as real
    ensures !Covers(e, m + 1)
  {
  }

  lemma NoneCovers(es: seq<IntervalEvent>, i: int)
    requires forall k :: 0 <= k < |es| ==> !Covers(es[k], i)
    ensures FirstCovering(es, i) == |es|
  {
  }

  /** The two loops of one day: the qualities first, then one row per interval. */
  method LongRowsForDay(b: NmiDataDetails, d: IntervalData) returns (r: Result<seq<LongRow>, ExportError>)
    ensures r == LongDayRows(b, d)
  {
    var count := IntervalCount(b.details.intervalLength);
    if count.Unbounded? {
      if d.intervalEvents.Some? {
        return Err(NoMatchingEvent);
      }
      return Err(NoEnd);
    }
    var n := count.n;
    var quals: seq<Quality> := [];
    if d.intervalEvents.Some? {
      var q := QualityArray(d.intervalEvents.value, n);
      if q.Err? {
        return Err(q.error);
      }
      quals := q.value;
    }
    var rows: seq<LongRow> := [];
    for i := 1 to n + 1
      invariant |rows| == i - 1
      invariant forall j :: 0 <= j < i - 1 ==> rows[j] == LongRowOf(b, d, j + 1)
    {
      var q := if d.intervalEvents.None? then None else Some(quals[i - 1]);
      rows := rows + [MakeLongRow(b, d, q, i)];
    }
    assert rows == seq(n, j => LongRowOf(b, d, j + 1));
    r := Ok(rows);
  }

  /** `intervalData.map(...)` over one block, flattened into its days' rows. */
  function LongDaysRows(b: NmiDataDetails, days: seq<IntervalData>): Result<seq<LongRow>, ExportError> {
    if days == [] then Ok([])
    else
      match LongDayRows(b, days[0])
      case Err(e) => Err(e)
      case Ok(rows) =>
        match LongDaysRows(b, days[1..])
        case Err(e) => Err(e)
        case Ok(rest) => Ok(rows + rest)
  }

  /** The rows of the filtered blocks, flattened two levels. */
  function LongBlockRows(bs: seq<NmiDataDetails>): Result<seq<LongRow>, ExportError> {
    if bs == [] then Ok([])
    else if bs[0].intervalData.None? then Err(MissingDays)
    else
      match LongDaysRows(bs[0], bs[0].intervalData.value)
      case Err(e) => Err(e)
      case Ok(rows) =>
        match LongBlockRows(bs[1..])
        case Err(e) => Err(e)
        case Ok(rest) => Ok(rows + rest)
  }

  /** The records `getReadsCSVLong` writes after its header, or the reason it returns nothing. */
  function ReadsCSVLong(file: Nem12File, args: Option<FilterArgs>): Result<seq<LongRow>, ExportError> {
    LongBlockRows(PreFilter(file.data, args))
  }

  /**
   * A day has `1440 / length` rows, row `j` running from `j * length` to
   * `(j + 1) * length` minutes: each row ends where the next starts and
   * the first starts at the interval date.
   */
  lemma LongRowTimes(b: NmiDataDetails, d: IntervalData, x: real)
    requires b.details.intervalLength == Num(x) && x > 0.0
    requires LongDayRows(b, d).Ok?
    ensures var rows := LongDayRows(b, d).value;
      && |rows| == IntervalCount(Num(x)).n
      && (forall j :: 0 <= j < |rows| ==> rows[j].startMinute == j as real * x && rows[j].endMinute == (j + 1) as real * x)
      && (forall j :: 0 <= j < |rows| - 1 ==> rows[j].endMinute == rows[j + 1].startMinute)
      && (|rows| > 0 ==> rows[0].startMinute == 0.0)
  {
    LongRowMinutes(b, d, x);
  }

  /**
   * The last row ends within one interval of 1440 minutes, at 1440 itself
   * when the length divides the day.
   */
  lemma LongLastRow(b: NmiDataDetails, d: IntervalData, x: real)
    requires b.details.intervalLength == Num(x) && x > 0.0
    requires LongDayRows(b, d).Ok? && LongDayRows(b, d).value != []
    ensures var last := LongDayRows(b, d).value[|LongDayRows(b, d).value| - 1];
      && last.endMinute <= MinutesInDay as real < last.endMinute + x
      && (WholePart(MinutesInDay as real / x) as real == MinutesInDay as real / x ==> last.endMinute == MinutesInDay as real)
  {
    IntervalCountBounds(x);
    LongRowMinutes(b, d, x);
    var n := IntervalCount(Num(x)).n;
    var last := LongDayRows(b, d).value[n - 1];
    assert last.endMinute == n as real * x;
    assert (n + 1) as real * x == n as real * x + x;
    if WholePart(MinutesInDay as real / x) as real == MinutesInDay as real / x {
      assert n as real == MinutesInDay as real / x;
      assert n as real * x == MinutesInDay as real;
    }
  }

  lemma LongRowMinutes(b: NmiDataDetails, d: IntervalData, x: real)
    requires b.details.intervalLength == Num(x) && x > 0.0
    requires LongDayRows(b, d).Ok?
    ensures |LongDayRows(b, d).value| == IntervalCount(Num(x)).n
    ensures forall j :: 0 <= j < |LongDayRows(b, d).value| ==>
      LongDayRows(b, d).value[j].startMinute == j as real * x &&
      LongDayRows(b, d).value[j].endMinute == (j + 1) as real * x
  {
    var rows := LongDayRows(b, d).value;
    forall j | 0 <= j < |rows|
      ensures rows[j].startMinute == j as real * x && rows[j].endMinute == (j + 1) as real * x
    {
      assert rows[j] == LongRowOf(b, d, j + 1);
      assert (j + 1) as real - 1.0 == j as real;
    }
  }

  /** A day without 400 records: every row has the day's quality method and no reason. */
  lemma LongQualityWithoutEvents(b: NmiDataDetails, d: IntervalData)
    requires d.intervalEvents.None? && LongDayRows(b, d).Ok?
    ensures forall r :: r in LongDayRows(b, d).value ==>
      r.qualityMethod == d.day.qualityMethod && r.reasonCode.None? && r.reasonDescription.None?
  {
  }

  /**
   * A day with 400 records: row `j` takes its quality from the first stored
   * event covering interval `j + 1`, there is such an event, and a reason
   * code of 0 or NaN is written as `null`.
   */
  lemma LongQualityFromEvents(b: NmiDataDetails, d: IntervalData)
    requires d.intervalEvents.Some? && LongDayRows(b, d).Ok?
    ensures var es := d.intervalEvents.value; var rows := LongDayRows(b, d).value;
      forall j :: 0 <= j < |rows| ==>
        var k := FirstCovering(es, j + 1);
        && k < |es|
        && Covers(es[k], j + 1)
        && rows[j].qualityMethod == es[k].qualityMethod
        && rows[j].reasonDescription == es[k].reasonDescription
        && rows[j].reasonCode == (if Truthy(es[k].reasonCode) then Some(es[k].reasonCode.value) else None)
  {
    var es := d.intervalEvents.value;
    var n := IntervalCount(b.details.intervalLength).n;
    assert AllCovered(es, n);
  }

  /**
   * The events are stored in reverse file order, so the first stored event
   * covering an interval is the last one in the file.
   */
  lemma LastEventWins(fs: seq<IntervalEvent>, i: int)
    ensures var k := FirstCovering(Reverse(fs), i);
      && (k < |fs| ==>
            Reverse(fs)[k] == fs[|fs| - 1 - k] && Covers(fs[|fs| - 1 - k], i) &&
            forall j :: |fs| - 1 - k < j < |fs| ==> !Covers(fs[j], i))
      && (k == |fs| ==> forall j :: 0 <= j < |fs| ==> !Covers(fs[j], i))
  {
    ReverseIndex(fs);
    var k := FirstCovering(Reverse(fs), i);
    forall j | |fs| - 1 - k < j < |fs| ensures !Covers(fs[j], i) {
      assert Reverse(fs)[|fs| - 1 - j] == fs[j];
    }
  }

  /** Row `j` reads reading `j` unconverted, and nothing past the last reading. */
  lemma LongReadValues(b: NmiDataDetails, d: IntervalData)
    requires LongDayRows(b, d).Ok?
    ensures var rows := LongDayRows(b, d).value; var values := d.day.intervalValues;
      forall j :: 0 <= j < |rows| ==> rows[j].readValue == if j < |values| then Some(values[j]) else None
  {
  }

  /**
   * A day's rows fail exactly when the length is 0 (not -0, which gives no
   * rows) or some interval has no covering event.
   */
  lemma LongDayFails(b: NmiDataDetails, d: IntervalData)
    ensures IntervalCount(b.details.intervalLength).Unbounded? <==> b.details.intervalLength == Num(0.0)
    ensures LongDayRows(b, d).Err? <==>
      IntervalCount(b.details.intervalLength).Unbounded? ||
      (d.intervalEvents.Some? &&
       exists i :: 1 <= i <= IntervalCount(b.details.intervalLength).n &&
         FirstCovering(d.intervalEvents.value, i) == |d.intervalEvents.value|)
  {
    match IntervalCount(b.details.intervalLength)
    case Unbounded =>
    case Finite(n) =>
      if d.intervalEvents.Some? && !AllCovered(d.intervalEvents.value, n) {
        var es := d.intervalEvents.value;
        var i :| 1 <= i <= n && !(FirstCovering(es, i) < |es|);
        assert FirstCovering(es, i) == |es|;
        assert LongDayRows(b, d).Err?;
      } else {
        assert LongDayRows(b, d).Ok?;
      }
  }

  /**
   * An interval length written `-0` is not the length 0: both views read
   * the day without failing, the long view with no rows and the wide view
   * with every bucket empty.
   */
  lemma NegativeZeroLength(b: NmiDataDetails, d: IntervalData, k: int)
    requires b.details.intervalLength == NegZero
    ensures LongDayRows(b, d) == Ok([])
    ensures BucketSlice(d.day.intervalValues, b.details.intervalLength, k) == []
  {
    assert IntervalCount(b.details.intervalLength) == Finite(0);
    assert LongDayRows(b, d).Ok? && |LongDayRows(b, d).value| == 0;
  }

  lemma {:induction false} LongDaysRowsIff(b: NmiDataDetails, days: seq<IntervalData>)
    ensures LongDaysRows(b, days).Err? <==> exists j :: 0 <= j < |days| && LongDayRows(b, days[j]).Err?
  {
    if days != [] {
      LongDaysRowsIff(b, days[1..]);
      assert forall j :: 1 <= j < |days| ==> days[1..][j - 1] == days[j];
    }
  }

  /** A block fails the long view when it has no days or one of its days fails. */
  predicate LongBlockFails(b: NmiDataDetails) {
    b.intervalData.None? ||
    exists j :: 0 <= j < |b.intervalData.value| && LongDayRows(b, b.intervalData.value[j]).Err?
  }

  lemma {:induction false} LongBlockRowsIff(bs: seq<NmiDataDetails>)
    ensures LongBlockRows(bs).Err? <==> exists i :: 0 <= i < |bs| && LongBlockFails(bs[i])
  {
    if bs != [] {
      LongBlockRowsIff(bs[1..]);
      assert forall i :: 1 <= i < |bs| ==> bs[1..][i - 1] == bs[i];
      if bs[0].intervalData.Some? {
        LongDaysRowsIff(bs[0], bs[0].intervalData.value);
      }
    }
  }

  /**
   * The long view returns nothing exactly when one block that passes the
   * filters has no days or one of its days fails: one bad day loses the
   * whole export, not just its own rows.
   */
  lemma LongViewFails(file: Nem12File, args: Option<FilterArgs>)
    ensures ReadsCSVLong(file, args).Err? <==>
      exists b :: b in file.data && Matches(args, b) && LongBlockFails(b)
  {
    var pre := PreFilter(file.data, args);
    PreFilterMembers(file.data, args);
    LongBlockRowsIff(pre);
    if ReadsCSVLong(file, args).Err? {
      var i :| 0 <= i < |pre| && LongBlockFails(pre[i]);
      assert pre[i] in pre;
    } else {
      forall b | b in file.data && Matches(args, b) ensures !LongBlockFails(b) {
        assert b in pre;
        var i :| 0 <= i < |pre| && pre[i] == b;
      }
    }
  }

  lemma {:induction false} LongDaysRowsAllowed(args: Option<FilterArgs>, b: NmiDataDetails, days: seq<IntervalData>)
    requires Matches(args, b) && LongDaysRows(b, days).Ok?
    ensures forall r :: r in LongDaysRows(b, days).value ==> RowPassesFilter(args, r.nmi, r.nmiSuffix)
  {
    if days != [] {
      LongDaysRowsAllowed(args, b, days[1..]);
    }
  }

  lemma {:induction false} LongBlockRowsAllowed(args: Option<FilterArgs>, bs: seq<NmiDataDetails>)
    requires forall b :: b in bs ==> Matches(args, b)
    requires LongBlockRows(bs).Ok?
    ensures forall r :: r in LongBlockRows(bs).value ==> RowPassesFilter(args, r.nmi, r.nmiSuffix)
  {
    if bs != [] {
      assert bs[0] in bs;
      assert forall b :: b in bs[1..] ==> b in bs;
      LongDaysRowsAllowed(args, bs[0], bs[0].intervalData.value);
      LongBlockRowsAllowed(args, bs[1..]);
    }
  }

  /** Every row of the long view is of the NMI and suffix asked for. */
  lemma LongViewRowsFiltered(file: Nem12File, args: Option<FilterArgs>)
    requires ReadsCSVLong(file, args).Ok?
    ensures forall r :: r in ReadsCSVLong(file, args).value ==> RowPassesFilter(args, r.nmi, r.nmiSuffix)
  {
    PreFilterMembers(file.data, args);
    LongBlockRowsAllowed(args, PreFilter(file.data, args));
  }
}
