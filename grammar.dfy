/**
 * The NEM12 grammar: the BNF productions and their semantic actions, read
 * in three steps. `Split` cuts the token stream into records (a marker and
 * its `SEP Field` pairs), `Decode` applies a record's production with its
 * fixed arity, and `Assemble` builds the file from the records the way the
 * productions for `nem12_file`, `nem12_data`, `nem12_nmi_data_details` and
 * the interval, event and B2B arrays do, including the order in which the
 * `concat` actions leave the lists.
 */
module Grammar {
  import opened JsValues
  import opened Lexer
  import opened Nem12
  import opened Sequences

  /** A record as read from the tokens: its marker and its fields. */
  datatype RawRecord = RawRecord(kind: Kind, lineBreak: string, fields: seq<Field>)

  /**
   * Why a text is not read: no lexer rule matches, the tokens do not form
   * the grammar's sentence, or a date that `DateTime.fromFormat` needs is
   * missing (it throws on `undefined`).
   */
  datatype ParseError = LexicalError(remaining: nat) | SyntaxError | MissingDate

  /** A decoded record. */
  datatype Record =
    | Header100(header: Header)
    | Details200(details: NmiRecord)
    | Day300(day: DayRecord)
    | Event400(event: IntervalEvent)
    | B2B500(b2b: B2BDetails)
    | End900

  // ---------------------------------------------------------------------
  // Records from tokens.

  /** The tokens of a run of fields: `SEP`, then a `String` unless the field is empty. */
  function FieldTokens(fs: seq<Field>): seq<Token> {
    if fs == [] then []
    else (if fs[0].Some? then [Sep, Str(fs[0].value)] else [Sep]) + FieldTokens(fs[1..])
  }

  /** The fields at the head of `ts` and the number of tokens they take. */
  function FieldRun(ts: seq<Token>): (r: (seq<Field>, nat))
    ensures r.1 <= |ts|
    decreases |ts|
  {
    if ts == [] || !ts[0].Sep? then ([], 0)
    else if |ts| >= 2 && ts[1].Str? then
      var r := FieldRun(ts[2..]);
      ([Some(ts[1].text)] + r.0, r.1 + 2)
    else
      var r := FieldRun(ts[1..]);
      ([None] + r.0, r.1 + 1)
  }

  /** One step of `FieldRun`: a `SEP` with or without a `String`, then the run after it. */
  lemma FieldRunStep(ts: seq<Token>)
    requires ts != [] && ts[0].Sep?
    ensures |ts| >= 2 && ts[1].Str? ==>
      FieldRun(ts).0 == [Some(ts[1].text)] + FieldRun(ts[2..]).0 && FieldRun(ts).1 == 2 + FieldRun(ts[2..]).1
    ensures !(|ts| >= 2 && ts[1].Str?) ==>
      FieldRun(ts).0 == [None] + FieldRun(ts[1..]).0 && FieldRun(ts).1 == 1 + FieldRun(ts[1..]).1
  {
  }

  /** A run of fields is the tokens it took, and it takes every `SEP` it can. */
  lemma {:induction false} FieldRunSound(ts: seq<Token>)
    ensures FieldTokens(FieldRun(ts).0) == ts[..FieldRun(ts).1]
    ensures FieldRun(ts).1 == |ts| || !ts[FieldRun(ts).1].Sep?
    decreases |ts|
  {
    if ts != [] && ts[0].Sep? {
      var fs := FieldRun(ts).0;
      var k := if |ts| >= 2 && ts[1].Str? then 2 else 1;
      var head: seq<Token> := if k == 2 then [Sep, Str(ts[1].text)] else [Sep];
      FieldRunStep(ts);
      FieldRunSound(ts[k..]);
      var r := FieldRun(ts[k..]);
      assert fs == [fs[0]] + r.0;
      assert FieldTokens(fs) == head + FieldTokens(r.0);
      SlicePrefix(ts, k, r.1);
      assert ts[..k] == head;
    }
  }

  function RecordTokens(r: RawRecord): seq<Token> {
    [Marker(r.kind, r.lineBreak)] + FieldTokens(r.fields)
  }

  /** The token stream of a record sequence, ended by `Eof`. */
  function Unsplit(rs: seq<RawRecord>): seq<Token> {
    if rs == [] then [Eof] else RecordTokens(rs[0]) + Unsplit(rs[1..])
  }

  /**
   * The records of a token stream. Every record starts with a marker and
   * every field with a `SEP`; a `String` anywhere else, a missing `EOF` or
   * tokens after it fail.
   */
  function Split(ts: seq<Token>): Result<seq<RawRecord>, ParseError>
    decreases |ts|
  {
    if ts == [Eof] then Ok([])
    else if ts == [] || !ts[0].Marker? then Err(SyntaxError)
    else
      var run := FieldRun(ts[1..]);
      var rest := Split(ts[1 + run.1..]);
      if rest.Err? then rest
      else Ok([RawRecord(ts[0].kind, ts[0].lineBreak, run.0)] + rest.value)
  }

  /** Whatever `Split` returns is the record sequence whose stream is the input. */
  lemma {:induction false} SplitSound(ts: seq<Token>)
    ensures Split(ts).Ok? ==> Unsplit(Split(ts).value) == ts
    decreases |ts|
  {
    if ts != [Eof] && ts != [] && ts[0].Marker? && Split(ts).Ok? {
      var run := FieldRun(ts[1..]);
      var n := run.1;
      FieldRunSound(ts[1..]);
      SplitSound(ts[1 + n..]);
      var rec := RawRecord(ts[0].kind, ts[0].lineBreak, run.0);
      var rest := Split(ts[1 + n..]).value;
      var rs := Split(ts).value;
      assert rs == [rec] + rest;
      assert rs[1..] == rest;
      assert Unsplit(rs) == RecordTokens(rec) + Unsplit(rest);
      HeadSplit(ts, n);
    }
  }

  /** A run of fields is read back from its tokens when no `SEP` or `String` follows. */
  lemma {:induction false} FieldRunOf(fs: seq<Field>, tail: seq<Token>)
    requires tail == [] || !(tail[0].Sep? || tail[0].Str?)
    ensures FieldRun(FieldTokens(fs) + tail).0 == fs
    ensures FieldRun(FieldTokens(fs) + tail).1 == |FieldTokens(fs)|
  {
    if fs == [] {
      AppendEmpty(tail);
    } else {
      var rest := FieldTokens(fs[1..]) + tail;
      FieldRunOf(fs[1..], tail);
      FieldTokensHead(fs[1..], tail);
      var head: seq<Token> := if fs[0].Some? then [Sep, Str(fs[0].value)] else [Sep];
      var ts := head + rest;
      AppendAssoc(head, FieldTokens(fs[1..]), tail);
      assert FieldTokens(fs) + tail == ts;
      DropAppend(head, rest);
      assert ts[0] == Sep;
      assert |head| == 2 ==> ts[1] == Str(fs[0].value);
      assert |head| == 1 && |ts| >= 2 ==> ts[1] == rest[0];
      FieldRunStep(ts);
      assert fs == [fs[0]] + fs[1..];
    }
  }

  /** The tokens of a run of fields start with `SEP`, or are the tokens after it. */
  lemma FieldTokensHead(fs: seq<Field>, tail: seq<Token>)
    requires tail == [] || !(tail[0].Sep? || tail[0].Str?)
    ensures FieldTokens(fs) + tail == [] || !(FieldTokens(fs) + tail)[0].Str?
  {
    if fs != [] {
      assert FieldTokens(fs)[0] == Sep;
    } else {
      AppendEmpty(tail);
    }
  }

  /** Every record sequence is split back out of its own token stream. */
  lemma {:induction false} SplitUnsplit(rs: seq<RawRecord>)
    ensures Split(Unsplit(rs)) == Ok(rs)
  {
    if rs != [] {
      HeadTail(rs);
      SplitUnsplit(rs[1..]);
      SplitCons(rs[0], rs[1..]);
    } else {
      assert Unsplit(rs) == [Eof];
    }
  }

  /** A record's tokens, put before the stream of further records, are split back as that record. */
  lemma SplitCons(r: RawRecord, rs: seq<RawRecord>)
    requires Split(Unsplit(rs)) == Ok(rs)
    ensures Split(RecordTokens(r) + Unsplit(rs)) == Ok([r] + rs)
  {
    var m := Marker(r.kind, r.lineBreak);
    var ft := FieldTokens(r.fields);
    var tail := Unsplit(rs);
    var ts := RecordTokens(r) + tail;
    UnsplitHead(rs);
    FieldRunOf(r.fields, tail);
    AppendAssoc([m], ft, tail);
    assert ts == [m] + (ft + tail);
    TailOfCons(m, ft + tail);
    DropAppend(ft, tail);
    assert ts[1 + |ft|..] == tail;
    assert ts[0] == m;
    assert ts != [Eof];
    SplitStep(ts);
  }

  /** One step of `Split`: a marker and its run of fields, then the records after them. */
  lemma SplitStep(ts: seq<Token>)
    requires ts != [] && ts != [Eof] && ts[0].Marker?
    requires Split(ts[1 + FieldRun(ts[1..]).1..]).Ok?
    ensures Split(ts) ==
      Ok([RawRecord(ts[0].kind, ts[0].lineBreak, FieldRun(ts[1..]).0)] + Split(ts[1 + FieldRun(ts[1..]).1..]).value)
  {
  }

  lemma UnsplitHead(rs: seq<RawRecord>)
    ensures Unsplit(rs)[0].Marker? || Unsplit(rs)[0].Eof?
  {
    if rs != [] {
      var a := RecordTokens(rs[0]);
      assert a[0].Marker?;
      assert Unsplit(rs)[0] == a[0];
    }
  }

  /** `Split` and `Unsplit` are inverse: a stream splits into `rs` exactly when it is the stream of `rs`. */
  lemma SplitIff(ts: seq<Token>, rs: seq<RawRecord>)
    ensures Split(ts) == Ok(rs) <==> Unsplit(rs) == ts
  {
    SplitSound(ts);
    if Unsplit(rs) == ts {
      SplitUnsplit(rs);
    }
  }

  // ---------------------------------------------------------------------
  // One record from its fields.

  /** `$n ?? ''`: the text of a field, or "" when it is empty. */
  function TextOrEmpty(f: Field): string {
    if f.Some? then f.value else ""
  }

  /**
   * `RecordIndicator_100 SEP Field SEP Field SEP Field SEP Field`: version,
   * date-time, from and to participant.
   */
  function Decode100(fs: seq<Field>): (d: Result<Header, ParseError>)
    ensures d.Ok? <==> |fs| == 4 && fs[1].Some?
    ensures d.Ok? ==> d.value == Header(fs[0], fs[1].value, fs[2], fs[3])
  {
    if |fs| != 4 then Err(SyntaxError)
    else if fs[1].None? then Err(MissingDate)
    else Ok(Header(fs[0], fs[1].value, fs[2], fs[3]))
  }

  /** The 200 production: nine fields; the interval length is `Number` of the eighth. */
  function Decode200(fs: seq<Field>): (d: Result<NmiRecord, ParseError>)
    ensures d.Ok? <==> |fs| == 9
    ensures d.Ok? ==> d.value.nmi == fs[0] && d.value.nmiSuffix == fs[3] && d.value.uom == fs[6]
    ensures d.Ok? ==> d.value.intervalLength == NumberOf(fs[7]) && d.value.nextScheduledReadDate == fs[8]
    ensures d.Ok? ==> d.value.nmiConfiguration == fs[1] && d.value.registerId == fs[2]
    ensures d.Ok? ==> d.value.mdmDataStreamIdentifier == fs[4] && d.value.meterSerialNumber == fs[5]
  {
    if |fs| != 9 then Err(SyntaxError)
    else Ok(NmiRecord(fs[0], fs[1], fs[2], fs[3], fs[4], fs[5], fs[6], NumberOf(fs[7]), fs[8]))
  }

  /**
   * The readings of a 300 record with `n` fields: 288, 96 or 48 plus five
   * trailing fields, or the relaxed 48 plus four; any other count has no
   * production.
   */
  function ReadingCount(n: nat): Option<nat> {
    if n == 294 then Some(288)
    else if n == 102 then Some(96)
    else if n == 54 || n == 53 then Some(48)
    else None
  }

  /**
   * The four 300 productions. Field 1 is the date, reading j is field j+1,
   * then the quality method, reason code, reason description, update time
   * and (except in the relaxed form) the MSATS load time.
   */
  function Decode300(fs: seq<Field>): (d: Result<DayRecord, ParseError>)
    ensures d.Ok? <==> ReadingCount(|fs|).Some? && fs[0].Some?
    ensures ReadingCount(|fs|).Some? && fs[0].None? ==> d == Err(MissingDate)
    ensures d.Ok? ==> |fs| == 1 + |d.value.intervalValues| + (if d.value.msatsLoadDateTime.None? then 4 else 5)
    ensures d.Ok? ==> d.value.intervalDate == fs[0].value
    ensures d.Ok? ==> forall j :: 0 <= j < |d.value.intervalValues| ==> d.value.intervalValues[j] == NumberOf(fs[j + 1])
    ensures d.Ok? ==>
      var k := |d.value.intervalValues|;
      d.value.qualityMethod == fs[k + 1] && d.value.reasonCode == NumberOf(fs[k + 2]) &&
      d.value.reasonDescription == fs[k + 3] && d.value.updateDateTime == TextOrEmpty(fs[k + 4])
    ensures d.Ok? ==> (d.value.msatsLoadDateTime.None? <==> |fs| == 53)
    ensures d.Ok? && |fs| != 53 ==>
      d.value.msatsLoadDateTime == Some(TextOrEmpty(fs[|d.value.intervalValues| + 5]))
  {
    match ReadingCount(|fs|)
    case None => Err(SyntaxError)
    case Some(k) =>
      if fs[0].None? then Err(MissingDate)
      else
        var values := seq(k, j requires 0 <= j < k => NumberOf(fs[j + 1]));
        var msats := if |fs| == 53 then None else Some(TextOrEmpty(fs[k + 5]));
        Ok(DayRecord(fs[0].value, values, fs[k + 1], NumberOf(fs[k + 2]), fs[k + 3], TextOrEmpty(fs[k + 4]), msats))
  }

  /** The 400 production: start, end, quality method, reason code and description. */
  function Decode400(fs: seq<Field>): (d: Result<IntervalEvent, ParseError>)
    ensures d.Ok? <==> |fs| == 5
    ensures d.Ok? ==> d.value == IntervalEvent(NumberOf(fs[0]), NumberOf(fs[1]), fs[2], NumberOf(fs[3]), fs[4])
  {
    if |fs| != 5 then Err(SyntaxError)
    else Ok(IntervalEvent(NumberOf(fs[0]), NumberOf(fs[1]), fs[2], NumberOf(fs[3]), fs[4]))
  }

  /** The 500 production: transaction code, service order, read time and index read. */
  function Decode500(fs: seq<Field>): (d: Result<B2BDetails, ParseError>)
    ensures d.Ok? <==> |fs| == 4
    ensures d.Ok? ==> d.value == B2BDetails(fs[0], fs[1], TextOrEmpty(fs[2]), NumberOf(fs[3]))
  {
    if |fs| != 4 then Err(SyntaxError)
    else Ok(B2BDetails(fs[0], fs[1], TextOrEmpty(fs[2]), NumberOf(fs[3])))
  }

  function Decode(r: RawRecord): (d: Result<Record, ParseError>)
  {
    match r.kind
    case K100 => (match Decode100(r.fields) case Ok(h) => Ok(Header100(h)) case Err(e) => Err(e))
    case K200 => (match Decode200(r.fields) case Ok(n) => Ok(Details200(n)) case Err(e) => Err(e))
    case K300 => (match Decode300(r.fields) case Ok(d) => Ok(Day300(d)) case Err(e) => Err(e))
    case K400 => (match Decode400(r.fields) case Ok(e) => Ok(Event400(e)) case Err(e) => Err(e))
    case K500 => (match Decode500(r.fields) case Ok(b) => Ok(B2B500(b)) case Err(e) => Err(e))
    case K900 => if r.fields == [] then Ok(End900) else Err(SyntaxError)
  }

  /** The kind of record a marker announces. */
  predicate KindOf(k: Kind, r: Record) {
    match k
    case K100 => r.Header100?
    case K200 => r.Details200?
    case K300 => r.Day300?
    case K400 => r.Event400?
    case K500 => r.B2B500?
    case K900 => r.End900?
  }

  /** Decoding keeps the record type and fails only on a wrong field count or a missing date. */
  lemma DecodeKind(r: RawRecord)
    ensures Decode(r).Ok? ==> KindOf(r.kind, Decode(r).value)
    ensures Decode(r).Err? && r.kind != K100 && r.kind != K300 ==> Decode(r).error == SyntaxError
    ensures r.kind == K900 ==> (Decode(r).Ok? <==> r.fields == [])
  {
  }

  function DecodeAll(raws: seq<RawRecord>): (r: Result<seq<Record>, ParseError>)
    ensures r.Ok? ==> |r.value| == |raws| && forall i :: 0 <= i < |raws| ==> Decode(raws[i]) == Ok(r.value[i])
    ensures r.Err? ==> exists i :: 0 <= i < |raws| && Decode(raws[i]).Err?
  {
    if raws == [] then Ok([])
    else
      match Decode(raws[0])
      case Err(e) => Err(e)
      case Ok(d) =>
        var rest := DecodeAll(raws[1..]);
        if rest.Err? then
          var i :| 0 <= i < |raws[1..]| && Decode(raws[1..][i]).Err?;
          assert Decode(raws[i + 1]).Err?;
          rest
        else
          assert forall i :: 1 <= i < |raws| ==> raws[i] == raws[1..][i - 1];
          Ok([d] + rest.value)
  }

  // ---------------------------------------------------------------------
  // The file from its records.

  /** The leading run of 400 records, in file order. */
  function EventRun(rs: seq<Record>): (r: seq<IntervalEvent>)
    ensures |r| <= |rs|
    ensures |r| < |rs| ==> !rs[|r|].Event400?
  {
    if rs != [] && rs[0].Event400? then [rs[0].event] + EventRun(rs[1..]) else []
  }

  /** The leading run of 500 records, in file order. */
  function B2BRun(rs: seq<Record>): (r: seq<B2BDetails>)
    ensures |r| <= |rs|
    ensures |r| < |rs| ==> !rs[|r|].B2B500?
  {
    if rs != [] && rs[0].B2B500? then [rs[0].b2b] + B2BRun(rs[1..]) else []
  }

  /**
   * A list as the right-recursive array productions leave it: `null` when
   * there is nothing (the production is not used), otherwise reversed,
   * since each step is `$2.concat($1)`.
   */
  function StoredList<T>(s: seq<T>): (r: Option<seq<T>>)
    ensures r.None? <==> s == []
    ensures r.Some? ==> r.value == Reverse(s)
  {
    if s == [] then None else Some(Reverse(s))
  }

  /** The records of a stored list, back in file order. */
  function FileOrder<T>(o: Option<seq<T>>): seq<T> {
    if o.None? then [] else Reverse(o.value)
  }

  /** A day group: a 300 record, its run of 400 records, then its run of 500 records. */
  function DayGroup(rs: seq<Record>): (r: (IntervalData, nat))
    requires |rs| > 0 && rs[0].Day300?
    ensures 0 < r.1 <= |rs|
  {
    var ev := EventRun(rs[1..]);
    var b2b := B2BRun(rs[1 + |ev|..]);
    (IntervalData(rs[0].day, StoredList(ev), StoredList(b2b)), 1 + |ev| + |b2b|)
  }

  /** The run of day groups at the head of `rs`, in file order, and the records it takes. */
  function DayRun(rs: seq<Record>): (r: (seq<IntervalData>, nat))
    ensures r.1 <= |rs|
    decreases |rs|
  {
    if rs == [] || !rs[0].Day300? then ([], 0)
    else
      var g := DayGroup(rs);
      var gs := DayRun(rs[g.1..]);
      ([g.0] + gs.0, g.1 + gs.1)
  }

  /** `nem12_data`: one or more blocks, each a 200 record and its day groups. */
  function Blocks(rs: seq<Record>): Result<seq<NmiDataDetails>, ParseError>
    decreases |rs|
  {
    if rs == [] then Ok([])
    else if !rs[0].Details200? then Err(SyntaxError)
    else
      var days := DayRun(rs[1..]);
      var rest := Blocks(rs[1 + days.1..]);
      if rest.Err? then rest
      else Ok([NmiDataDetails(rs[0].details, StoredList(days.0))] + rest.value)
  }

  /** `nem12_file`: `100 data 900 EOF`, or `data EOF` with neither header nor footer. */
  function Assemble(rs: seq<Record>): Result<Nem12File, ParseError> {
    if rs != [] && rs[0].Header100? then
      if |rs| >= 2 && rs[|rs| - 1].End900? then
        match Blocks(rs[1..|rs| - 1])
        case Err(e) => Err(e)
        case Ok(bs) => if bs == [] then Err(SyntaxError) else Ok(Nem12File(Some(rs[0].header), bs, Some(End)))
      else Err(SyntaxError)
    else
      match Blocks(rs)
      case Err(e) => Err(e)
      case Ok(bs) => if bs == [] then Err(SyntaxError) else Ok(Nem12File(None, bs, None))
  }

  // ---------------------------------------------------------------------
  // The records of a file, and the shape of the files the grammar builds.

  function EventRecords(es: seq<IntervalEvent>): (r: seq<Record>)
    ensures |r| == |es|
  {
    if es == [] then [] else [Event400(es[0])] + EventRecords(es[1..])
  }

  function B2BRecords(bs: seq<B2BDetails>): (r: seq<Record>)
    ensures |r| == |bs|
  {
    if bs == [] then [] else [B2B500(bs[0])] + B2BRecords(bs[1..])
  }

  function GroupRecords(g: IntervalData): seq<Record> {
    [Day300(g.day)] + EventRecords(FileOrder(g.intervalEvents)) + B2BRecords(FileOrder(g.b2bDetails))
  }

  function DaysRecords(ds: seq<IntervalData>): seq<Record> {
    if ds == [] then [] else GroupRecords(ds[0]) + DaysRecords(ds[1..])
  }

  function BlockRecords(b: NmiDataDetails): seq<Record> {
    [Details200(b.details)] + DaysRecords(FileOrder(b.intervalData))
  }

  function BlocksRecords(bs: seq<NmiDataDetails>): seq<Record> {
    if bs == [] then [] else BlockRecords(bs[0]) + BlocksRecords(bs[1..])
  }

  /** The records of a file, in file order. */
  function FileRecords(f: Nem12File): seq<Record> {
    (if f.header.Some? then [Header100(f.header.value)] else []) +
    BlocksRecords(f.data) +
    (if f.footer.Some? then [End900] else [])
  }

  /** A present list is never empty: an absent sub-list is `None`. */
  predicate Present<T>(o: Option<seq<T>>) {
    o.None? || |o.value| > 0
  }

  predicate WellFormedGroup(g: IntervalData) {
    Present(g.intervalEvents) && Present(g.b2bDetails)
  }

  predicate WellFormedDays(ds: seq<IntervalData>) {
    forall i :: 0 <= i < |ds| ==> WellFormedGroup(ds[i])
  }

  predicate WellFormedBlock(b: NmiDataDetails) {
    Present(b.intervalData) && WellFormedDays(FileOrder(b.intervalData))
  }

  predicate WellFormedBlocks(bs: seq<NmiDataDetails>) {
    forall i :: 0 <= i < |bs| ==> WellFormedBlock(bs[i])
  }

  /**
   * The files the grammar can build: a header exactly when there is a
   * footer, at least one block, and no empty list anywhere.
   */
  predicate WellFormedFile(f: Nem12File) {
    (f.header.Some? <==> f.footer.Some?) && |f.data| > 0 && WellFormedBlocks(f.data)
  }

  // Runs read back from their records.

  lemma {:induction false} EventRunOf(es: seq<IntervalEvent>, tail: seq<Record>)
    requires tail == [] || !tail[0].Event400?
    ensures EventRun(EventRecords(es) + tail) == es
  {
    if es != [] {
      var rs := EventRecords(es) + tail;
      assert rs[1..] == EventRecords(es[1..]) + tail;
      EventRunOf(es[1..], tail);
      assert es == [es[0]] + es[1..];
    } else {
      assert EventRecords(es) + tail == tail;
    }
  }

  lemma {:induction false} B2BRunOf(bs: seq<B2BDetails>, tail: seq<Record>)
    requires tail == [] || !tail[0].B2B500?
    ensures B2BRun(B2BRecords(bs) + tail) == bs
  {
    if bs != [] {
      var rs := B2BRecords(bs) + tail;
      assert rs[1..] == B2BRecords(bs[1..]) + tail;
      B2BRunOf(bs[1..], tail);
      assert bs == [bs[0]] + bs[1..];
    } else {
      assert B2BRecords(bs) + tail == tail;
    }
  }

  lemma StoredFileOrder<T>(o: Option<seq<T>>)
    requires Present(o)
    ensures StoredList(FileOrder(o)) == o
  {
    if o.Some? {
      ReverseReverse(o.value);
    }
  }

  /** What may follow a day group without being taken into it. */
  predicate EndsGroup(tail: seq<Record>) {
    tail == [] || !(tail[0].Event400? || tail[0].B2B500?)
  }

  lemma GroupOf(g: IntervalData, tail: seq<Record>)
    requires WellFormedGroup(g) && EndsGroup(tail)
    ensures DayGroup(GroupRecords(g) + tail).0 == g
    ensures DayGroup(GroupRecords(g) + tail).1 == |GroupRecords(g)|
  {
    var d := Day300(g.day);
    var ev := FileOrder(g.intervalEvents);
    var b2b := FileOrder(g.b2bDetails);
    var er := EventRecords(ev);
    var br := B2BRecords(b2b);
    var bTail := br + tail;
    var rs := GroupRecords(g) + tail;
    AppendAssoc([d] + er, br, tail);
    AppendAssoc([d], er, bTail);
    assert rs == [d] + (er + bTail);
    TailOfCons(d, er + bTail);
    DropAppend(er, bTail);
    assert bTail == [] || !bTail[0].Event400? by {
      if br != [] {
        B2BRecordsKind(b2b);
        assert bTail[0] == br[0];
      } else {
        AppendEmpty(tail);
      }
    }
    EventRunOf(ev, bTail);
    assert rs[1 + |ev|..] == bTail;
    B2BRunOf(b2b, tail);
    StoredFileOrder(g.intervalEvents);
    StoredFileOrder(g.b2bDetails);
    assert rs[0].Day300?;
  }

  lemma {:induction false} DaysAppend(ds: seq<IntervalData>, tail: seq<Record>)
    ensures ds != [] ==> (DaysRecords(ds) + tail)[0] == Day300(ds[0].day)
    ensures ds != [] ==> DaysRecords(ds) + tail == GroupRecords(ds[0]) + (DaysRecords(ds[1..]) + tail)
  {
    if ds != [] {
      AppendAssoc(GroupRecords(ds[0]), DaysRecords(ds[1..]), tail);
      assert GroupRecords(ds[0])[0] == Day300(ds[0].day);
    }
  }

  /** One step of `DayRun`: a day group, then the run after it. */
  lemma DayRunStep(rs: seq<Record>)
    requires |rs| > 0 && rs[0].Day300?
    ensures DayRun(rs).0 == [DayGroup(rs).0] + DayRun(rs[DayGroup(rs).1..]).0
    ensures DayRun(rs).1 == DayGroup(rs).1 + DayRun(rs[DayGroup(rs).1..]).1
  {
  }

  lemma {:induction false} DayRunOf(ds: seq<IntervalData>, tail: seq<Record>)
    requires WellFormedDays(ds)
    requires tail == [] || !(tail[0].Day300? || tail[0].Event400? || tail[0].B2B500?)
    ensures DayRun(DaysRecords(ds) + tail).0 == ds
    ensures DayRun(DaysRecords(ds) + tail).1 == |DaysRecords(ds)|
  {
    if ds == [] {
      AppendEmpty(tail);
    } else {
      HeadTail(ds);
      assert WellFormedDays(ds[1..]);
      DayRunOf(ds[1..], tail);
      DaysAppend(ds, tail);
      DaysAppend(ds[1..], tail);
      DayRunCons(ds[0], DaysRecords(ds[1..]) + tail);
    }
  }

  /** A day group's records, put before a day run, are read back as that group and the run. */
  lemma DayRunCons(g: IntervalData, rest: seq<Record>)
    requires WellFormedGroup(g) && EndsGroup(rest)
    ensures DayRun(GroupRecords(g) + rest).0 == [g] + DayRun(rest).0
    ensures DayRun(GroupRecords(g) + rest).1 == |GroupRecords(g)| + DayRun(rest).1
  {
    var gr := GroupRecords(g);
    var rs := gr + rest;
    assert gr[0] == Day300(g.day);
    assert rs[0] == gr[0];
    GroupOf(g, rest);
    DropAppend(gr, rest);
    DayRunStep(rs);
  }

  /** The records of blocks start with a 200 record. */
  lemma BlocksFirst(bs: seq<NmiDataDetails>)
    requires bs != []
    ensures BlocksRecords(bs) != [] && BlocksRecords(bs)[0].Details200?
  {
    assert BlockRecords(bs[0])[0].Details200?;
  }

  lemma {:induction false} BlocksOf(bs: seq<NmiDataDetails>)
    requires WellFormedBlocks(bs)
    ensures Blocks(BlocksRecords(bs)) == Ok(bs)
  {
    if bs != [] {
      var tail := bs[1..];
      HeadTail(bs);
      assert WellFormedBlocks(tail);
      BlocksOf(tail);
      if tail != [] {
        BlocksFirst(tail);
      }
      assert WellFormedBlock(bs[0]);
      BlocksCons(bs[0], tail);
    }
  }

  /** A block's records, put before the records of further blocks, are read back as that block. */
  lemma BlocksCons(b: NmiDataDetails, bs: seq<NmiDataDetails>)
    requires WellFormedBlock(b) && Blocks(BlocksRecords(bs)) == Ok(bs)
    requires BlocksRecords(bs) == [] || BlocksRecords(bs)[0].Details200?
    ensures Blocks(BlockRecords(b) + BlocksRecords(bs)) == Ok([b] + bs)
  {
    var h := Details200(b.details);
    var days := FileOrder(b.intervalData);
    var dr := DaysRecords(days);
    var rest := BlocksRecords(bs);
    var rs := BlockRecords(b) + rest;
    AppendAssoc([h], dr, rest);
    assert rs == [h] + (dr + rest);
    TailOfCons(h, dr + rest);
    DayRunOf(days, rest);
    DropAppend(dr, rest);
    assert rs[1 + |dr|..] == rest;
    StoredFileOrder(b.intervalData);
    assert rs[0] == h;
    BlocksStep(rs);
  }

  /** One step of `Blocks`: a 200 record and its day run, then the blocks after them. */
  lemma BlocksStep(rs: seq<Record>)
    requires rs != [] && rs[0].Details200?
    requires Blocks(rs[1 + DayRun(rs[1..]).1..]).Ok?
    ensures Blocks(rs) ==
      Ok([NmiDataDetails(rs[0].details, StoredList(DayRun(rs[1..]).0))] + Blocks(rs[1 + DayRun(rs[1..]).1..]).value)
  {
    var days := DayRun(rs[1..]);
    var rest := Blocks(rs[1 + days.1..]);
    assert Blocks(rs) == Ok([NmiDataDetails(rs[0].details, StoredList(days.0))] + rest.value);
  }

  /** Every file the grammar can build is assembled back from its own records. */
  lemma AssembleComplete(f: Nem12File)
    requires WellFormedFile(f)
    ensures Assemble(FileRecords(f)) == Ok(f)
  {
    var body := BlocksRecords(f.data);
    var rs := FileRecords(f);
    BlocksOf(f.data);
    BlocksFirst(f.data);
    FileRecordsShape(f);
    if f.header.Some? {
      Unbracket(Header100(f.header.value), body, End900);
      assert rs[0].Header100? && |rs| >= 2 && rs[|rs| - 1].End900?;
      assert Blocks(rs[1..|rs| - 1]) == Ok(f.data);
      assert f.footer.value.End?;
      assert f == Nem12File(Some(rs[0].header), f.data, Some(End));
    } else {
      assert rs == body && !rs[0].Header100?;
      assert f == Nem12File(None, f.data, None);
    }
  }

  /** The records of a well-formed file: the blocks' records, between the header and footer when there are. */
  lemma FileRecordsShape(f: Nem12File)
    requires f.header.Some? <==> f.footer.Some?
    ensures f.header.Some? ==> FileRecords(f) == [Header100(f.header.value)] + BlocksRecords(f.data) + [End900]
    ensures f.header.None? ==> FileRecords(f) == BlocksRecords(f.data)
  {
    AppendEmpty(BlocksRecords(f.data));
  }

  // Runs and groups are exactly the records they took.

  lemma {:induction false} EventRunRecords(rs: seq<Record>)
    ensures rs[..|EventRun(rs)|] == EventRecords(EventRun(rs))
  {
    if rs != [] && rs[0].Event400? {
      var r := EventRun(rs);
      EventRunRecords(rs[1..]);
      assert r[1..] == EventRun(rs[1..]);
      assert rs[..|r|] == [rs[0]] + rs[1..][..|r| - 1];
    }
  }

  lemma {:induction false} B2BRunRecords(rs: seq<Record>)
    ensures rs[..|B2BRun(rs)|] == B2BRecords(B2BRun(rs))
  {
    if rs != [] && rs[0].B2B500? {
      var r := B2BRun(rs);
      B2BRunRecords(rs[1..]);
      assert r[1..] == B2BRun(rs[1..]);
      assert rs[..|r|] == [rs[0]] + rs[1..][..|r| - 1];
    }
  }

  lemma GroupRecordsOf(rs: seq<Record>)
    requires |rs| > 0 && rs[0].Day300?
    ensures WellFormedGroup(DayGroup(rs).0)
    ensures rs[..DayGroup(rs).1] == GroupRecords(DayGroup(rs).0)
    ensures DayGroup(rs).1 == |rs| || !rs[DayGroup(rs).1].B2B500?
  {
    var ev := EventRun(rs[1..]);
    var b2b := B2BRun(rs[1 + |ev|..]);
    EventRunRecords(rs[1..]);
    B2BRunRecords(rs[1 + |ev|..]);
    var g := DayGroup(rs).0;
    if ev != [] {
      ReverseReverse(ev);
    }
    if b2b != [] {
      ReverseReverse(b2b);
    }
    assert FileOrder(g.intervalEvents) == ev;
    assert FileOrder(g.b2bDetails) == b2b;
    var n := 1 + |ev| + |b2b|;
    assert rs[..n] == [rs[0]] + rs[1..][..|ev|] + rs[1 + |ev|..][..|b2b|];
  }

  lemma {:induction false} DayRunRecords(rs: seq<Record>)
    ensures WellFormedDays(DayRun(rs).0)
    ensures rs[..DayRun(rs).1] == DaysRecords(DayRun(rs).0)
    ensures DayRun(rs).1 == |rs| || !rs[DayRun(rs).1].Day300?
    decreases |rs|
  {
    if rs != [] && rs[0].Day300? {
      var g := DayGroup(rs).0;
      var n := DayGroup(rs).1;
      GroupRecordsOf(rs);
      DayRunRecords(rs[n..]);
      DayRunStep(rs);
      var gs := DayRun(rs[n..]).0;
      var m := DayRun(rs[n..]).1;
      var ds := DayRun(rs).0;
      assert ds == [g] + gs;
      assert DayRun(rs).1 == n + m;
      SlicePrefix(rs, n, m);
      assert ds[1..] == gs;
      assert DaysRecords(ds) == GroupRecords(g) + DaysRecords(gs);
      assert forall i :: 1 <= i < |ds| ==> ds[i] == gs[i - 1];
    }
  }

  lemma WellFormedBlocksCons(b: NmiDataDetails, bs: seq<NmiDataDetails>)
    requires WellFormedBlock(b) && WellFormedBlocks(bs)
    ensures WellFormedBlocks([b] + bs)
  {
    assert forall i :: 1 <= i < |[b] + bs| ==> ([b] + bs)[i] == bs[i - 1];
  }

  lemma {:induction false} BlocksSound(rs: seq<Record>, bs: seq<NmiDataDetails>)
    requires Blocks(rs) == Ok(bs)
    ensures WellFormedBlocks(bs) && BlocksRecords(bs) == rs
    decreases |rs|
  {
    if rs != [] {
      var days := DayRun(rs[1..]).0;
      var n := DayRun(rs[1..]).1;
      DayRunRecords(rs[1..]);
      var rest := Blocks(rs[1 + n..]);
      assert rest.Ok?;
      BlocksSound(rs[1 + n..], rest.value);
      var b := NmiDataDetails(rs[0].details, StoredList(days));
      assert bs == [b] + rest.value;
      if days != [] {
        ReverseReverse(days);
      }
      assert FileOrder(b.intervalData) == days;
      assert rs[1..][..n] == DaysRecords(days);
      HeadSplit(rs, n);
      assert BlockRecords(b) == [rs[0]] + rs[1..][..n];
      TailOfCons(b, rest.value);
      assert BlocksRecords(bs) == BlockRecords(b) + BlocksRecords(rest.value);
      assert WellFormedBlock(b);
      WellFormedBlocksCons(b, rest.value);
    }
  }

  /** Whatever the grammar assembles is a well-formed file whose records are the input. */
  lemma AssembleSound(rs: seq<Record>, f: Nem12File)
    requires Assemble(rs) == Ok(f)
    ensures WellFormedFile(f) && FileRecords(f) == rs
  {
    if rs != [] && rs[0].Header100? {
      var body := rs[1..|rs| - 1];
      var r := Blocks(body);
      assert r.Ok? && r.value == f.data;
      BlocksSound(body, f.data);
      Bracketed(rs);
      assert rs[|rs| - 1] == End900;
    } else {
      var r := Blocks(rs);
      assert r.Ok? && r.value == f.data;
      BlocksSound(rs, f.data);
      assert FileRecords(f) == BlocksRecords(f.data);
    }
  }

  /** Assembly characterised: `rs` assembles into `f` exactly when `f` is well formed and `rs` are its records. */
  lemma AssembleIff(rs: seq<Record>, f: Nem12File)
    ensures Assemble(rs) == Ok(f) <==> WellFormedFile(f) && FileRecords(f) == rs
  {
    if Assemble(rs) == Ok(f) {
      AssembleSound(rs, f);
    }
    if WellFormedFile(f) && FileRecords(f) == rs {
      AssembleComplete(f);
    }
  }

  /**
   * The stored order, concretely: two 300 records after a 200 come out
   * second first, and so do two 400 records after a 300.
   */
  lemma StoredInReverse(n: NmiRecord, d1: DayRecord, d2: DayRecord, e1: IntervalEvent, e2: IntervalEvent)
    ensures Blocks([Details200(n), Day300(d1), Event400(e1), Event400(e2), Day300(d2)]) ==
      Ok([NmiDataDetails(n, Some([IntervalData(d2, None, None), IntervalData(d1, Some([e2, e1]), None)]))])
  {
    var g1 := IntervalData(d1, Some([e2, e1]), None);
    var g2 := IntervalData(d2, None, None);
    var b := NmiDataDetails(n, Some([g2, g1]));
    ReversePair(e2, e1);
    ReversePair(g2, g1);
    assert EventRecords([e1, e2]) == [Event400(e1), Event400(e2)] by {
      assert [e1, e2][1..] == [e2];
      assert EventRecords([e2]) == [Event400(e2)];
    }
    assert GroupRecords(g1) == [Day300(d1), Event400(e1), Event400(e2)];
    assert GroupRecords(g2) == [Day300(d2)];
    var ds := [g1, g2];
    assert ds[1..] == [g2];
    assert DaysRecords([g2]) == [Day300(d2)];
    assert DaysRecords(ds) == [Day300(d1), Event400(e1), Event400(e2), Day300(d2)];
    assert BlockRecords(b) == [Details200(n), Day300(d1), Event400(e1), Event400(e2), Day300(d2)];
    assert BlocksRecords([b]) == BlockRecords(b);
    assert WellFormedDays(ds);
    assert WellFormedBlocks([b]);
    BlocksOf([b]);
  }

  lemma ReversePair<T>(x: T, y: T)
    ensures Reverse([x, y]) == [y, x]
  {
    assert [x, y][1..] == [y];
    assert Reverse([y]) == [y] by {
      assert [y][1..] == [];
    }
  }

  // ---------------------------------------------------------------------
  // The whole reader.

  function ParseTokens(ts: seq<Token>): Result<Nem12File, ParseError> {
    match Split(ts)
    case Err(e) => Err(e)
    case Ok(raws) =>
      match DecodeAll(raws)
      case Err(e) => Err(e)
      case Ok(rs) => Assemble(rs)
  }

  /**
   * With the 200 rule as jison applies it, a file whose first 200 record
   * has the NMI "200" is not read: the NMI comes out as a second 200
   * marker, which leaves that 200 record with one empty field. The header
   * is any 100 line whose first three fields are not "200".
   */
  lemma TwoHundredNmiRejected(v: string, d: string, a: string, b: string, r: string)
    requires |v| > 0 && |d| > 0 && |a| > 0 && |b| > 0
    requires NoBreaks(v) && NoBreaks(d) && NoBreaks(a) && NoBreaks(b)
    requires v != "200" && d != "200" && a != "200"
    requires StartsWith(r, ",") && LexFrom(r, false, Processing, false).Ok?
    ensures LexAsWritten(HeaderThen(v, d, a, b, "\n200" + ("," + ("200" + r)))).Ok?
    ensures ParseTokens(LexAsWritten(HeaderThen(v, d, a, b, "\n200" + ("," + ("200" + r)))).value).Err?
  {
    var tail := LexFrom(r, false, Processing, false).value;
    TwoHundredNmiAsWritten(v, d, a, b, r, tail);
    HeaderRecordTokens(v, d, a, b);
    ShortSecondRecord(RawRecord(K100, "", [Some(v), Some(d), Some(a), Some(b)]), Marker(K200, "\n"), Marker(K200, ""), tail);
  }

  /** A stream whose second record is a 200 record with one empty field is not read. */
  lemma ShortSecondRecord(r: RawRecord, m1: Token, m: Token, tail: seq<Token>)
    requires m1.Marker? && m1.kind == K200 && m.Marker?
    ensures ParseTokens(RecordTokens(r) + ([m1, Sep, m] + tail)).Err?
  {
    var us := [m1, Sep, m] + tail;
    var ts := RecordTokens(r) + us;
    if Split(ts).Ok? {
      SplitBefore(r, us);
      OneEmptyField(m1, m, tail);
      SplitHead(us);
      var raws := Split(ts).value;
      assert raws[1] == RawRecord(K200, m1.lineBreak, [None]);
      assert Decode(raws[1]).Err?;
    }
  }

  /** The tokens of the header line are those of the 100 record with its four fields. */
  lemma HeaderRecordTokens(v: string, d: string, a: string, b: string)
    ensures RecordTokens(RawRecord(K100, "", [Some(v), Some(d), Some(a), Some(b)])) == HeaderTokens(v, d, a, b)
  {
    var f1: seq<Field> := [Some(b)];
    assert f1[1..] == [];
    assert FieldTokens(f1) == [Sep, Str(b)];
    var f2: seq<Field> := [Some(a)] + f1;
    assert f2[1..] == f1 && f2[0] == Some(a);
    assert FieldTokens(f2) == [Sep, Str(a)] + FieldTokens(f1);
    var f3: seq<Field> := [Some(d)] + f2;
    assert f3[1..] == f2 && f3[0] == Some(d);
    assert FieldTokens(f3) == [Sep, Str(d)] + FieldTokens(f2);
    var f4: seq<Field> := [Some(v)] + f3;
    assert f4[1..] == f3 && f4[0] == Some(v);
    assert FieldTokens(f4) == [Sep, Str(v)] + FieldTokens(f3);
    assert f4 == [Some(v), Some(d), Some(a), Some(b)];
  }

  /**
   * A record's tokens before another marker: when the whole stream splits,
   * it is that record and then the records of the rest.
   */
  lemma SplitBefore(r: RawRecord, us: seq<Token>)
    requires us != [] && us[0].Marker? && Split(RecordTokens(r) + us).Ok?
    ensures Split(us).Ok? && Split(RecordTokens(r) + us).value == [r] + Split(us).value
  {
    var m := Marker(r.kind, r.lineBreak);
    var ft := FieldTokens(r.fields);
    var ts := RecordTokens(r) + us;
    FieldRunOf(r.fields, us);
    AppendAssoc([m], ft, us);
    assert ts == [m] + (ft + us);
    TailOfCons(m, ft + us);
    DropAppend(ft, us);
    assert ts[1 + |ft|..] == us;
    assert ts[0] == m && |ts| >= 2;
  }

  /** A marker directly after a `SEP` leaves the field between them empty. */
  lemma OneEmptyField(m: Token, m': Token, tail: seq<Token>)
    requires m'.Marker?
    ensures FieldRun(([m, Sep, m'] + tail)[1..]).0 == [None]
    ensures FieldRun(([m, Sep, m'] + tail)[1..]).1 == 1
  {
    var us := ([m, Sep, m'] + tail)[1..];
    assert us == [Sep] + ([m'] + tail);
    assert us[1..] == [m'] + tail;
    assert ([m'] + tail)[0] == m';
    assert us[0] == Sep && us[1] == m';
    assert FieldRun([m'] + tail) == ([], 0);
    FieldRunStep(us);
    assert FieldRun(us).0 == [None] + [];
    assert FieldRun(us).1 == 1;
  }

  /** The first record `Split` returns is the first marker with its run of fields. */
  lemma SplitHead(ts: seq<Token>)
    requires Split(ts).Ok? && ts != [Eof]
    ensures Split(ts).value != []
    ensures Split(ts).value[0] == RawRecord(ts[0].kind, ts[0].lineBreak, FieldRun(ts[1..]).0)
  {
  }

  /** The parser: lexing, then the grammar. */
  function Parse(text: string): Result<Nem12File, ParseError> {
    match Lex(text)
    case Err(e) => Err(LexicalError(e.remaining))
    case Ok(ts) => ParseTokens(ts)
  }

  /**
   * A text is read into `f` only when it is the rendering of raw records
   * that decode to the records of `f`, and `f` is well formed.
   */
  lemma ParseSound(text: string, f: Nem12File)
    requires Parse(text) == Ok(f)
    ensures WellFormedFile(f)
    ensures exists raws :: Render(Unsplit(raws)) == text && DecodeAll(raws) == Ok(FileRecords(f))
  {
    var ts := Lex(text).value;
    LexSound(text, ts);
    SplitSound(ts);
    var raws := Split(ts).value;
    var rs := DecodeAll(raws).value;
    AssembleSound(rs, f);
    assert Render(Unsplit(raws)) == text;
  }

  /**
   * Conversely, the rendering of raw records that lex as they are and decode
   * to the records of a well-formed `f` is read into `f`.
   */
  lemma ParseComplete(raws: seq<RawRecord>, f: Nem12File)
    requires WellLexed(Unsplit(raws)) && WellFormedFile(f) && DecodeAll(raws) == Ok(FileRecords(f))
    ensures Parse(Render(Unsplit(raws))) == Ok(f)
  {
    LexComplete(Unsplit(raws));
    SplitUnsplit(raws);
    AssembleComplete(f);
  }

  /** The header is read exactly when the first record is a 100 record, and so is the footer. */
  lemma HeaderIffFirstRecord(rs: seq<Record>, f: Nem12File)
    requires Assemble(rs) == Ok(f)
    ensures f.header.Some? <==> rs[0].Header100?
    ensures f.footer.Some? <==> rs[|rs| - 1].End900?
  {
    AssembleSound(rs, f);
    var body := BlocksRecords(f.data);
    BlocksFirst(f.data);
    BlocksLast(f.data);
    FileRecordsShape(f);
    if f.header.Some? {
      Unbracket(Header100(f.header.value), body, End900);
    }
  }

  lemma {:induction false} BlocksLast(bs: seq<NmiDataDetails>)
    requires bs != []
    ensures BlocksRecords(bs) != [] && !BlocksRecords(bs)[|BlocksRecords(bs)| - 1].End900?
  {
    var r := BlocksRecords(bs);
    var first := BlockRecords(bs[0]);
    if bs[1..] == [] {
      assert r == first + [];
      DaysNoEnd(FileOrder(bs[0].intervalData));
      assert first == [Details200(bs[0].details)] + DaysRecords(FileOrder(bs[0].intervalData));
    } else {
      BlocksLast(bs[1..]);
      assert r == first + BlocksRecords(bs[1..]);
    }
  }

  lemma {:induction false} DaysNoEnd(ds: seq<IntervalData>)
    ensures forall i :: 0 <= i < |DaysRecords(ds)| ==> !DaysRecords(ds)[i].End900?
  {
    if ds != [] {
      DaysNoEnd(ds[1..]);
      GroupNoEnd(ds[0]);
      var g := GroupRecords(ds[0]);
      assert DaysRecords(ds) == g + DaysRecords(ds[1..]);
      NoEndConcat(g, DaysRecords(ds[1..]));
    }
  }

  lemma NoEndConcat(a: seq<Record>, b: seq<Record>)
    requires forall i :: 0 <= i < |a| ==> !a[i].End900?
    requires forall i :: 0 <= i < |b| ==> !b[i].End900?
    ensures forall i :: 0 <= i < |a + b| ==> !(a + b)[i].End900?
  {
    assert forall i :: |a| <= i < |a + b| ==> (a + b)[i] == b[i - |a|];
  }

  lemma GroupNoEnd(g: IntervalData)
    ensures forall i :: 0 <= i < |GroupRecords(g)| ==> !GroupRecords(g)[i].End900?
  {
    var ev := EventRecords(FileOrder(g.intervalEvents));
    var b2b := B2BRecords(FileOrder(g.b2bDetails));
    EventRecordsKind(FileOrder(g.intervalEvents));
    B2BRecordsKind(FileOrder(g.b2bDetails));
    var r := GroupRecords(g);
    assert r == [Day300(g.day)] + ev + b2b;
    assert forall i :: 1 <= i < 1 + |ev| ==> r[i] == ev[i - 1];
    assert forall i :: 1 + |ev| <= i < |r| ==> r[i] == b2b[i - 1 - |ev|];
  }

  lemma {:induction false} EventRecordsKind(es: seq<IntervalEvent>)
    ensures forall i :: 0 <= i < |EventRecords(es)| ==> EventRecords(es)[i].Event400?
  {
    if es != [] {
      EventRecordsKind(es[1..]);
      var r := EventRecords(es);
      assert forall i :: 1 <= i < |r| ==> r[i] == EventRecords(es[1..])[i - 1];
    }
  }

  lemma {:induction false} B2BRecordsKind(bs: seq<B2BDetails>)
    ensures forall i :: 0 <= i < |B2BRecords(bs)| ==> B2BRecords(bs)[i].B2B500?
  {
    if bs != [] {
      B2BRecordsKind(bs[1..]);
      var r := B2BRecords(bs);
      assert forall i :: 1 <= i < |r| ==> r[i] == B2BRecords(bs[1..])[i - 1];
    }
  }
}
