/**
 * The NEM12 lexer: the `lex` part of the jison grammar. jison tries the rules
 * of the current start condition in order against the remaining input and
 * takes the first that matches there; every rule is anchored at the start of
 * the remaining input. `NextToken` is that choice, `LexFrom` the rules applied
 * until end of input, and `Tokenize` the scanning loop with its mode
 * variable (the top of jison's start-condition stack).
 *
 * Every token keeps the text it consumed (a marker keeps the line break in
 * front of it), so that rendering the tokens gives back the input.
 */
module Lexer {
  import opened JsValues
  import opened Sequences

  /** The start conditions: `INITIAL` until the first 100 or 200 record, then `PROCESSING`. */
  datatype Mode = Initial | Processing

  datatype Kind = K100 | K200 | K300 | K400 | K500 | K900

  /**
   * `Marker` is a `RecordIndicator_...` token with the line break it
   * consumed, `Sep` is `SEP`, `Str` is `String` and `Eof` is `EOF`.
   */
  datatype Token = Marker(kind: Kind, lineBreak: string) | Sep | Str(text: string) | Eof

  datatype Scan = Emit(token: Token, mode: Mode) | Stuck

  /** No rule matches; `remaining` is the number of characters not yet read. */
  datatype LexError = Unrecognised(remaining: nat)

  function Code(k: Kind): (c: string)
    ensures |c| == 3
  {
    match k
    case K100 => "100"
    case K200 => "200"
    case K300 => "300"
    case K400 => "400"
    case K500 => "500"
    case K900 => "900"
  }

  function Lexeme(t: Token): string {
    match t
    case Marker(k, lb) => lb + Code(k)
    case Sep => ","
    case Str(s) => s
    case Eof => ""
  }

  function Render(ts: seq<Token>): string {
    if ts == [] then "" else Lexeme(ts[0]) + Render(ts[1..])
  }

  predicate StartsWith(s: string, p: string) {
    |p| <= |s| && s[..|p|] == p
  }

  /** The characters a `String` token cannot contain: `[^,\r\n]`. */
  predicate IsBreak(c: char) {
    c == ',' || c == '\r' || c == '\n'
  }

  predicate NoBreaks(s: string) {
    forall i :: 0 <= i < |s| ==> !IsBreak(s[i])
  }

  predicate IsLineBreak(lb: string) {
    lb == "" || lb == "\n" || lb == "\r\n"
  }

  /** The longest match of `\r?\n` at the head of `rest`, or the empty string. */
  function LeadingBreak(rest: string): (lb: string)
    ensures IsLineBreak(lb)
    ensures StartsWith(rest, lb)
  {
    if StartsWith(rest, "\r\n") then "\r\n" else if StartsWith(rest, "\n") then "\n" else ""
  }

  /**
   * The rule `(\r?\n|^)200(?=,)`: the line break it consumes, if it matches.
   * As jison applies it (`anchored` false) `^` holds at every position, so
   * "200" directly followed by "," matches anywhere; read as intended
   * (`anchored` true) it matches only after a line break or at the start of
   * the input.
   */
  function Match200(rest: string, atStart: bool, anchored: bool): (m: Option<string>)
    ensures m.Some? ==> IsLineBreak(m.value) && StartsWith(rest, m.value + "200")
    ensures m.Some? ==> StartsWith(rest[|m.value| + 3..], ",")
    ensures m.Some? && anchored ==> m.value != "" || atStart
  {
    var lb := LeadingBreak(rest);
    var after := rest[|lb|..];
    if StartsWith(after, "200,") && (!anchored || lb != "" || atStart) then
      MarkerAhead(rest, lb);
      Some(lb)
    else
      None
  }

  /** A line break, then "200" and a comma: the rule's text and its look-ahead. */
  lemma MarkerAhead(rest: string, lb: string)
    requires StartsWith(rest, lb) && StartsWith(rest[|lb|..], "200,")
    ensures StartsWith(rest, lb + "200") && StartsWith(rest[|lb| + 3..], ",")
  {
    var after := rest[|lb|..];
    assert rest == lb + after;
    assert after[..3] == "200";
    assert (lb + after)[..|lb| + 3] == lb + "200";
    assert rest[|lb| + 3..] == after[3..];
    assert after[3..][..1] == after[..4][3..];
  }

  /** The rule `(\r?\n)` followed by the code of `k`: the marker token, if it matches. */
  function LineMarker(rest: string, k: Kind): (t: Option<Token>)
    ensures t.Some? ==> t.value.Marker? && t.value.kind == k
    ensures t.Some? ==> (t.value.lineBreak == "\n" || t.value.lineBreak == "\r\n")
    ensures t.Some? ==> StartsWith(rest, Lexeme(t.value))
  {
    var lb := LeadingBreak(rest);
    var after := rest[|lb|..];
    if lb != "" && StartsWith(after, Code(k)) then
      assert rest == lb + after;
      assert (lb + after)[..|lb| + 3] == lb + after[..3];
      Some(Marker(k, lb))
    else
      None
  }

  /** The 300, 400, 500 and 900 rules, tried in that order. */
  function LineMarkers(rest: string): (t: Option<Token>)
    ensures t.Some? ==> t.value.Marker? && t.value.kind != K100 && t.value.kind != K200
    ensures t.Some? ==> (t.value.lineBreak == "\n" || t.value.lineBreak == "\r\n")
    ensures t.Some? ==> StartsWith(rest, Lexeme(t.value)) && rest != ""
  {
    var m300 := LineMarker(rest, K300);
    var m400 := LineMarker(rest, K400);
    var m500 := LineMarker(rest, K500);
    if m300.Some? then m300
    else if m400.Some? then m400
    else if m500.Some? then m500
    else LineMarker(rest, K900)
  }

  /** The length of the longest match of `[^,\r\n]*` at the head of `rest`. */
  function RunLength(rest: string): (n: nat)
    ensures n <= |rest|
    ensures NoBreaks(rest[..n])
    ensures n < |rest| ==> IsBreak(rest[n])
  {
    if rest == [] || IsBreak(rest[0]) then 0
    else
      var n := 1 + RunLength(rest[1..]);
      assert rest[..n] == [rest[0]] + rest[1..][..n - 1];
      n
  }

  /** The rule `[^,\r\n]*`, when it matches at least one character. */
  function FieldToken(rest: string): (t: Option<Token>)
    ensures t.Some? ==> t.value.Str? && |t.value.text| > 0 && NoBreaks(t.value.text)
    ensures t.Some? ==> StartsWith(rest, t.value.text)
    ensures t.Some? ==> |t.value.text| == |rest| || IsBreak(rest[|t.value.text|])
  {
    var n := RunLength(rest);
    if n > 0 then Some(Str(rest[..n])) else None
  }

  /**
   * The token jison's lexer returns for the remaining input `rest` in start
   * condition `mode`, and the start condition after it. `atStart` says that
   * nothing has been read yet.
   */
  function NextToken(rest: string, atStart: bool, mode: Mode, anchored: bool): (s: Scan)
    ensures s.Emit? ==> StartsWith(rest, Lexeme(s.token))
    ensures (s.Emit? && s.token.Eof?) <==> rest == ""
    ensures s.Emit? && !s.token.Eof? ==> |Lexeme(s.token)| > 0 && s.mode == Processing
  {
    if mode == Initial then InitialToken(rest, atStart, anchored) else ProcessingToken(rest, atStart, anchored)
  }

  /** The `INITIAL` rules: '100', then the 200 rule; at end of input `EOF`. */
  function InitialToken(rest: string, atStart: bool, anchored: bool): (s: Scan)
    ensures s.Emit? ==> StartsWith(rest, Lexeme(s.token))
    ensures (s.Emit? && s.token.Eof?) <==> rest == ""
    ensures s.Emit? ==> (s.token.Eof? <==> s.mode == Initial)
  {
    var m200 := Match200(rest, atStart, anchored);
    if StartsWith(rest, "100") then Emit(Marker(K100, ""), Processing)
    else if m200.Some? then Emit(Marker(K200, m200.value), Processing)
    else if rest == "" then Emit(Eof, Initial)
    else Stuck
  }

  /**
   * The `PROCESSING` rules in order: the 200 rule, ',', the 300, 400, 500
   * and 900 rules, end of input (which pops the start condition), and a
   * `String` of at least one character.
   */
  function ProcessingToken(rest: string, atStart: bool, anchored: bool): (s: Scan)
    ensures s.Emit? ==> StartsWith(rest, Lexeme(s.token))
    ensures (s.Emit? && s.token.Eof?) <==> rest == ""
    ensures s.Emit? ==> (s.token.Eof? <==> s.mode == Initial)
  {
    var m200 := Match200(rest, atStart, anchored);
    if m200.Some? then Emit(Marker(K200, m200.value), Processing)
    else if StartsWith(rest, ",") then Emit(Sep, Processing)
    else LineOrField(rest)
  }

  /** The `PROCESSING` rules after ',': the 300, 400, 500 and 900 rules, end of input, a `String`. */
  function LineOrField(rest: string): (s: Scan)
    ensures s.Emit? ==> StartsWith(rest, Lexeme(s.token))
    ensures (s.Emit? && s.token.Eof?) <==> rest == ""
    ensures s.Emit? ==> !s.token.Sep? && (s.token.Eof? <==> s.mode == Initial)
  {
    var line := LineMarkers(rest);
    if line.Some? then Emit(line.value, Processing)
    else if rest == "" then Emit(Eof, Initial)
    else
      var field := FieldToken(rest);
      if field.Some? then Emit(field.value, Processing) else Stuck
  }

  /** The first token of an input is a 100 marker or a 200 marker followed by ','. */
  lemma InitialTokenShape(rest: string, atStart: bool)
    ensures var s := InitialToken(rest, atStart, true);
      s.Emit? && !s.token.Eof? ==>
        FirstToken(s.token) && (s.token.kind == K200 ==> StartsWith(rest[|Lexeme(s.token)|..], ","))
  {
  }

  /** Markers after ',' follow a line break; a `String` is a whole field. */
  lemma LineOrFieldShape(rest: string)
    ensures var s := LineOrField(rest);
      s.Emit? && !s.token.Eof? ==> InBlockToken(s.token) && !(s.token.Marker? && s.token.kind == K200)
    ensures var s := LineOrField(rest);
      s.Emit? && s.token.Str? ==> |s.token.text| == |rest| || IsBreak(rest[|s.token.text|])
  {
  }

  /**
   * A token read in `PROCESSING` after the first is an in-block token; a
   * `String` is a whole field, and the 200 rule's look-ahead has seen ','.
   */
  lemma ProcessingTokenShape(rest: string, atStart: bool)
    ensures var s := ProcessingToken(rest, atStart, true);
      s.Emit? && !s.token.Eof? && !atStart ==> InBlockToken(s.token)
    ensures var s := ProcessingToken(rest, atStart, true);
      s.Emit? && s.token.Str? ==> |s.token.text| == |rest| || IsBreak(rest[|s.token.text|])
    ensures var s := ProcessingToken(rest, atStart, true);
      s.Emit? && s.token.Marker? && s.token.kind == K200 ==> StartsWith(rest[|Lexeme(s.token)|..], ",")
  {
    var m := Match200(rest, atStart, true);
    if m.Some? {
      assert Lexeme(Marker(K200, m.value)) == m.value + "200";
    } else if !StartsWith(rest, ",") {
      LineOrFieldShape(rest);
    }
  }

  /** All tokens of `rest`, up to and including `Eof`. */
  function LexFrom(rest: string, atStart: bool, mode: Mode, anchored: bool): Result<seq<Token>, LexError>
    decreases |rest|
  {
    match NextToken(rest, atStart, mode, anchored)
    case Stuck => Err(Unrecognised(|rest|))
    case Emit(t, m) =>
      if t.Eof? then Ok([Eof])
      else
        var lexeme := Lexeme(t);
        var tail := LexFrom(rest[|lexeme|..], false, m, anchored);
        if tail.Err? then tail
        else
          Ok([t] + tail.value)
  }

  function Prepend(t: Token, r: Result<seq<Token>, LexError>): Result<seq<Token>, LexError> {
    if r.Ok? then Ok([t] + r.value) else r
  }

  function AppendAll(ts: seq<Token>, r: Result<seq<Token>, LexError>): Result<seq<Token>, LexError> {
    if r.Ok? then Ok(ts + r.value) else r
  }

  /** The lexer the model uses: the 200 rule anchored at line starts. */
  function Lex(input: string): Result<seq<Token>, LexError> {
    LexFrom(input, true, Initial, true)
  }

  /** The lexer as jison runs the rules, with `^` true at every position. */
  function LexAsWritten(input: string): Result<seq<Token>, LexError> {
    LexFrom(input, true, Initial, false)
  }

  /** The scanning loop: one rule match per iteration, the start condition in `mode`. */
  method Tokenize(input: string) returns (r: Result<seq<Token>, LexError>)
    ensures r == Lex(input)
  {
    var rest := input;
    var atStart := true;
    var mode := Initial;
    var tokens: seq<Token> := [];
    AppendNone(LexFrom(rest, atStart, mode, true));
    while true
      invariant Lex(input) == AppendAll(tokens, LexFrom(rest, atStart, mode, true))
      decreases |rest|
    {
      var scan := NextToken(rest, atStart, mode, true);
      LexFromUnfold(rest, atStart, mode, true);
      if scan.Stuck? {
        return Err(Unrecognised(|rest|));
      }
      var t := scan.token;
      if t.Eof? {
        return Ok(tokens + [Eof]);
      }
      var rest' := rest[|Lexeme(t)|..];
      AppendPrepend(tokens, t, LexFrom(rest', false, scan.mode, true));
      tokens := tokens + [t];
      rest := rest';
      atStart := false;
      mode := scan.mode;
    }
  }

  /** `LexFrom`, one rule match at a time. */
  lemma LexFromUnfold(rest: string, atStart: bool, mode: Mode, anchored: bool)
    ensures NextToken(rest, atStart, mode, anchored).Stuck? ==>
      LexFrom(rest, atStart, mode, anchored) == Err(Unrecognised(|rest|))
    ensures NextToken(rest, atStart, mode, anchored).Emit? && NextToken(rest, atStart, mode, anchored).token.Eof? ==>
      LexFrom(rest, atStart, mode, anchored) == Ok([Eof])
    ensures NextToken(rest, atStart, mode, anchored).Emit? && !NextToken(rest, atStart, mode, anchored).token.Eof? ==>
      LexFrom(rest, atStart, mode, anchored) ==
      Prepend(NextToken(rest, atStart, mode, anchored).token,
        LexFrom(rest[|Lexeme(NextToken(rest, atStart, mode, anchored).token)|..], false,
          NextToken(rest, atStart, mode, anchored).mode, anchored))
  {
  }

  lemma AppendNone(r: Result<seq<Token>, LexError>)
    ensures AppendAll([], r) == r
  {
    if r.Ok? {
      assert [] + r.value == r.value;
    }
  }

  lemma AppendPrepend(ts: seq<Token>, t: Token, r: Result<seq<Token>, LexError>)
    ensures AppendAll(ts, Prepend(t, r)) == AppendAll(ts + [t], r)
  {
    if r.Ok? {
      assert ts + ([t] + r.value) == (ts + [t]) + r.value;
    }
  }

  // ---------------------------------------------------------------------
  // What the lexer produces, exactly.

  /** A token the lexer can return in `PROCESSING`, other than `Eof`. */
  predicate InBlockToken(t: Token) {
    match t
    case Sep => true
    case Str(s) => |s| > 0 && NoBreaks(s)
    case Marker(k, lb) => k != K100 && (lb == "\n" || lb == "\r\n")
    case Eof => false
  }

  /** The first token of a non-empty input: the 100 marker, or a 200 marker. */
  predicate FirstToken(t: Token) {
    t == Marker(K100, "") ||
    (t.Marker? && t.kind == K200 && (t.lineBreak == "" || t.lineBreak == "\n" || t.lineBreak == "\r\n"))
  }

  /** Greedy `String` matching never splits a field; the 200 rule's look-ahead wants a `SEP`. */
  predicate MayFollow(a: Token, b: Token) {
    (a.Str? ==> !b.Str?) && (a.Marker? && a.kind == K200 ==> b.Sep?)
  }

  /** A token stream read in `PROCESSING`: in-block tokens ended by `Eof`. */
  predicate BlockStream(ts: seq<Token>) {
    |ts| >= 1 && ts[|ts| - 1] == Eof &&
    (forall i :: 0 <= i < |ts| - 1 ==> InBlockToken(ts[i])) &&
    (forall i :: 0 <= i < |ts| - 1 ==> MayFollow(ts[i], ts[i + 1]))
  }

  predicate WellLexed(ts: seq<Token>) {
    ts == [Eof] || (|ts| >= 2 && FirstToken(ts[0]) && MayFollow(ts[0], ts[1]) && BlockStream(ts[1..]))
  }

  lemma {:induction false} RenderAppend(a: seq<Token>, b: seq<Token>)
    ensures Render(a + b) == Render(a) + Render(b)
  {
    if a == [] {
      assert a + b == b;
    } else {
      assert (a + b)[0] == a[0];
      assert (a + b)[1..] == a[1..] + b;
      RenderAppend(a[1..], b);
    }
  }

  lemma BlockStreamTail(ts: seq<Token>)
    requires BlockStream(ts) && |ts| >= 2
    ensures BlockStream(ts[1..])
  {
    var tl := ts[1..];
    assert forall i :: 0 <= i < |tl| ==> tl[i] == ts[i + 1];
  }

  /** The first character of a rendered block stream tells its first token. */
  lemma RenderHead(ts: seq<Token>)
    requires BlockStream(ts)
    ensures Render(ts) == "" <==> ts[0] == Eof
    ensures ts[0] == Eof ==> ts == [Eof]
    ensures ts[0].Sep? ==> Render(ts)[0] == ','
    ensures ts[0].Marker? ==> Render(ts)[0] == '\r' || Render(ts)[0] == '\n'
    ensures ts[0].Str? ==> !IsBreak(Render(ts)[0])
  {
    if |ts| > 1 {
      assert InBlockToken(ts[0]);
    } else {
      assert ts == [Eof];
    }
    assert Render(ts) == Lexeme(ts[0]) + Render(ts[1..]);
  }

  // Soundness: whatever the lexer returns is well lexed and renders the input.

  /**
   * One step of the lexer on non-empty input: the first token is not `Eof`,
   * the rest of the stream is lexed from the text after its lexeme, and that
   * text is what the token's rule left there.
   */
  lemma LexStep(rest: string, atStart: bool, mode: Mode, ts: seq<Token>)
    requires LexFrom(rest, atStart, mode, true) == Ok(ts) && rest != ""
    ensures |ts| >= 2 && ts[0] != Eof
    ensures LexFrom(rest[|Lexeme(ts[0])|..], false, Processing, true) == Ok(ts[1..])
    ensures mode == Processing && !atStart ==> InBlockToken(ts[0])
    ensures mode == Initial ==> FirstToken(ts[0])
    ensures ts[0].Str? ==> rest[|Lexeme(ts[0])|..] == "" || IsBreak(rest[|Lexeme(ts[0])|..][0])
    ensures ts[0].Marker? && ts[0].kind == K200 ==> StartsWith(rest[|Lexeme(ts[0])|..], ",")
  {
    LexFromUnfold(rest, atStart, mode, true);
    var t := NextToken(rest, atStart, mode, true).token;
    var rest' := rest[|Lexeme(t)|..];
    var tail := LexFrom(rest', false, Processing, true);
    assert ts == [t] + tail.value;
    assert ts[1..] == tail.value;
    if mode == Initial {
      InitialTokenShape(rest, atStart);
    } else {
      ProcessingTokenShape(rest, atStart);
    }
    assert t.Str? && rest' != "" ==> rest'[0] == rest[|t.text|];
  }

  /** What a token's own rule says about the text after its lexeme. */
  lemma FollowSound(t: Token, rest': string, ts': seq<Token>)
    requires BlockStream(ts') && Render(ts') == rest'
    requires t.Str? ==> rest' == "" || IsBreak(rest'[0])
    requires t.Marker? && t.kind == K200 ==> StartsWith(rest', ",")
    ensures MayFollow(t, ts'[0])
  {
    RenderHead(ts');
  }

  lemma BlockStreamCons(t: Token, ts': seq<Token>)
    requires InBlockToken(t) && BlockStream(ts') && MayFollow(t, ts'[0])
    ensures BlockStream([t] + ts')
  {
    var ts := [t] + ts';
    assert forall i :: 1 <= i < |ts| ==> ts[i] == ts'[i - 1];
  }

  lemma {:induction false} BlockSound(rest: string, ts: seq<Token>)
    requires LexFrom(rest, false, Processing, true) == Ok(ts)
    ensures BlockStream(ts)
    decreases |rest|
  {
    if rest == "" {
      assert ts == [Eof];
    } else {
      LexStep(rest, false, Processing, ts);
      var rest' := rest[|Lexeme(ts[0])|..];
      BlockSound(rest', ts[1..]);
      LexFromRenders(rest', false, Processing, true);
      FollowSound(ts[0], rest', ts[1..]);
      BlockStreamCons(ts[0], ts[1..]);
      assert ts == [ts[0]] + ts[1..];
    }
  }

  /** Lexing loses no character: the tokens render as the text they were read from. */
  lemma {:induction false} LexFromRenders(rest: string, atStart: bool, mode: Mode, anchored: bool)
    requires LexFrom(rest, atStart, mode, anchored).Ok?
    ensures Render(LexFrom(rest, atStart, mode, anchored).value) == rest
    decreases |rest|
  {
    var s := NextToken(rest, atStart, mode, anchored);
    LexFromUnfold(rest, atStart, mode, anchored);
    if !s.token.Eof? {
      var lexeme := Lexeme(s.token);
      var rest' := rest[|lexeme|..];
      LexFromRenders(rest', false, s.mode, anchored);
      var tail := LexFrom(rest', false, s.mode, anchored).value;
      var ts := LexFrom(rest, atStart, mode, anchored).value;
      assert ts == [s.token] + tail;
      RenderCons(s.token, tail);
      PrefixSplit(rest, lexeme);
    }
  }

  lemma RenderCons(t: Token, ts: seq<Token>)
    ensures Render([t] + ts) == Lexeme(t) + Render(ts)
  {
    assert ([t] + ts)[1..] == ts;
  }

  lemma PrefixSplit(s: string, p: string)
    requires StartsWith(s, p)
    ensures s == p + s[|p|..]
  {
  }

  /** Lexing succeeds only with a well lexed stream that renders the input. */
  lemma LexSound(input: string, ts: seq<Token>)
    requires Lex(input) == Ok(ts)
    ensures WellLexed(ts) && Render(ts) == input
  {
    LexFromRenders(input, true, Initial, true);
    if input == "" {
      assert ts == [Eof];
    } else {
      LexStep(input, true, Initial, ts);
      var rest' := input[|Lexeme(ts[0])|..];
      BlockSound(rest', ts[1..]);
      LexFromRenders(rest', false, Processing, true);
      FollowSound(ts[0], rest', ts[1..]);
    }
  }

  // Completeness: every well lexed stream is what the lexer returns for its rendering.

  lemma {:induction false} RunOfField(s: string, r: string)
    requires NoBreaks(s)
    requires r == "" || IsBreak(r[0])
    ensures RunLength(s + r) == |s|
  {
    if s == [] {
      assert s + r == r;
    } else {
      assert (s + r)[0] == s[0];
      assert (s + r)[1..] == s[1..] + r;
      RunOfField(s[1..], r);
    }
  }

  lemma NextFromSep(r: string, anchored: bool)
    ensures NextToken("," + r, false, Processing, anchored) == Emit(Sep, Processing)
  {
    var rest := "," + r;
    assert rest[0] == ',';
    assert LeadingBreak(rest) == "";
    assert rest[..1] == ",";
    assert Match200(rest, false, anchored).None?;
  }

  /**
   * A field is read as a `String`; without the anchor this needs the field
   * not to be "200" before a comma.
   */
  lemma NextFromStr(s: string, r: string, anchored: bool)
    requires |s| > 0 && NoBreaks(s)
    requires r == "" || IsBreak(r[0])
    requires anchored || s != "200" || !StartsWith(r, ",")
    ensures NextToken(s + r, false, Processing, anchored) == Emit(Str(s), Processing)
  {
    var rest := s + r;
    assert rest[0] == s[0];
    assert LeadingBreak(rest) == "";
    assert anchored || !StartsWith(rest, "200,") by {
      if |s| >= 4 {
        assert rest[3] == s[3];
      } else if |r| > 0 {
        assert rest[..|s|] == s;
        assert rest[|s|] == r[0];
      }
    }
    assert Match200(rest, false, anchored).None?;
    assert !StartsWith(rest, ",");
    assert LineMarkers(rest).None?;
    RunOfField(s, r);
    assert rest[..|s|] == s;
  }

  lemma BreakLead(lb: string, r: string)
    requires lb == "\n" || lb == "\r\n"
    ensures LeadingBreak(lb + r) == lb
    ensures (lb + r)[|lb|..] == r
  {
    assert (lb + r)[..|lb|] == lb;
    if lb == "\n" {
      assert (lb + r)[0] == '\n';
    }
  }

  /** After a line break, the rule for `j` matches exactly when the code of `j` follows. */
  lemma LineMarkerAt(lb: string, after: string, j: Kind)
    requires lb == "\n" || lb == "\r\n"
    ensures LineMarker(lb + after, j) == if StartsWith(after, Code(j)) then Some(Marker(j, lb)) else None
  {
    BreakLead(lb, after);
  }

  lemma Match200At(lb: string, after: string, atStart: bool, anchored: bool)
    requires lb == "\n" || lb == "\r\n"
    ensures Match200(lb + after, atStart, anchored) == if StartsWith(after, "200,") then Some(lb) else None
  {
    BreakLead(lb, after);
  }

  /** The record codes are pairwise distinct, so a code starts no other code's rule. */
  lemma CodePrefix(k: Kind, j: Kind, r: string)
    ensures StartsWith(Code(k) + r, Code(j)) <==> k == j
    ensures StartsWith(Code(k) + r, "200,") <==> k == K200 && StartsWith(r, ",")
  {
    var a := Code(k) + r;
    assert a[..3] == Code(k);
    assert "200," == "200" + ",";
    if |a| >= 4 {
      assert a[..4] == Code(k) + r[..1];
      assert a[..4] == "200," <==> Code(k) == "200" && r[..1] == ",";
    }
  }

  lemma NextFromMarker(k: Kind, lb: string, r: string)
    requires k != K100 && (lb == "\n" || lb == "\r\n")
    requires k == K200 ==> StartsWith(r, ",")
    ensures NextToken(lb + Code(k) + r, false, Processing, true) == Emit(Marker(k, lb), Processing)
  {
    var after := Code(k) + r;
    var rest := lb + after;
    assert lb + Code(k) + r == rest;
    Match200At(lb, after, false, true);
    CodePrefix(k, K200, r);
    if k != K200 {
      assert rest[0] == lb[0];
      LineMarkerAt(lb, after, K300);
      LineMarkerAt(lb, after, K400);
      LineMarkerAt(lb, after, K500);
      LineMarkerAt(lb, after, K900);
      CodePrefix(k, K300, r);
      CodePrefix(k, K400, r);
      CodePrefix(k, K500, r);
      CodePrefix(k, K900, r);
    }
  }

  lemma NextFromBlockToken(t: Token, r: string)
    requires InBlockToken(t)
    requires t.Str? ==> r == "" || IsBreak(r[0])
    requires t.Marker? && t.kind == K200 ==> StartsWith(r, ",")
    ensures NextToken(Lexeme(t) + r, false, Processing, true) == Emit(t, Processing)
  {
    match t
    case Sep => NextFromSep(r, true);
    case Str(s) => NextFromStr(s, r, true);
    case Marker(k, lb) => NextFromMarker(k, lb, r);
  }

  /** What `MayFollow` says about the rendering after a token. */
  lemma FollowComplete(t: Token, ts': seq<Token>)
    requires BlockStream(ts') && MayFollow(t, ts'[0])
    ensures t.Str? ==> Render(ts') == "" || IsBreak(Render(ts')[0])
    ensures t.Marker? && t.kind == K200 ==> StartsWith(Render(ts'), ",")
  {
    RenderHead(ts');
    if t.Marker? && t.kind == K200 {
      assert Render(ts') == "," + Render(ts'[1..]);
    }
  }

  lemma {:induction false} BlockComplete(ts: seq<Token>)
    requires BlockStream(ts)
    ensures LexFrom(Render(ts), false, Processing, true) == Ok(ts)
    decreases |ts|
  {
    if ts[0] == Eof {
      RenderHead(ts);
    } else {
      var t := ts[0];
      var ts' := ts[1..];
      assert |ts| >= 2 && InBlockToken(t) && MayFollow(t, ts[1]);
      BlockStreamTail(ts);
      var r := Render(ts');
      FollowComplete(t, ts');
      NextFromBlockToken(t, r);
      assert Render(ts) == Lexeme(t) + r;
      assert (Lexeme(t) + r)[|Lexeme(t)|..] == r;
      BlockComplete(ts');
      assert ts == [t] + ts';
    }
  }

  lemma NextFromFirst(t: Token, r: string)
    requires FirstToken(t)
    requires t.Marker? && t.kind == K200 ==> StartsWith(r, ",")
    ensures NextToken(Lexeme(t) + r, true, Initial, true) == Emit(t, Processing)
  {
    var rest := Lexeme(t) + r;
    if t.kind == K100 {
      assert rest[..3] == "100";
    } else {
      var lb := t.lineBreak;
      var after := "200" + r;
      assert rest == lb + after;
      if lb == "" {
        assert rest[0] == '2';
        assert LeadingBreak(rest) == "";
      } else {
        BreakLead(lb, after);
      }
      assert after[..4] == "200" + r[..1];
      assert !StartsWith(rest, "100") by {
        assert rest[0] == '2' || rest[0] == '\r' || rest[0] == '\n';
      }
    }
  }

  /** Every well lexed stream is lexed back from its own rendering. */
  lemma LexComplete(ts: seq<Token>)
    requires WellLexed(ts)
    ensures Lex(Render(ts)) == Ok(ts)
  {
    if ts != [Eof] {
      var t := ts[0];
      var ts' := ts[1..];
      var r := Render(ts');
      FollowComplete(t, ts');
      NextFromFirst(t, r);
      assert Render(ts) == Lexeme(t) + r;
      assert (Lexeme(t) + r)[|Lexeme(t)|..] == r;
      BlockComplete(ts');
      assert ts == [t] + ts';
    }
  }

  /**
   * The lexer's output, characterised: lexing `input` gives `ts` exactly when
   * `ts` is well lexed and renders as `input`. So lexing loses no character,
   * `String` tokens never hold `,`, `\r` or `\n`, only the first token can be
   * a 100 marker, every later marker follows a line break, and `Eof` comes
   * once, at the end.
   */
  lemma LexCharacterisation(input: string, ts: seq<Token>)
    ensures Lex(input) == Ok(ts) <==> WellLexed(ts) && Render(ts) == input
  {
    if Lex(input) == Ok(ts) {
      LexSound(input, ts);
    }
    if WellLexed(ts) && Render(ts) == input {
      LexComplete(ts);
    }
  }

  /**
   * The 100 rule exists only in `INITIAL`: after the header, a field is
   * text whatever it holds, "100" included.
   */
  lemma HundredFieldIsText(f: string)
    requires |f| > 0 && NoBreaks(f)
    ensures Lex("100" + ("," + f)) == Ok([Marker(K100, ""), Sep, Str(f), Eof])
  {
    var m := Marker(K100, "");
    LexFromUnfold("", false, Processing, true);
    AppendEmpty(f);
    FieldStep(f, "", true, [Eof]);
    SepStep(f, true, [Str(f)] + [Eof]);
    FirstStep(m, "," + f, [Sep] + ([Str(f)] + [Eof]));
    ConsThree(m, Sep, Str(f), [Eof]);
  }

  /** A line that starts with 100 after the header starts no rule: lexing fails. */
  lemma HundredLineIsError(lb: string, r: string)
    requires lb == "\n" || lb == "\r\n"
    ensures Lex("100" + (lb + ("100" + r))).Err?
  {
    var rest := lb + ("100" + r);
    var text := "100" + rest;
    var m := Marker(K100, "");
    assert text == Lexeme(m) + rest;
    NextFromFirst(m, rest);
    DropAppend(Lexeme(m), rest);
    HundredLineStuck(lb, r);
    LexFromUnfold(rest, false, Processing, true);
    LexFromUnfold(text, true, Initial, true);
  }

  /** No `PROCESSING` rule matches a line break followed by "100". */
  lemma HundredLineStuck(lb: string, r: string)
    requires lb == "\n" || lb == "\r\n"
    ensures NextToken(lb + ("100" + r), false, Processing, true) == Stuck
  {
    var after := "100" + r;
    var rest := lb + after;
    assert after == Code(K100) + r;
    CodePrefix(K100, K300, r);
    CodePrefix(K100, K400, r);
    CodePrefix(K100, K500, r);
    CodePrefix(K100, K900, r);
    Match200At(lb, after, false, true);
    LineMarkerAt(lb, after, K300);
    LineMarkerAt(lb, after, K400);
    LineMarkerAt(lb, after, K500);
    LineMarkerAt(lb, after, K900);
    assert IsBreak(rest[0]);
  }

  /** One step of `LexFrom` past a token that is not `Eof`. */
  lemma LexFromStep(rest: string, atStart: bool, mode: Mode, anchored: bool, t: Token, rest': string, tail: seq<Token>)
    requires NextToken(rest, atStart, mode, anchored) == Emit(t, Processing) && !t.Eof?
    requires rest == Lexeme(t) + rest'
    requires LexFrom(rest', false, Processing, anchored) == Ok(tail)
    ensures LexFrom(rest, atStart, mode, anchored) == Ok([t] + tail)
  {
    assert rest[|Lexeme(t)|..] == rest';
  }

  /** Without the anchor, "200" before a comma is a 200 marker wherever it stands. */
  lemma BareTwoHundred(r: string, atStart: bool, mode: Mode)
    requires StartsWith(r, ",")
    ensures NextToken("200" + r, atStart, mode, false) == Emit(Marker(K200, ""), Processing)
  {
    var rest := "200" + r;
    assert rest[0] == '2';
    assert LeadingBreak(rest) == "";
    assert rest[..4] == "200" + r[..1];
    assert !StartsWith(rest, "100") by {
      assert rest[..3] == "200";
    }
  }

  lemma SepStep(r: string, anchored: bool, tail: seq<Token>)
    requires LexFrom(r, false, Processing, anchored) == Ok(tail)
    ensures LexFrom("," + r, false, Processing, anchored) == Ok([Sep] + tail)
  {
    NextFromSep(r, anchored);
    LexFromStep("," + r, false, Processing, anchored, Sep, r, tail);
  }

  lemma FieldStep(f: string, r: string, anchored: bool, tail: seq<Token>)
    requires |f| > 0 && NoBreaks(f) && (r == "" || IsBreak(r[0]))
    requires anchored || f != "200" || !StartsWith(r, ",")
    requires LexFrom(r, false, Processing, anchored) == Ok(tail)
    ensures LexFrom(f + r, false, Processing, anchored) == Ok([Str(f)] + tail)
  {
    NextFromStr(f, r, anchored);
    LexFromStep(f + r, false, Processing, anchored, Str(f), r, tail);
  }

  lemma FirstStep(t: Token, r: string, tail: seq<Token>)
    requires FirstToken(t) && (t.Marker? && t.kind == K200 ==> StartsWith(r, ","))
    requires LexFrom(r, false, Processing, true) == Ok(tail)
    ensures Lex(Lexeme(t) + r) == Ok([t] + tail)
  {
    NextFromFirst(t, r);
    LexFromStep(Lexeme(t) + r, true, Initial, true, t, r, tail);
  }

  lemma AsWrittenMarkerStep(r: string, atStart: bool, mode: Mode, tail: seq<Token>)
    requires StartsWith(r, ",") && LexFrom(r, false, Processing, false) == Ok(tail)
    ensures LexFrom("200" + r, atStart, mode, false) == Ok([Marker(K200, "")] + tail)
  {
    BareTwoHundred(r, atStart, mode);
    assert Lexeme(Marker(K200, "")) == "200";
    LexFromStep("200" + r, atStart, mode, false, Marker(K200, ""), r, tail);
  }

  /**
   * As jison applies the 200 rule, a field that is exactly "200" and is
   * followed by a comma is read as a 200 record marker; the anchored rule
   * reads it as a field.
   */
  lemma TwoHundredFieldIsMarker(r: string)
    requires StartsWith(r, ",")
    ensures NextToken("200" + r, false, Processing, false) == Emit(Marker(K200, ""), Processing)
    ensures NextToken("200" + r, false, Processing, true) == Emit(Str("200"), Processing)
  {
    BareTwoHundred(r, false, Processing);
    assert r[0] == ',';
    assert NoBreaks("200");
    NextFromStr("200", r, true);
  }

  /**
   * An input without a header that starts with a 200 line whose first
   * field is exactly "200", as jison lexes it: the field comes out as a
   * second 200 marker.
   */
  lemma TwoHundredFieldAsWritten(r: string, tail: seq<Token>)
    requires StartsWith(r, ",") && LexFrom(r, false, Processing, false) == Ok(tail)
    ensures LexAsWritten("200" + ("," + ("200" + r))) == Ok([Marker(K200, ""), Sep, Marker(K200, "")] + tail)
  {
    var m := Marker(K200, "");
    AsWrittenMarkerStep(r, false, Processing, tail);
    SepStep("200" + r, false, [m] + tail);
    var r3 := "," + ("200" + r);
    assert r3[..1] == ",";
    AsWrittenMarkerStep(r3, true, Initial, [Sep] + ([m] + tail));
    ConsThree(m, Sep, m, tail);
  }

  lemma ConsThree(a: Token, b: Token, c: Token, tail: seq<Token>)
    ensures [a] + ([b] + ([c] + tail)) == [a, b, c] + tail
    ensures [a, b, c] + [Eof] == [a, b, c, Eof]
  {
  }

  /**
   * The same line as the anchored rule reads it: a 200 marker, a separator
   * and the field "200".
   */
  lemma TwoHundredFieldAnchored(r: string, tail: seq<Token>)
    requires StartsWith(r, ",") && LexFrom(r, false, Processing, true) == Ok(tail)
    ensures Lex("200" + ("," + ("200" + r))) == Ok([Marker(K200, ""), Sep, Str("200")] + tail)
  {
    var m := Marker(K200, "");
    var r3 := "," + ("200" + r);
    assert NoBreaks("200");
    assert r[0] == r[..1][0];
    FieldStep("200", r, true, tail);
    SepStep("200" + r, true, [Str("200")] + tail);
    assert Lexeme(m) == "200";
    assert r3[..1] == ",";
    FirstStep(m, r3, [Sep] + ([Str("200")] + tail));
    ConsThree(m, Sep, Str("200"), tail);
  }

  /** The text of a 100 header line with the fields `v`, `d`, `a` and `b`, then `rest`. */
  function HeaderThen(v: string, d: string, a: string, b: string, rest: string): string {
    "100" + ("," + (v + ("," + (d + ("," + (a + ("," + (b + rest))))))))
  }

  /** The tokens of that header line. */
  function HeaderTokens(v: string, d: string, a: string, b: string): seq<Token> {
    [Marker(K100, "")] + ([Sep, Str(v)] + ([Sep, Str(d)] + ([Sep, Str(a)] + [Sep, Str(b)])))
  }

  /**
   * Without the anchor, a header line whose first three fields are not
   * "200" is read as it is with the anchor: the marker, then its fields.
   */
  lemma HeaderAsWritten(v: string, d: string, a: string, b: string, rest: string, tail: seq<Token>)
    requires |v| > 0 && |d| > 0 && |a| > 0 && |b| > 0
    requires NoBreaks(v) && NoBreaks(d) && NoBreaks(a) && NoBreaks(b)
    requires v != "200" && d != "200" && a != "200"
    requires rest != [] && rest[0] == '\n'
    requires LexFrom(rest, false, Processing, false) == Ok(tail)
    ensures LexAsWritten(HeaderThen(v, d, a, b, rest)) == Ok(HeaderTokens(v, d, a, b) + tail)
  {
    SepFieldStep(b, rest, tail);
    var r1 := "," + (b + rest);
    var t1 := [Sep, Str(b)] + tail;
    SepFieldStep(a, r1, t1);
    var r2 := "," + (a + r1);
    var t2 := [Sep, Str(a)] + t1;
    SepFieldStep(d, r2, t2);
    var r3 := "," + (d + r2);
    var t3 := [Sep, Str(d)] + t2;
    SepFieldStep(v, r3, t3);
    var r4 := "," + (v + r3);
    var t4 := [Sep, Str(v)] + t3;
    HeaderMarkerStep(r4, t4);
    assert "100" + r4 == HeaderThen(v, d, a, b, rest);
    var q2 := [Sep, Str(a)] + [Sep, Str(b)];
    AppendAssoc([Sep, Str(a)], [Sep, Str(b)], tail);
    assert t2 == q2 + tail;
    var q3 := [Sep, Str(d)] + q2;
    AppendAssoc([Sep, Str(d)], q2, tail);
    assert t3 == q3 + tail;
    var q4 := [Sep, Str(v)] + q3;
    AppendAssoc([Sep, Str(v)], q3, tail);
    assert t4 == q4 + tail;
    AppendAssoc([Marker(K100, "")], q4, tail);
  }


  /** Without the anchor, a separator and then a field other than "200" before a comma. */
  lemma SepFieldStep(f: string, r: string, tail: seq<Token>)
    requires |f| > 0 && NoBreaks(f) && r != [] && IsBreak(r[0])
    requires f != "200" || r[0] != ','
    requires LexFrom(r, false, Processing, false) == Ok(tail)
    ensures LexFrom("," + (f + r), false, Processing, false) == Ok([Sep, Str(f)] + tail)
  {
    assert StartsWith(r, ",") ==> r[0] == ',';
    FieldStep(f, r, false, tail);
    SepStep(f + r, false, [Str(f)] + tail);
    ConsTwo(Sep, Str(f), tail);
  }

  lemma ConsTwo(a: Token, b: Token, tail: seq<Token>)
    ensures [a] + ([b] + tail) == [a, b] + tail
  {
  }

  /** Without the anchor, '100' at the start of the input is the header marker. */
  lemma HeaderMarkerStep(r: string, tail: seq<Token>)
    requires LexFrom(r, false, Processing, false) == Ok(tail)
    ensures LexAsWritten("100" + r) == Ok([Marker(K100, "")] + tail)
  {
    var text := "100" + r;
    assert text[..3] == "100";
    assert Lexeme(Marker(K100, "")) == "100";
    LexFromStep(text, true, Initial, false, Marker(K100, ""), r, tail);
  }

  /** After a line break, "200" before a comma is a 200 marker, with or without the anchor. */
  lemma NextFromLineTwoHundred(r: string, anchored: bool)
    requires StartsWith(r, ",")
    ensures NextToken("\n200" + r, false, Processing, anchored) == Emit(Marker(K200, "\n"), Processing)
  {
    var after := "200" + r;
    assert "\n" + after == "\n200" + r;
    assert after[..4] == "200" + r[..1];
    Match200At("\n", after, false, anchored);
  }

  lemma LineTwoHundredStep(r: string, anchored: bool, tail: seq<Token>)
    requires StartsWith(r, ",") && LexFrom(r, false, Processing, anchored) == Ok(tail)
    ensures LexFrom("\n200" + r, false, Processing, anchored) == Ok([Marker(K200, "\n")] + tail)
  {
    NextFromLineTwoHundred(r, anchored);
    assert Lexeme(Marker(K200, "\n")) == "\n200";
    LexFromStep("\n200" + r, false, Processing, anchored, Marker(K200, "\n"), r, tail);
  }

  /**
   * A file with a header whose first 200 record has the NMI "200", as
   * jison lexes it: the NMI comes out as a second 200 marker.
   */
  lemma TwoHundredNmiAsWritten(v: string, d: string, a: string, b: string, r: string, tail: seq<Token>)
    requires |v| > 0 && |d| > 0 && |a| > 0 && |b| > 0
    requires NoBreaks(v) && NoBreaks(d) && NoBreaks(a) && NoBreaks(b)
    requires v != "200" && d != "200" && a != "200"
    requires StartsWith(r, ",") && LexFrom(r, false, Processing, false) == Ok(tail)
    ensures LexAsWritten(HeaderThen(v, d, a, b, "\n200" + ("," + ("200" + r)))) ==
      Ok(HeaderTokens(v, d, a, b) + ([Marker(K200, "\n"), Sep, Marker(K200, "")] + tail))
  {
    var m := Marker(K200, "");
    AsWrittenMarkerStep(r, false, Processing, tail);
    SepStep("200" + r, false, [m] + tail);
    var r3 := "," + ("200" + r);
    assert r3[..1] == ",";
    LineTwoHundredStep(r3, false, [Sep] + ([m] + tail));
    var rest := "\n200" + r3;
    assert rest[0] == '\n';
    HeaderAsWritten(v, d, a, b, rest, [Marker(K200, "\n")] + ([Sep] + ([m] + tail)));
    ConsThree(Marker(K200, "\n"), Sep, m, tail);
  }
}
