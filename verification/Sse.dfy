/** The SSE wire format (sse.go): the event writer, the line scanner and the parser. */
module Sse {
  import opened Options
  import opened Strings

  /** Go's `int` on a 64-bit platform. */
  type Int64 = x: int | -0x8000_0000_0000_0000 <= x <= 0x7fff_ffff_ffff_ffff

  const MAX_INT: int := 0x7fff_ffff_ffff_ffff

  /** The scanner's buffer limit: a longer line ends the parse with an error. */
  const MAX_LINE := 1024 * 1024

  const LF := '\n'
  const CR := '\r'
  const NUL := '\0'

  datatype Event = Event(typ: string, data: string, id: string, retry: Int64)

  // ----- writing -----

  function Unlines(lines: seq<string>): string {
    if lines == [] then "" else lines[0] + [LF] + Unlines(lines[1..])
  }

  /** One field on the wire. */
  function Line(name: string, value: string): string { name + ": " + value }

  function DataLines(parts: seq<string>): (r: seq<string>)
    ensures |r| == |parts|
    ensures forall i :: 0 <= i < |parts| ==> r[i] == Line("data", parts[i])
  {
    if parts == [] then [] else [Line("data", parts[0])] + DataLines(parts[1..])
  }

  /** A line that may be left out. */
  function OptLine(present: bool, line: string): seq<string> { if present then [line] else [] }

  function RetryLine(n: Int64): seq<string> { if n > 0 then [Line("retry", Decimal(n))] else [] }

  /** The lines of one event, without their terminators. */
  function EventLines(e: Event): seq<string> {
    OptLine(e.typ != "", Line("event", e.typ)) + OptLine(e.id != "", Line("id", e.id)) +
    RetryLine(e.retry) + DataLines(Split(e.data, LF)) + [""]
  }

  function WriteEvent(e: Event): string { Unlines(EventLines(e)) }

  lemma {:induction false} UnlinesConcat(a: seq<string>, b: seq<string>)
    ensures Unlines(a + b) == Unlines(a) + Unlines(b)
  {
    if a == [] {
      assert a + b == b;
    } else {
      assert (a + b)[1..] == a[1..] + b;
      UnlinesConcat(a[1..], b);
    }
  }

  method WriteLine(w: string, line: string, ghost out: seq<string>) returns (r: string)
    requires w == Unlines(out)
    ensures r == Unlines(out + [line])
  {
    UnlinesConcat(out, [line]);
    r := w + line + [LF];
  }

  /** The writer as the source runs it, field by field. */
  method WriteSSEEvent(e: Event) returns (w: string)
    ensures w == WriteEvent(e)
  {
    w := "";
    ghost var out := OptLine(e.typ != "", Line("event", e.typ));
    if e.typ != "" {
      w := WriteLine(w, Line("event", e.typ), []);
    }
    ghost var out1 := out + OptLine(e.id != "", Line("id", e.id));
    if e.id != "" {
      w := WriteLine(w, Line("id", e.id), out);
    } else {
      assert out1 == out;
    }
    ghost var out2 := out1 + RetryLine(e.retry);
    if e.retry > 0 {
      w := WriteLine(w, Line("retry", Decimal(e.retry)), out1);
    } else {
      assert out2 == out1;
    }
    ghost var out3;
    w, out3 := WriteDataLines(w, Split(e.data, LF), out2);
    w := WriteLine(w, "", out3);
  }

  method WriteDataLines(w0: string, lines: seq<string>, ghost out0: seq<string>) returns (w: string, ghost out: seq<string>)
    requires w0 == Unlines(out0)
    ensures out == out0 + DataLines(lines) && w == Unlines(out)
  {
    hide Unlines, Line;
    w, out := w0, out0;
    for i := 0 to |lines|
      invariant out == out0 + DataLines(lines)[..i]
      invariant w == Unlines(out)
    {
      w := WriteLine(w, Line("data", lines[i]), out);
      out := out + [Line("data", lines[i])];
    }
  }

  function WriteAll(es: seq<Event>): string {
    if es == [] then "" else WriteEvent(es[0]) + WriteAll(es[1..])
  }

  // ----- scanning and parsing -----

  /** The scanner's lines: pieces between line feeds, a last empty one dropped. */
  function RawLines(s: string): (lines: seq<string>)
    ensures forall l :: l in lines ==> LF !in l
  {
    var parts := Split(s, LF);
    if parts[|parts| - 1] == "" then parts[..|parts| - 1] else parts
  }

  function DropCR(line: string): string {
    if line != "" && line[|line| - 1] == CR then line[..|line| - 1] else line
  }

  /** Decimal conversion with an optional sign and a range check. */
  function Atoi(s: string): Option<int> {
    var digits := if s != "" && (s[0] == '+' || s[0] == '-') then s[1..] else s;
    if digits == "" || exists c :: c in digits && !IsDigit(c) then None
    else
      var v: int := Value(digits);
      if s[0] == '-' then (if v > MAX_INT + 1 then None else Some(-v))
      else if v > MAX_INT then None
      else Some(v)
  }

  datatype ParseState = ParseState(typ: string, data: seq<string>, id: string, retry: Int64, hasData: bool)

  const FRESH := ParseState("", [], "", 0, false)

  function JoinData(data: seq<string>): string {
    if data == [] then "" else Join(data, LF)
  }

  function Field(line: string): (string, string) {
    var i := IndexByte(line, ':');
    if i < 0 then (line, "")
    else
      var value := line[i + 1..];
      (line[..i], if value != "" && value[0] == ' ' then value[1..] else value)
  }

  /** Handling of one scanned line: the next state and the event dispatched, if any. */
  function Feed(st: ParseState, line: string): (ParseState, seq<Event>) {
    if line == "" then
      if !st.hasData && st.typ == "" && st.id == "" && st.retry == 0 then (st, [])
      else (FRESH, [Event(st.typ, JoinData(st.data), st.id, st.retry)])
    else if line[0] == ':' then (st, [])
    else
      var (field, value) := Field(line);
      if field == "event" then (st.(typ := value), [])
      else if field == "data" then (st.(data := st.data + [value], hasData := true), [])
      else if field == "id" then (if NUL in value then st else st.(id := value), [])
      else if field == "retry" then
        var n := Atoi(value);
        (if n.Some? && n.value >= 0 then st.(retry := n.value) else st, [])
      else (st, [])
  }

  /** Events in dispatch order, and whether the whole input was scanned. */
  datatype ParseResult = ParseResult(events: seq<Event>, ok: bool)

  function ParseLines(st: ParseState, lines: seq<string>): ParseResult
    decreases |lines|
  {
    if lines == [] then ParseResult([], true)
    else if |lines[0]| >= MAX_LINE then ParseResult([], false)
    else
      var (next, evs) := Feed(st, DropCR(lines[0]));
      var rest := ParseLines(next, lines[1..]);
      ParseResult(evs + rest.events, rest.ok)
  }

  function Parse(input: string): ParseResult { ParseLines(FRESH, RawLines(input)) }

  function Then(events: seq<Event>, r: ParseResult): ParseResult { ParseResult(events + r.events, r.ok) }

  /** The parser's loop over its own per-event variables. */
  method ParseSSEStream(input: string) returns (r: ParseResult)
    ensures r == Parse(input)
  {
    hide RawLines, JoinData, Field, Atoi, DropCR;
    var lines := RawLines(input);
    var events: seq<Event> := [];
    var eventType, data, id := "", [], "";
    var retry: Int64 := 0;
    var hasData := false;
    assert lines[0..] == lines;
    for i := 0 to |lines|
      invariant Parse(input) == Then(events, ParseLines(ParseState(eventType, data, id, retry, hasData), lines[i..]))
    {
      assert lines[i..][1..] == lines[i + 1..];
      if |lines[i]| >= MAX_LINE {
        return ParseResult(events, false);
      }
      ghost var before, evs := events, Feed(ParseState(eventType, data, id, retry, hasData), DropCR(lines[i])).1;
      var line := DropCR(lines[i]);
      if line == "" {
        if !(!hasData && eventType == "" && id == "" && retry == 0) {
          events := events + [Event(eventType, JoinData(data), id, retry)];
          eventType, data, id, retry, hasData := "", [], "", 0, false;
        }
      } else {
        eventType, data, id, retry, hasData := ParseLine(line, eventType, data, id, retry, hasData);
      }
      assert forall more: seq<Event> :: before + (evs + more) == events + more;
    }
    return ParseResult(events, true);
  }

  /** The field part of the loop body, for a line that is not blank. */
  method ParseLine(line: string, eventType: string, data: seq<string>, id: string, retry: Int64, hasData: bool)
    returns (eventType': string, data': seq<string>, id': string, retry': Int64, hasData': bool)
    requires line != ""
    ensures Feed(ParseState(eventType, data, id, retry, hasData), line) ==
      (ParseState(eventType', data', id', retry', hasData'), [])
  {
    eventType', data', id', retry', hasData' := eventType, data, id, retry, hasData;
    if line[0] == ':' { return; }
    var field, value;
    var idx := IndexByte(line, ':');
    if idx >= 0 {
      field, value := line[..idx], line[idx + 1..];
      if value != "" && value[0] == ' ' { value := value[1..]; }
    } else {
      field, value := line, "";
    }
    if field == "event" {
      eventType' := value;
    } else if field == "data" {
      data', hasData' := data + [value], true;
    } else if field == "id" {
      if NUL !in value { id' := value; }
    } else if field == "retry" {
      var n := Atoi(value);
      if n.Some? && n.value >= 0 { retry' := n.value; }
    }
  }
}

/** Printing events and parsing them back: exactly which events survive. */
module SseRoundTrip {
  import opened Options
  import opened Strings
  import opened Sse

  /** Fields that cannot break the line structure. */
  predicate Clean(e: Event) {
    LF !in e.typ && LF !in e.id && NUL !in e.id && e.retry >= 0
  }

  predicate ShortLines(e: Event) {
    forall l :: l in EventLines(e) ==> |l| < MAX_LINE
  }

  predicate EndsInCR(s: string) { s != "" && s[|s| - 1] == CR }

  predicate NoTrailingCR(e: Event) {
    !EndsInCR(e.typ) && !EndsInCR(e.id) && forall l :: l in Split(e.data, LF) ==> !EndsInCR(l)
  }

  /** The events the format can carry. */
  predicate Faithful(e: Event) { Clean(e) && ShortLines(e) && NoTrailingCR(e) }

  function DropEach(ls: seq<string>): (r: seq<string>)
    ensures |r| == |ls|
    ensures forall i :: 0 <= i < |ls| ==> r[i] == DropCR(ls[i])
  {
    if ls == [] then [] else [DropCR(ls[0])] + DropEach(ls[1..])
  }

  /** What the parser reads back from a clean event. */
  function StripCR(e: Event): Event {
    Event(DropCR(e.typ), Join(DropEach(Split(e.data, LF)), LF), DropCR(e.id), e.retry)
  }

  function StripAll(es: seq<Event>): (r: seq<Event>)
    ensures |r| == |es|
    ensures forall i :: 0 <= i < |es| ==> r[i] == StripCR(es[i])
  {
    if es == [] then [] else [StripCR(es[0])] + StripAll(es[1..])
  }

  // ----- one field -----

  lemma FieldOfLine(name: string, v: string)
    requires ':' !in name
    ensures Field(Line(name, v)) == (name, v)
  {
    var line := Line(name, v);
    assert line == name + [':'] + ([' '] + v);
    IndexAfterPrefix(name, ':', [' '] + v);
    assert line[..|name|] == name && line[|name| + 1..] == [' '] + v;
  }

  lemma DropCROfLine(name: string, v: string)
    ensures DropCR(Line(name, v)) == Line(name, DropCR(v))
  {
    var line := Line(name, v);
    if v == "" {
      assert line[|line| - 1] == ' ';
    } else {
      assert line[|line| - 1] == v[|v| - 1];
      assert line[..|line| - 1] == Line(name, v[..|v| - 1]);
    }
  }

  lemma FeedField(st: ParseState, name: string, v: string)
    requires name == "event" || name == "data" || name == "id" || name == "retry"
    ensures Feed(st, DropCR(Line(name, v))) ==
      (var value := DropCR(v);
       if name == "event" then (st.(typ := value), [])
       else if name == "data" then (st.(data := st.data + [value], hasData := true), [])
       else if name == "id" then (if NUL in value then st else st.(id := value), [])
       else (var n := Atoi(value);
             (if n.Some? && n.value >= 0 then st.(retry := n.value) else st, [])))
  {
    DropCROfLine(name, v);
    FieldOfLine(name, DropCR(v));
    assert ':' !in name;
    var line := Line(name, DropCR(v));
    assert line[0] == name[0] != ':';
  }

  lemma AtoiOfDecimal(n: nat)
    requires n <= MAX_INT
    ensures Atoi(Decimal(n)) == Some(n)
    ensures DropCR(Decimal(n)) == Decimal(n)
  {
    ValueOfDecimal(n);
    var s := Decimal(n);
    assert s[0] in s && s[|s| - 1] in s;
  }

  // ----- runs of lines -----

  /** Parsing `head` and then `tail`, when `head` dispatches nothing. */
  lemma ParseLinesStep(st: ParseState, line: string, tail: seq<string>)
    requires |line| < MAX_LINE
    ensures ParseLines(st, [line] + tail) ==
      (var (next, evs) := Feed(st, DropCR(line)); Then(evs, ParseLines(next, tail)))
  {
    assert ([line] + tail)[1..] == tail;
  }

  lemma {:induction false} ParseDataLines(st: ParseState, parts: seq<string>, tail: seq<string>)
    requires forall i :: 0 <= i < |parts| ==> |Line("data", parts[i])| < MAX_LINE
    ensures ParseLines(st, DataLines(parts) + tail) ==
      ParseLines(st.(data := st.data + DropEach(parts), hasData := st.hasData || parts != []), tail)
    decreases |parts|
  {
    hide ParseLines, DropCR, Line, DataLines, DropEach, Feed, Then;
    DataLinesUnfold(parts, tail, st.data);
    if parts != [] {
      var st1, rest := st.(data := st.data + [DropCR(parts[0])], hasData := true), DataLines(parts[1..]) + tail;
      ParseLinesStep(st, Line("data", parts[0]), rest);
      FeedField(st, "data", parts[0]);
      ThenNothing(ParseLines(st1, rest));
      ParseDataLines(st1, parts[1..], tail);
    }
  }

  lemma DataLinesUnfold(parts: seq<string>, tail: seq<string>, read: seq<string>)
    ensures parts == [] ==> DataLines(parts) + tail == tail && read + DropEach(parts) == read
    ensures parts != [] ==>
      DataLines(parts) + tail == [Line("data", parts[0])] + (DataLines(parts[1..]) + tail) &&
      read + [DropCR(parts[0])] + DropEach(parts[1..]) == read + DropEach(parts)
  {
    hide DropCR, Line;
  }

  lemma ParseTypeLine(st: ParseState, v: string, tail: seq<string>)
    requires v != "" ==> |Line("event", v)| < MAX_LINE
    ensures ParseLines(st, OptLine(v != "", Line("event", v)) + tail) ==
      ParseLines(if v != "" then st.(typ := DropCR(v)) else st, tail)
  {
    hide Field, Atoi;
    if v != "" {
      ParseLinesStep(st, Line("event", v), tail);
      FeedField(st, "event", v);
      ThenNothing(ParseLines(st.(typ := DropCR(v)), tail));
    } else {
      assert [] + tail == tail;
    }
  }

  lemma ParseIdLine(st: ParseState, v: string, tail: seq<string>)
    requires v != "" ==> |Line("id", v)| < MAX_LINE
    requires NUL !in v
    ensures ParseLines(st, OptLine(v != "", Line("id", v)) + tail) ==
      ParseLines(if v != "" then st.(id := DropCR(v)) else st, tail)
  {
    hide Field, Atoi;
    if v != "" {
      ParseLinesStep(st, Line("id", v), tail);
      FeedField(st, "id", v);
      assert NUL !in DropCR(v);
      ThenNothing(ParseLines(st.(id := DropCR(v)), tail));
    } else {
      assert [] + tail == tail;
    }
  }

  lemma ParseRetryLine(st: ParseState, n: Int64, tail: seq<string>)
    requires n >= 0
    requires n > 0 ==> |Line("retry", Decimal(n))| < MAX_LINE
    ensures ParseLines(st, RetryLine(n) + tail) ==
      ParseLines(if n > 0 then st.(retry := n) else st, tail)
  {
    hide Field, Atoi, Decimal;
    if n > 0 {
      AtoiOfDecimal(n);
      ParseLinesStep(st, Line("retry", Decimal(n)), tail);
      FeedField(st, "retry", Decimal(n));
      ThenNothing(ParseLines(st.(retry := n), tail));
    } else {
      assert [] + tail == tail;
    }
  }

  lemma ParseBlankLine(st: ParseState, tail: seq<string>)
    requires st.hasData
    ensures ParseLines(st, [""] + tail) ==
      Then([Event(st.typ, JoinData(st.data), st.id, st.retry)], ParseLines(FRESH, tail))
  {
    ParseLinesStep(st, "", tail);
  }

  /** The event's lines are its optional fields, its data lines and a blank. */
  lemma LinesInParts(e: Event, tail: seq<string>)
    requires e.retry >= 0
    ensures EventLines(e) + tail ==
      OptLine(e.typ != "", Line("event", e.typ)) + (OptLine(e.id != "", Line("id", e.id)) +
      (RetryLine(e.retry) + (DataLines(Split(e.data, LF)) + ([""] + tail))))
  {
    Reassociate(OptLine(e.typ != "", Line("event", e.typ)), OptLine(e.id != "", Line("id", e.id)),
      RetryLine(e.retry), DataLines(Split(e.data, LF)), [""], tail);
  }

  lemma Reassociate<T>(a: seq<T>, b: seq<T>, c: seq<T>, d: seq<T>, x: seq<T>, t: seq<T>)
    ensures a + b + c + d + x + t == a + (b + (c + (d + (x + t))))
  {
  }

  lemma ThenNothing(r: ParseResult)
    ensures Then([], r) == r
  {
    assert [] + r.events == r.events;
  }

  /** One clean event is read back with trailing carriage returns dropped. */
  lemma ParseEvent(e: Event, tail: seq<string>)
    requires Clean(e) && ShortLines(e)
    ensures ParseLines(FRESH, EventLines(e) + tail) == Then([StripCR(e)], ParseLines(FRESH, tail))
  {
    hide ParseLines, Decimal, Split, Then, StripCR, JoinData, DropEach, DropCR, DataLines, OptLine, RetryLine, EventLines, Line;
    var parts := Split(e.data, LF);
    LinesInParts(e, tail);
    DroppedEvent(e);
    ShortParts(e, parts);
    var t4 := DataLines(parts) + ([""] + tail);
    var t3 := RetryLine(e.retry) + t4;
    var t2 := OptLine(e.id != "", Line("id", e.id)) + t3;
    var s1 := FRESH.(typ := DropCR(e.typ));
    var s2 := s1.(id := DropCR(e.id));
    var s3 := s2.(retry := e.retry);
    var s4 := s3.(data := DropEach(parts), hasData := true);
    ParseTypeLine(FRESH, e.typ, t2);
    ParseIdLine(s1, e.id, t3);
    ParseRetryLine(s2, e.retry, t4);
    ParseDataLines(s3, parts, [""] + tail);
    assert [] + DropEach(parts) == DropEach(parts);
    assert s3.(data := s3.data + DropEach(parts), hasData := s3.hasData || parts != []) == s4;
    ParseBlankLine(s4, tail);
  }

  lemma DroppedEvent(e: Event)
    ensures StripCR(e) == Event(DropCR(e.typ), JoinData(DropEach(Split(e.data, LF))), DropCR(e.id), e.retry)
    ensures DropCR("") == "" && Split(e.data, LF) != []
  {
  }

  lemma ShortParts(e: Event, parts: seq<string>)
    requires Clean(e) && ShortLines(e) && parts == Split(e.data, LF)
    ensures e.typ != "" ==> |Line("event", e.typ)| < MAX_LINE
    ensures e.id != "" ==> |Line("id", e.id)| < MAX_LINE
    ensures e.retry > 0 ==> |Line("retry", Decimal(e.retry))| < MAX_LINE
    ensures forall i :: 0 <= i < |parts| ==> |Line("data", parts[i])| < MAX_LINE
  {
    hide Decimal, Split;
    assert e.typ != "" ==> Line("event", e.typ) in EventLines(e);
    assert e.id != "" ==> Line("id", e.id) in EventLines(e);
    assert e.retry > 0 ==> Line("retry", Decimal(e.retry)) in EventLines(e);
    forall i | 0 <= i < |parts| ensures |Line("data", parts[i])| < MAX_LINE {
      assert DataLines(parts)[i] in EventLines(e);
    }
  }

  function AllLines(es: seq<Event>): seq<string> {
    if es == [] then [] else EventLines(es[0]) + AllLines(es[1..])
  }

  lemma {:induction false} ParseEvents(es: seq<Event>)
    requires forall e :: e in es ==> Clean(e) && ShortLines(e)
    ensures ParseLines(FRESH, AllLines(es)) == ParseResult(StripAll(es), true)
  {
    if es != [] {
      assert es[0] in es;
      ParseEvent(es[0], AllLines(es[1..]));
      ParseEvents(es[1..]);
    }
  }

  // ----- the text and its lines -----

  lemma {:induction false} WriteAllIsUnlines(es: seq<Event>)
    ensures WriteAll(es) == Unlines(AllLines(es))
  {
    if es != [] {
      WriteAllIsUnlines(es[1..]);
      UnlinesConcat(EventLines(es[0]), AllLines(es[1..]));
    }
  }

  lemma {:induction false} UnlinesIsJoin(lines: seq<string>)
    ensures Unlines(lines) == Join(lines + [""], LF)
  {
    if lines == [] {
      assert lines + [""] == [""];
    } else {
      UnlinesIsJoin(lines[1..]);
      assert (lines + [""])[1..] == lines[1..] + [""];
    }
  }

  lemma RawLinesOfUnlines(lines: seq<string>)
    requires forall l :: l in lines ==> LF !in l
    ensures RawLines(Unlines(lines)) == lines
  {
    UnlinesIsJoin(lines);
    SplitJoin(lines + [""], LF);
  }

  lemma DecimalHasNoLF(n: nat)
    ensures LF !in Decimal(n)
  {
  }

  lemma EventLinesHaveNoLF(e: Event)
    requires LF !in e.typ && LF !in e.id
    ensures forall l :: l in EventLines(e) ==> LF !in l
  {
    if e.retry > 0 { DecimalHasNoLF(e.retry); }
    var parts := Split(e.data, LF);
    forall l | l in DataLines(parts) ensures LF !in l {
      var i :| 0 <= i < |parts| && l == DataLines(parts)[i];
      assert parts[i] in parts;
    }
  }

  lemma {:induction false} AllLinesHaveNoLF(es: seq<Event>)
    requires forall e :: e in es ==> LF !in e.typ && LF !in e.id
    ensures forall l :: l in AllLines(es) ==> LF !in l
  {
    if es != [] {
      assert es[0] in es;
      EventLinesHaveNoLF(es[0]);
      AllLinesHaveNoLF(es[1..]);
    }
  }

  // ----- what the parser can produce -----

  predicate CleanState(st: ParseState) {
    LF !in st.typ && LF !in st.id && NUL !in st.id && st.retry >= 0
  }

  lemma FeedKeepsClean(st: ParseState, line: string)
    requires CleanState(st) && LF !in Field(line).1
    ensures CleanState(Feed(st, line).0)
    ensures forall e :: e in Feed(st, line).1 ==> Clean(e)
  {
    hide Atoi, Field, JoinData;
  }

  /** The parser never produces an event that breaks the line structure. */
  lemma {:induction false} ParsedEventsAreClean(st: ParseState, lines: seq<string>)
    requires CleanState(st) && forall l :: l in lines ==> LF !in l
    ensures forall e :: e in ParseLines(st, lines).events ==> Clean(e)
    decreases |lines|
  {
    if lines != [] && |lines[0]| < MAX_LINE {
      assert lines[0] in lines;
      FeedKeepsClean(st, DropCR(lines[0]));
      ParsedEventsAreClean(Feed(st, DropCR(lines[0])).0, lines[1..]);
    }
  }

  lemma {:induction false} ParseOkIffShort(st: ParseState, lines: seq<string>)
    ensures ParseLines(st, lines).ok <==> forall l :: l in lines ==> |l| < MAX_LINE
    decreases |lines|
  {
    if lines != [] {
      assert lines[0] in lines;
      if |lines[0]| < MAX_LINE {
        ParseOkIffShort(Feed(st, DropCR(lines[0])).0, lines[1..]);
        assert forall l :: l in lines <==> l == lines[0] || l in lines[1..];
      }
    }
  }

  lemma {:induction false} LinesOfEvents(es: seq<Event>)
    ensures forall l, e :: e in es && l in EventLines(e) ==> l in AllLines(es)
  {
    if es != [] { LinesOfEvents(es[1..]); }
  }

  // ----- the theorem -----

  lemma DropEachIsIdentityIff(parts: seq<string>)
    ensures DropEach(parts) == parts <==> forall l :: l in parts ==> !EndsInCR(l)
  {
    hide DropEach;
    if DropEach(parts) == parts {
      forall l | l in parts ensures !EndsInCR(l) {
        var i :| 0 <= i < |parts| && parts[i] == l;
        assert DropEach(parts)[i] == l;
      }
    }
    if forall l :: l in parts ==> !EndsInCR(l) {
      forall i | 0 <= i < |parts| ensures DropEach(parts)[i] == parts[i] {
        assert parts[i] in parts;
      }
    }
  }

  lemma DropEachKeepsNoLF(parts: seq<string>)
    requires forall p :: p in parts ==> LF !in p
    ensures forall p :: p in DropEach(parts) ==> LF !in p
  {
    hide DropEach;
    forall p | p in DropEach(parts) ensures LF !in p {
      var i :| 0 <= i < |parts| && DropEach(parts)[i] == p;
      assert parts[i] in parts;
    }
  }

  lemma StripIsIdentityIff(e: Event)
    ensures StripCR(e) == e <==> NoTrailingCR(e)
  {
    hide Split, Join, DropEach;
    var parts := Split(e.data, LF);
    JoinSplit(e.data, LF);
    DropEachKeepsNoLF(parts);
    SplitJoin(DropEach(parts), LF);
    DropEachIsIdentityIff(parts);
  }

  lemma StripAllIsIdentityIff(es: seq<Event>)
    ensures StripAll(es) == es <==> forall e :: e in es ==> NoTrailingCR(e)
  {
    hide StripCR, NoTrailingCR, StripAll;
    forall e ensures StripCR(e) == e <==> NoTrailingCR(e) { StripIsIdentityIff(e); }
    if StripAll(es) == es {
      forall e | e in es ensures NoTrailingCR(e) {
        var i :| 0 <= i < |es| && es[i] == e;
        assert StripAll(es)[i] == StripCR(e);
      }
    }
    if forall e :: e in es ==> NoTrailingCR(e) {
      forall i | 0 <= i < |es| ensures StripAll(es)[i] == es[i] { assert es[i] in es; }
    }
  }

  /** What parsing makes of the text of clean events. */
  lemma ParseOfClean(es: seq<Event>)
    requires forall e :: e in es ==> Clean(e)
    ensures Parse(WriteAll(es)).ok <==> forall e :: e in es ==> ShortLines(e)
    ensures (forall e :: e in es ==> ShortLines(e)) ==> Parse(WriteAll(es)) == ParseResult(StripAll(es), true)
  {
    hide WriteAll, EventLines, ParseLines, StripAll, RawLines;
    WriteAllIsUnlines(es);
    AllLinesHaveNoLF(es);
    RawLinesOfUnlines(AllLines(es));
    if forall e :: e in es ==> ShortLines(e) {
      ParseEvents(es);
    } else {
      var e :| e in es && !ShortLines(e);
      LinesOfEvents(es);
      ParseOkIffShort(FRESH, AllLines(es));
    }
  }

  /** Writing a list of events and parsing the text returns the same list, with no
      error, exactly when every event is faithful: no line feed in its type or id,
      no NUL in its id, a retry that is not negative, no line ending in a carriage
      return and no line at the scanner's limit. */
  lemma RoundTripIffFaithful(es: seq<Event>)
    ensures Parse(WriteAll(es)) == ParseResult(es, true) <==> forall e :: e in es ==> Faithful(e)
  {
    hide WriteAll, ParseLines, StripAll, RawLines, Clean, ShortLines, NoTrailingCR;
    if forall e :: e in es ==> Clean(e) {
      ParseOfClean(es);
      StripAllIsIdentityIff(es);
    } else {
      ParsedEventsAreClean(FRESH, RawLines(WriteAll(es)));
    }
  }
}
