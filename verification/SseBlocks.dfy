/** What the event-stream parser makes of any text (sse.go:140-227): a reading by blocks
    of lines that mentions neither the loop nor its variables. */
module SseBlocks {
  import opened Options
  import opened Strings
  import opened Sse
  import opened SseRoundTrip
  import opened SseRetry

  // ----- the reading by blocks -----

  /** What a line says of a field: `name`, `name:value` or `name: value`. */
  function Said(line: string, name: string): Option<string> {
    var n := |name|;
    if line == name then Some("")
    else if |line| > n && line[..n] == name && line[n] == ':' then
      Some(if |line| > n + 1 && line[n + 1] == ' ' then line[n + 2..] else line[n + 1..])
    else None
  }

  /** The values a block of lines gives a field, in order. */
  function AllSaid(block: seq<string>, name: string): seq<string> {
    if block == [] then []
    else
      AllSaid(block[..|block| - 1], name) +
      match Said(block[|block| - 1], name) case None => [] case Some(v) => [v]
  }

  function Last(values: seq<string>): string { if values == [] then "" else values[|values| - 1] }

  /** The values without a NUL character. */
  function NulFree(values: seq<string>): seq<string> {
    if values == [] then []
    else NulFree(values[..|values| - 1]) + if '\0' in values[|values| - 1] then [] else [values[|values| - 1]]
  }

  /** The last value that is a retry time. */
  function LastRetry(values: seq<string>): nat {
    if values == [] then 0
    else match RetryOf(values[|values| - 1]) case None => LastRetry(values[..|values| - 1]) case Some(n) => n
  }

  function Joined(values: seq<string>): string { if values == [] then "" else Join(values, '\n') }

  lemma {:induction false} LastRetryFits(values: seq<string>)
    ensures LastRetry(values) <= MAX_INT
    decreases |values|
  {
    if values != [] { LastRetryFits(values[..|values| - 1]); }
  }

  /** The event a block stands for, and whether it stands for one. */
  function EventOf(block: seq<string>): Event {
    var retry := LastRetry(AllSaid(block, "retry"));
    LastRetryFits(AllSaid(block, "retry"));
    Event(Last(AllSaid(block, "event")), Joined(AllSaid(block, "data")), Last(NulFree(AllSaid(block, "id"))), retry)
  }

  predicate SaysSomething(block: seq<string>) {
    AllSaid(block, "data") != [] || EventOf(block).typ != "" || EventOf(block).id != "" || EventOf(block).retry != 0
  }

  function Dispatch(block: seq<string>): seq<Event> { if SaysSomething(block) then [EventOf(block)] else [] }

  /** A blank line ends a block; lines without one behind them are not dispatched. */
  function EventsFrom(block: seq<string>, lines: seq<string>): seq<Event>
    decreases |lines|
  {
    if lines == [] then []
    else if lines[0] == "" then Dispatch(block) + EventsFrom([], lines[1..])
    else EventsFrom(block + [lines[0]], lines[1..])
  }

  /** The lines before the first that is too long for the scanner. */
  function Readable(lines: seq<string>): seq<string> {
    if lines == [] || |lines[0]| >= 1048576 then [] else [lines[0]] + Readable(lines[1..])
  }

  // ----- the loop's variables are the block so far -----

  function StateOf(block: seq<string>): ParseState {
    StateFrom(AllSaid(block, "event"), AllSaid(block, "data"), AllSaid(block, "id"), AllSaid(block, "retry"))
  }

  function StateFrom(types: seq<string>, data: seq<string>, ids: seq<string>, retries: seq<string>): ParseState {
    LastRetryFits(retries);
    ParseState(Last(types), data, Last(NulFree(ids)), LastRetry(retries), data != [])
  }

  lemma AllSaidMore(block: seq<string>, line: string, name: string)
    ensures AllSaid(block + [line], name) == AllSaid(block, name) + match Said(line, name) case None => [] case Some(v) => [v]
  {
    assert (block + [line])[..|block|] == block;
  }

  lemma NulFreeMore(values: seq<string>, v: string)
    ensures NulFree(values + [v]) == NulFree(values) + if '\0' in v then [] else [v]
  {
    assert (values + [v])[..|values|] == values;
  }

  lemma LastRetryMore(values: seq<string>, v: string)
    ensures LastRetry(values + [v]) == match RetryOf(v) case None => LastRetry(values) case Some(n) => n
  {
    assert (values + [v])[..|values|] == values;
  }

  /** For a name without a colon the field the parser splits off is what the line says. */
  lemma FieldIsSaid(line: string, name: string)
    requires line != "" && line[0] != ':' && name != "" && ':' !in name
    ensures Said(line, name) == if Field(line).0 == name then Some(Field(line).1) else None
  {
    var i := IndexByte(line, ':');
    if i >= 0 {
      FirstColon(line, i, name);
      hide IndexByte;
    }
  }

  /** The name stands before the first colon, or nowhere before one. */
  lemma FirstColon(line: string, i: nat, name: string)
    requires i < |line| && line[i] == ':' && (forall k :: 0 <= k < i ==> line[k] != ':') && ':' !in name
    ensures line[..i] == name <==> |line| > |name| && line[..|name|] == name && line[|name|] == ':'
    ensures line != name
  {
    assert forall k :: 0 <= k < |name| ==> name[k] in name;
    if |line| > |name| && line[..|name|] == name && line[|name|] == ':' {
      assert forall k :: 0 <= k < |name| ==> line[k] == name[k];
    }
  }

  lemma CommentSaysNothing(line: string, name: string)
    requires line != "" && line[0] == ':' && name != "" && ':' !in name
    ensures Said(line, name) == None
  {
    assert name[0] != ':';
  }

  /** The values with one more, if the line is for this field. */
  function More(values: seq<string>, line: string, name: string): seq<string> {
    values + match Said(line, name) case None => [] case Some(v) => [v]
  }

  lemma CommentIsSkipped(line: string, st: ParseState)
    requires line != "" && line[0] == ':'
    ensures Feed(st, line) == (st, [])
  {
  }

  lemma FieldIsFed(types: seq<string>, data: seq<string>, ids: seq<string>, retries: seq<string>, line: string, v: string)
    requires line != "" && line[0] != ':' && Field(line).1 == v
    ensures var f := Field(line).0;
      Feed(StateFrom(types, data, ids, retries), line) ==
      (StateFrom(if f == "event" then types + [v] else types, if f == "data" then data + [v] else data,
                 if f == "id" then ids + [v] else ids, if f == "retry" then retries + [v] else retries), [])
  {
    NulFreeMore(ids, v);
    LastRetryMore(retries, v);
    hide NulFree, LastRetry, Field, Atoi;
  }

  lemma FeedIsMore(types: seq<string>, data: seq<string>, ids: seq<string>, retries: seq<string>, line: string)
    requires line != ""
    ensures Feed(StateFrom(types, data, ids, retries), line) ==
      (StateFrom(More(types, line, "event"), More(data, line, "data"), More(ids, line, "id"), More(retries, line, "retry")), [])
  {
    hide Feed, StateFrom, Said, Field;
    assert types + [] == types && data + [] == data && ids + [] == ids && retries + [] == retries;
    if line[0] == ':' {
      CommentSaysNothing(line, "event");
      CommentSaysNothing(line, "data");
      CommentSaysNothing(line, "id");
      CommentSaysNothing(line, "retry");
      CommentIsSkipped(line, StateFrom(types, data, ids, retries));
    } else {
      FieldIsSaid(line, "event");
      FieldIsSaid(line, "data");
      FieldIsSaid(line, "id");
      FieldIsSaid(line, "retry");
      FieldIsFed(types, data, ids, retries, line, Field(line).1);
    }
  }

  lemma FeedIsBlock(block: seq<string>, line: string)
    requires line != ""
    ensures Feed(StateOf(block), line) == (StateOf(block + [line]), [])
  {
    AllSaidMore(block, line, "event");
    AllSaidMore(block, line, "data");
    AllSaidMore(block, line, "id");
    AllSaidMore(block, line, "retry");
    FeedIsMore(AllSaid(block, "event"), AllSaid(block, "data"), AllSaid(block, "id"), AllSaid(block, "retry"), line);
    hide Feed, StateFrom, Said, AllSaid;
  }

  lemma BlankIsDispatch(block: seq<string>)
    ensures Feed(StateOf(block), "") == (StateOf([]), Dispatch(block))
  {
    LastRetryFits(AllSaid(block, "retry"));
    assert StateOf([]) == FRESH;
    hide AllSaid, NulFree, LastRetry;
  }

  lemma {:induction false} ParseFromBlock(block: seq<string>, lines: seq<string>)
    ensures ParseLines(StateOf(block), lines) ==
      ParseResult(EventsFrom(block, DropEach(Readable(lines))), Readable(lines) == lines)
    decreases |lines|
  {
    if lines != [] && |lines[0]| < MAX_LINE {
      var line, rest := DropCR(lines[0]), Readable(lines[1..]);
      assert Readable(lines)[1..] == rest && (Readable(lines) == lines <==> rest == lines[1..]);
      assert DropEach(Readable(lines)) == [line] + DropEach(rest) && ([line] + DropEach(rest))[1..] == DropEach(rest);
      hide Feed, StateOf, Dispatch, DropCR, DropEach, Readable;
      if line == "" {
        BlankIsDispatch(block);
        ParseFromBlock([], lines[1..]);
      } else {
        FeedIsBlock(block, line);
        ParseFromBlock(block + [line], lines[1..]);
      }
    }
  }

  // ----- the statements -----

  /** Of every text: the parser dispatches exactly the events its blocks stand for, up to
      the first line too long for the scanner, and reports an error if and only if there
      is one. */
  lemma ParseReadsBlocks(input: string)
    ensures var lines := RawLines(input);
      Parse(input) == ParseResult(EventsFrom([], DropEach(Readable(lines))), Readable(lines) == lines)
  {
    assert StateOf([]) == FRESH;
    ParseFromBlock([], RawLines(input));
  }

  lemma OneLineInFront(line: string, tail: string)
    requires '\n' !in line
    ensures RawLines(line + ['\n'] + tail) == [line] + RawLines(tail)
  {
    SplitAtFirst(line, '\n', tail);
    var parts := Split(tail, '\n');
    hide Split;
    PutInFront(line, parts);
    if parts[|parts| - 1] != "" { assert [line] + parts == [line] + RawLines(tail); }
  }

  lemma PutInFront(line: string, parts: seq<string>)
    requires |parts| >= 1
    ensures ([line] + parts)[|parts|] == parts[|parts| - 1]
    ensures ([line] + parts)[..|parts|] == [line] + parts[..|parts| - 1]
  {
  }

  /** The lines of a text with whole lines in front. */
  lemma {:induction false} LinesInFront(lines: seq<string>, rest: string)
    requires forall l :: l in lines ==> '\n' !in l
    ensures RawLines(Unlines(lines) + rest) == lines + RawLines(rest)
    decreases |lines|
  {
    if lines == [] {
      assert Unlines([]) + rest == rest;
    } else {
      assert lines[0] in lines;
      var tail := Unlines(lines[1..]) + rest;
      UnlinesFirst(lines, rest);
      hide RawLines, Unlines;
      LinesInFront(lines[1..], rest);
      OneLineInFront(lines[0], tail);
      FirstAndRest(lines, RawLines(rest));
    }
  }

  lemma FirstAndRest(a: seq<string>, b: seq<string>)
    requires a != []
    ensures [a[0]] + (a[1..] + b) == a + b
  {
  }

  lemma UnlinesFirst(lines: seq<string>, rest: string)
    requires lines != []
    ensures Unlines(lines) + rest == lines[0] + ['\n'] + (Unlines(lines[1..]) + rest)
  {
  }

  /** A text that is empty or ends a line is its lines. */
  predicate WholeLines(text: string) { text == "" || text[|text| - 1] == '\n' }

  lemma WholeLinesAreLines(text: string)
    requires WholeLines(text)
    ensures Unlines(RawLines(text)) == text
  {
    JoinSplit(text, '\n');
    var parts := Split(text, '\n');
    if text != "" {
      LastPartIsEmpty(parts, text);
      UnlinesIsJoin(parts[..|parts| - 1]);
      assert parts == parts[..|parts| - 1] + [""];
    }
  }

  lemma {:induction false} LastPartIsEmpty(parts: seq<string>, text: string)
    requires |parts| >= 1 && Join(parts, '\n') == text && WholeLines(text)
    requires forall p :: p in parts ==> '\n' !in p
    ensures parts[|parts| - 1] == ""
    decreases |parts|
  {
    if |parts| > 1 {
      var tail := Join(parts[1..], '\n');
      assert text == parts[0] + ['\n'] + tail;
      assert tail != "" ==> text[|text| - 1] == tail[|tail| - 1];
      LastPartIsEmpty(parts[1..], tail);
    } else {
      assert '\n' !in text;
    }
  }

  lemma ParseWithLine(pre: string, line: string, post: string)
    requires WholeLines(pre) && '\n' !in line
    ensures RawLines(pre + line + "\n" + post) == RawLines(pre) + ([line] + RawLines(post))
    ensures RawLines(pre + post) == RawLines(pre) + RawLines(post)
  {
    WholeLinesAreLines(pre);
    hide RawLines, WholeLines, Unlines;
    LinesInFront(RawLines(pre), line + ['\n'] + post);
    LinesInFront(RawLines(pre), post);
    OneLineInFront(line, post);
    Regroup(pre, line, post);
  }

  lemma Regroup(pre: string, line: string, post: string)
    ensures pre + line + "\n" + post == pre + (line + ['\n'] + post)
  {
  }

  lemma {:induction false} SameEffect(st: ParseState, a: seq<string>, x: seq<string>, y: seq<string>, b: seq<string>)
    requires forall s :: ParseLines(s, x + b) == ParseLines(s, y + b)
    ensures ParseLines(st, a + (x + b)) == ParseLines(st, a + (y + b))
    decreases |a|
  {
    if a == [] {
      assert a + (x + b) == x + b && a + (y + b) == y + b;
    } else {
      assert (a + (x + b))[1..] == a[1..] + (x + b) && (a + (y + b))[1..] == a[1..] + (y + b);
      SameEffect(Feed(st, DropCR(a[0])).0, a[1..], x, y, b);
    }
  }

  /** Two lines that feed alike may replace each other at any place of any text. */
  lemma LinesAlike(pre: string, x: string, y: string, post: string)
    requires WholeLines(pre) && '\n' !in x && '\n' !in y && |x| < 1048576 && |y| < 1048576
    requires forall st :: Feed(st, DropCR(x)) == Feed(st, DropCR(y))
    ensures Parse(pre + x + "\n" + post) == Parse(pre + y + "\n" + post)
  {
    ParseWithLine(pre, x, post);
    ParseWithLine(pre, y, post);
    hide Feed, RawLines, WholeLines, DropCR;
    var b := RawLines(post);
    forall s ensures ParseLines(s, [x] + b) == ParseLines(s, [y] + b) {
      ParseLinesStep(s, x, b);
      ParseLinesStep(s, y, b);
    }
    SameEffect(FRESH, RawLines(pre), [x], [y], b);
  }

  // ----- lines that mean the same, and lines that mean nothing -----

  lemma NoColon(name: string)
    requires ':' !in name
    ensures Field(name) == (name, "")
  {
    assert forall k :: 0 <= k < |name| ==> name[k] in name;
  }

  lemma ValueWithoutCR(head: string, v: string)
    requires head != "" && head[|head| - 1] != CR
    ensures DropCR(head + v) == head + DropCR(v)
  {
    if v != "" {
      assert (head + v)[|head + v| - 1] == v[|v| - 1];
      assert (head + v)[..|head + v| - 1] == head + v[..|v| - 1];
    } else {
      assert head + v == head;
    }
  }

  lemma FieldWithColon(name: string, v: string)
    requires ':' !in name
    ensures Field(name + ":" + v) == (name, if v != "" && v[0] == ' ' then v[1..] else v)
  {
    var line := name + ":" + v;
    assert line == name + [':'] + v;
    IndexAfterPrefix(name, ':', v);
    assert line[..|name|] == name && line[|name| + 1..] == v;
  }

  /** One space behind the colon makes no difference: the line `name:value` and the line
      `name: value` may stand for each other at any place of any text. */
  lemma SpaceIsOptional(pre: string, name: string, v: string, post: string)
    requires WholeLines(pre) && ':' !in name && '\n' !in name && '\n' !in v && (v == "" || v[0] != ' ')
    requires |name| + |v| + 2 < 1048576
    ensures Parse(pre + (name + ":" + v) + "\n" + post) == Parse(pre + (name + ": " + v) + "\n" + post)
  {
    hide WholeLines, Feed, DropCR;
    forall st ensures Feed(st, DropCR(name + ":" + v)) == Feed(st, DropCR(name + ": " + v)) { SpacedFeedsAlike(st, name, v); }
    LinesAlike(pre, name + ":" + v, name + ": " + v, post);
  }

  lemma SpacedFeedsAlike(st: ParseState, name: string, v: string)
    requires ':' !in name && (v == "" || v[0] != ' ')
    ensures Feed(st, DropCR(name + ":" + v)) == Feed(st, DropCR(name + ": " + v))
  {
    var w := DropCR(v);
    assert w == "" || w[0] == v[0];
    ValueWithoutCR(name + ":", v);
    ValueWithoutCR(name + ": ", v);
    hide DropCR, Feed, Field;
    SpacedFieldsAlike(name, w);
    FeedByField(st, name + ":" + w, name + ": " + w);
  }

  lemma SpacedFieldsAlike(name: string, w: string)
    requires ':' !in name && (w == "" || w[0] != ' ')
    ensures Field(name + ":" + w) == Field(name + ": " + w)
    ensures name + ":" + w != "" && name + ": " + w != "" && ((name + ":" + w)[0] == ':' <==> (name + ": " + w)[0] == ':')
  {
    FieldWithColon(name, w);
    FieldWithColon(name, " " + w);
    hide Field;
    assert name + ":" + (" " + w) == name + ": " + w;
    assert (" " + w)[0] == ' ' && (" " + w)[1..] == w;
    assert name != "" ==> (name + ":" + w)[0] == name[0] && (name + ": " + w)[0] == name[0];
  }

  lemma FeedByField(st: ParseState, x: string, y: string)
    requires x != "" && y != "" && (x[0] == ':' <==> y[0] == ':') && Field(x) == Field(y)
    ensures Feed(st, x) == Feed(st, y)
  {
    hide Field, Atoi, JoinData;
  }

  /** No more than one space is dropped. */
  lemma OneSpaceIsDropped(name: string, v: string)
    requires ':' !in name && name != ""
    ensures Said(name + ": " + v, name) == Some(v)
    ensures v == "" || v[0] != ' ' ==> Said(name + ":" + v, name) == Some(v)
    ensures Said(name, name) == Some("")
  {
    var x, y := name + ": " + v, name + ":" + v;
    assert x[..|name|] == name && x[|name|] == ':' && x[|name| + 1] == ' ' && x[|name| + 2..] == v;
    assert y[..|name|] == name && y[|name|] == ':' && y[|name| + 1..] == v;
  }

  /** A bare name stands for the name with a colon and nothing behind. */
  lemma BareNameIsEmptyValue(pre: string, name: string, post: string)
    requires WholeLines(pre) && ':' !in name && '\n' !in name && name != "" && name[|name| - 1] != '\r'
    requires |name| + 1 < 1048576
    ensures Parse(pre + name + "\n" + post) == Parse(pre + (name + ":") + "\n" + post)
  {
    var y := name + ":";
    FieldWithColon(name, "");
    assert y + "" == y && y[|y| - 1] == ':';
    NoColon(name);
    assert name[0] in name && y[0] == name[0];
    hide WholeLines;
    forall st ensures Feed(st, DropCR(name)) == Feed(st, DropCR(y)) { FeedByField(st, name, y); }
    LinesAlike(pre, name, y, post);
  }

  /** A line that is a comment, or gives a value to a field nobody knows. */
  predicate MeansNothing(line: string) {
    line != "" && Said(line, "event") == None && Said(line, "data") == None && Said(line, "id") == None && Said(line, "retry") == None
  }

  lemma FeedNothing(st: ParseState, line: string)
    requires MeansNothing(line)
    ensures Feed(st, line) == (st, [])
  {
    if line[0] != ':' {
      FieldIsSaid(line, "event");
      FieldIsSaid(line, "data");
      FieldIsSaid(line, "id");
      FieldIsSaid(line, "retry");
    }
    hide Said, Field;
  }

  /** Comments and lines with unknown fields may be put in anywhere. */
  lemma NothingMayBeAdded(pre: string, line: string, post: string)
    requires WholeLines(pre) && '\n' !in line && |line| < 1048576 && MeansNothing(DropCR(line))
    ensures Parse(pre + line + "\n" + post) == Parse(pre + post)
  {
    ParseWithLine(pre, line, post);
    var b := RawLines(post);
    hide RawLines, WholeLines, DropCR, MeansNothing;
    assert [] + b == b;
    forall s ensures ParseLines(s, [line] + b) == ParseLines(s, [] + b) {
      ParseLinesStep(s, line, b);
      FeedNothing(s, DropCR(line));
      ThenNothing(ParseLines(s, b));
    }
    SameEffect(FRESH, RawLines(pre), [line], [], b);
  }

  lemma CommentsMeanNothing(text: string)
    ensures MeansNothing(":" + text)
  {
    var line := ":" + text;
    CommentSaysNothing(line, "event");
    CommentSaysNothing(line, "data");
    CommentSaysNothing(line, "id");
    CommentSaysNothing(line, "retry");
  }

  /** A field with another name means nothing. */
  lemma UnknownFieldsMeanNothing(name: string, v: string)
    requires ':' !in name && name != "" && name != "event" && name != "data" && name != "id" && name != "retry"
    ensures MeansNothing(name + ":" + v) && MeansNothing(name)
  {
    var line := name + ":" + v;
    FieldWithColon(name, v);
    NoColon(name);
    assert name[0] in name && line[0] == name[0];
    FieldIsSaid(line, "event"); FieldIsSaid(line, "data"); FieldIsSaid(line, "id"); FieldIsSaid(line, "retry");
    FieldIsSaid(name, "event"); FieldIsSaid(name, "data"); FieldIsSaid(name, "id"); FieldIsSaid(name, "retry");
  }

  /** One data line and a blank one: the event, with at most one space dropped. */
  lemma OneDataLine(v: string)
    requires '\n' !in v && |v| + 5 < 1048576 && (v == "" || v[|v| - 1] != '\r')
    ensures Parse("data:" + v + "\n\n") == ParseResult([Event("", if v != "" && v[0] == ' ' then v[1..] else v, "", 0)], true)
  {
    var line, value := "data:" + v, if v != "" && v[0] == ' ' then v[1..] else v;
    FieldWithColon("data", v);
    ValueWithoutCR("data:", v);
    LineThenBlank(line);
    assert DropCR(v) == v && "data" + ":" == "data:" && line[0] == 'd';
    hide Field, DropCR, RawLines, ParseLines;
    assert "data:" + v + "\n\n" == line + "\n\n";
    DataThenBlank(line, value);
  }

  lemma LineThenBlank(line: string)
    requires '\n' !in line
    ensures RawLines(line + "\n\n") == [line, ""]
  {
    BlankLineAlone();
    hide RawLines;
    OneLineInFront(line, "\n");
    assert line + ['\n'] + "\n" == line + "\n\n";
  }

  lemma BlankLineAlone()
    ensures RawLines("\n") == [""] && RawLines("") == []
  {
    OneLineInFront("", "");
    assert "" + ['\n'] + "" == "\n";
  }

  lemma DataThenBlank(line: string, value: string)
    requires |line| < 1048576 && DropCR(line) == line && line != "" && line[0] != ':' && Field(line) == ("data", value)
    ensures ParseLines(FRESH, [line, ""]) == ParseResult([Event("", value, "", 0)], true)
  {
    hide Field, Atoi;
    assert [line, ""][1..] == [""] && [""][1..] == [] && [] + [value] == [value];
    assert Join([value], '\n') == value;
    assert DropCR("") == "";
  }

  // ----- what is written -----

  lemma {:induction false} AllSaidConcat(a: seq<string>, b: seq<string>, name: string)
    ensures AllSaid(a + b, name) == AllSaid(a, name) + AllSaid(b, name)
    decreases |b|
  {
    hide Said;
    if b == [] {
      assert a + b == a;
    } else {
      var ab, n := a + b, |b| - 1;
      assert ab[..|ab| - 1] == a + b[..n] && ab[|ab| - 1] == b[n];
      AllSaidConcat(a, b[..n], name);
    }
  }

  lemma FieldOfWritten(field: string, v: string)
    requires ':' !in field && field != ""
    ensures Field(Line(field, v)) == (field, v) && Line(field, v) != "" && Line(field, v)[0] != ':'
  {
    FieldWithColon(field, " " + v);
    hide Field;
    assert field + ":" + (" " + v) == Line(field, v);
    assert (" " + v)[0] == ' ' && (" " + v)[1..] == v;
    assert field[0] in field && Line(field, v)[0] == field[0];
  }

  lemma LineSays(field: string, v: string, name: string)
    requires ':' !in field && ':' !in name && name != "" && field != ""
    ensures AllSaid([Line(field, v)], name) == if field == name then [v] else []
  {
    FieldOfWritten(field, v);
    FieldIsSaid(Line(field, v), name);
    hide Field, Said, Line;
    AllSaidMore([], Line(field, v), name);
    assert [] + [Line(field, v)] == [Line(field, v)] && AllSaid([], name) == [];
  }

  lemma NothingSaid(name: string)
    ensures AllSaid([], name) == []
  {
  }

  lemma {:induction false} DataLinesSay(parts: seq<string>, name: string)
    requires ':' !in name && name != ""
    ensures AllSaid(DataLines(parts), name) == if name == "data" then parts else []
    decreases |parts|
  {
    hide AllSaid, Line, Said;
    if parts == [] {
      NothingSaid(name);
    } else {
      DataLinesSay(parts[1..], name);
      LineSays("data", parts[0], name);
      AllSaidConcat([Line("data", parts[0])], DataLines(parts[1..]), name);
      assert parts == [parts[0]] + parts[1..];
    }
  }

  lemma OptLineSays(present: bool, field: string, v: string, name: string)
    requires ':' !in field && ':' !in name && name != "" && field != ""
    ensures AllSaid(OptLine(present, Line(field, v)), name) == if present && field == name then [v] else []
  {
    LineSays(field, v, name);
  }

  function WrittenBlock(e: Event): seq<string> {
    OptLine(e.typ != "", Line("event", e.typ)) + OptLine(e.id != "", Line("id", e.id)) + RetryLine(e.retry) + DataLines(Split(e.data, LF))
  }

  /** The text written for an event is a block that names its data, line by line, and of
      the other fields those that are set, each once; a blank line ends it. */
  lemma WrittenIsBlock(e: Event)
    ensures WriteEvent(e) == Unlines(WrittenBlock(e) + [""]) && "" !in WrittenBlock(e)
    ensures AllSaid(WrittenBlock(e), "event") == if e.typ == "" then [] else [e.typ]
    ensures AllSaid(WrittenBlock(e), "id") == if e.id == "" then [] else [e.id]
    ensures AllSaid(WrittenBlock(e), "retry") == if e.retry > 0 then [Decimal(e.retry)] else []
    ensures AllSaid(WrittenBlock(e), "data") == Split(e.data, '\n')
  {
    hide AllSaid, Split, Unlines, OptLine, RetryLine, DataLines, Line;
    NoBlankWritten(e);
    BlockSays(e, "event");
    BlockSays(e, "id");
    BlockSays(e, "retry");
    BlockSays(e, "data");
  }

  lemma NoBlankWritten(e: Event)
    ensures EventLines(e) == WrittenBlock(e) + [""] && "" !in WrittenBlock(e)
  {
    hide Split;
    var parts := Split(e.data, LF);
    assert forall l :: l in DataLines(parts) ==> l != "" by {
      forall l | l in DataLines(parts) ensures l != "" { var i :| 0 <= i < |parts| && DataLines(parts)[i] == l; }
    }
    hide DataLines;
  }

  lemma OnlyOne<T>(x: seq<T>)
    ensures x + [] + [] + [] == x && [] + x + [] + [] == x && [] + [] + x + [] == x && [] + [] + [] + x == x
  {
  }

  lemma BlockSays(e: Event, name: string)
    requires ':' !in name && name != ""
    ensures AllSaid(WrittenBlock(e), name) ==
      if name == "event" then (if e.typ != "" then [e.typ] else [])
      else if name == "id" then (if e.id != "" then [e.id] else [])
      else if name == "retry" then (if e.retry > 0 then [Decimal(e.retry)] else [])
      else if name == "data" then Split(e.data, LF) else []
  {
    hide AllSaid, Split, DataLines, Line;
    var a, b, c, d := OptLine(e.typ != "", Line("event", e.typ)), OptLine(e.id != "", Line("id", e.id)), RetryLine(e.retry), DataLines(Split(e.data, LF));
    OptLineSays(e.typ != "", "event", e.typ, name);
    OptLineSays(e.id != "", "id", e.id, name);
    RetryLineSays(e.retry, name);
    DataLinesSay(Split(e.data, LF), name);
    AllSaidConcat(a + b + c, d, name);
    AllSaidConcat(a + b, c, name);
    AllSaidConcat(a, b, name);
    OnlyOne(AllSaid(a, name));
    OnlyOne(AllSaid(b, name));
    OnlyOne(AllSaid(c, name));
    OnlyOne(AllSaid(d, name));
  }

  lemma RetryLineSays(n: Int64, name: string)
    requires ':' !in name && name != ""
    ensures AllSaid(RetryLine(n), name) == if n > 0 && name == "retry" then [Decimal(n)] else []
  {
    if n > 0 { LineSays("retry", Decimal(n), name); }
  }
}
