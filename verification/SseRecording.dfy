/** The SSE recording reader and the caching transport's completion rule
    (sse.go:318-376, caching_transport.go:532-628): the caller's reads, the close and
    the parser goroutine in any interleaving. */
module SseRecording {
  import opened Options
  import opened Strings
  import opened Sse
  import opened SseRoundTrip

  /** How one upstream read ends. */
  datatype ReadEnd = More | Eof | Fail

  /** The caller's side: a Read that got data stays in the pipe write until the
      parser has taken it all or the pipe is closed. */
  datatype Reader = Idle | Writing(chunk: string, taken: nat, end: ReadEnd)

  datatype Pipe = Open | ClosedEof | ClosedErr

  datatype Parser = Running | Exited(failed: bool) | Finished

  datatype Closer = NotClosed | UpstreamClosed | PipeClosed | Returned

  datatype State = State(
    reader: Reader, pipe: Pipe, parser: Parser, closer: Closer,
    completed: bool,    // upstream EOF was read
    readErr: bool,      // a read ended in an error other than EOF
    read: string,       // what upstream has returned
    consumed: string,   // what the parser has taken from the pipe
    delivered: string,  // what finished Reads have handed to the caller
    lost: string,       // what upstream returned but a closed pipe refused
    doneCalls: nat, stored: Option<seq<Event>>)

  const INIT := State(Idle, Open, Running, NotClosed, false, false, "", "", "", "", 0, None)

  datatype Action =
    | Read(chunk: string, end: ReadEnd)
    | Consume(n: nat)
    | FinishWrite
    | AbortWrite
    | CloseUpstream
    | ClosePipe
    | ParserExit
    | OnDone(saveOk: bool)
    | CloseReturns

  predicate Enabled(s: State, a: Action) {
    match a
    case Read(chunk, _) => s.reader.Idle? && (s.completed ==> chunk == "")
    case Consume(n) => s.reader.Writing? && s.parser.Running? && 0 < n <= |s.reader.chunk| - s.reader.taken
    case FinishWrite => s.reader.Writing? && s.reader.taken == |s.reader.chunk|
    case AbortWrite => s.reader.Writing? && s.reader.taken < |s.reader.chunk| && !s.pipe.Open?
    case CloseUpstream => s.closer.NotClosed?
    case ClosePipe => s.closer.UpstreamClosed?
    // an over-long line ends the parse too, and leaves the pipe open
    case ParserExit => s.parser.Running? && (!s.pipe.Open? || !Parse(s.consumed).ok)
    case OnDone(_) => s.parser.Exited?
    case CloseReturns => s.closer.PipeClosed? && s.parser.Finished?
  }

  function DoRead(s: State, chunk: string, end: ReadEnd): State {
    var s1 := s.(read := s.read + chunk, completed := s.completed || end.Eof?);
    if chunk == "" then s1.(readErr := s.readErr || end.Fail?)
    else if s.pipe.Open? then s1.(reader := Writing(chunk, 0, end))
    else s1.(lost := s.lost + chunk, readErr := true)
  }

  function DoOnDone(s: State, saveOk: bool): State
    requires s.parser.Exited?
  {
    s.(parser := Finished, doneCalls := s.doneCalls + 1,
       stored := if !s.parser.failed && s.completed && saveOk then Some(Parse(s.consumed).events) else s.stored)
  }

  function Step(s: State, a: Action): State
    requires Enabled(s, a)
  {
    match a
    case Read(chunk, end) => DoRead(s, chunk, end)
    case Consume(n) =>
      var r := s.reader;
      s.(consumed := s.consumed + r.chunk[r.taken..r.taken + n], reader := r.(taken := r.taken + n))
    case FinishWrite =>
      s.(reader := Idle, delivered := s.delivered + s.reader.chunk, readErr := s.readErr || s.reader.end.Fail?)
    case AbortWrite =>
      var r := s.reader;
      s.(reader := Idle, delivered := s.delivered + r.chunk[..r.taken], lost := s.lost + r.chunk[r.taken..], readErr := true)
    case CloseUpstream => s.(closer := UpstreamClosed)
    case ClosePipe => s.(closer := PipeClosed, pipe := if s.readErr then ClosedErr else ClosedEof)
    case ParserExit => s.(parser := Exited(s.pipe.ClosedErr? || !Parse(s.consumed).ok))
    case OnDone(saveOk) => DoOnDone(s, saveOk)
    case CloseReturns => s.(closer := Returned)
  }

  predicate Runs(s: State, acts: seq<Action>)
    decreases |acts|
  {
    acts == [] || (Enabled(s, acts[0]) && Runs(Step(s, acts[0]), acts[1..]))
  }

  function After(s: State, acts: seq<Action>): State
    requires Runs(s, acts)
    decreases |acts|
  {
    if acts == [] then s else After(Step(s, acts[0]), acts[1..])
  }

  // ----- the invariant -----

  /** Bytes a Read in progress has still to pass to the parser. */
  function Pending(s: State): string {
    if s.reader.Writing? && s.reader.taken <= |s.reader.chunk| then s.reader.chunk[s.reader.taken..] else ""
  }

  /** Bytes a Read in progress will hand to the caller whatever happens. */
  function Passed(s: State): string {
    if s.reader.Writing? && s.reader.taken <= |s.reader.chunk| then s.reader.chunk[..s.reader.taken] else ""
  }

  /** The bytes add up, with `taken` bytes of `chunk` passed on. */
  predicate Tally(read: string, consumed: string, delivered: string, lost: string, chunk: string, taken: nat) {
    taken <= |chunk| && consumed == delivered + chunk[..taken] && read == consumed + chunk[taken..] + lost
  }

  predicate StreamsOk(s: State) {
    (match s.reader
     case Idle => Tally(s.read, s.consumed, s.delivered, s.lost, "", 0)
     case Writing(chunk, taken, _) => Tally(s.read, s.consumed, s.delivered, s.lost, chunk, taken)) &&
    (s.pipe.Open? ==> s.lost == "") && (s.lost != "" ==> Pending(s) == "")
  }

  predicate ControlOk(s: State) {
    (s.pipe.Open? <==> s.closer.NotClosed? || s.closer.UpstreamClosed?) &&
    s.doneCalls == (if s.parser.Finished? then 1 else 0) &&
    (s.parser.Exited? && !s.parser.failed ==> s.pipe.ClosedEof? && Parse(s.consumed).ok) &&
    (s.closer.Returned? ==> s.parser.Finished?)
  }

  predicate StoredOk(s: State) {
    s.stored.Some? ==>
      s.parser.Finished? && s.completed && s.pipe.ClosedEof? && Parse(s.consumed).ok && s.stored.value == Parse(s.consumed).events
  }

  predicate Inv(s: State) { StreamsOk(s) && ControlOk(s) && StoredOk(s) }

  lemma ReadKeepsStreams(s: State, chunk: string, end: ReadEnd)
    requires StreamsOk(s) && Enabled(s, Read(chunk, end))
    ensures StreamsOk(DoRead(s, chunk, end))
  {
    hide Parse;
    assert Pending(s) == "" && Passed(s) == "";
    assert s.consumed + "" + s.lost + chunk == s.consumed + "" + (s.lost + chunk);
    assert s.consumed + chunk + "" == s.consumed + "" + chunk;
  }

  /** Moving the cut inside a chunk. */
  lemma MoveCut(before: string, chunk: string, i: nat, j: nat)
    requires i <= j <= |chunk|
    ensures before + chunk[..i] + chunk[i..j] == before + chunk[..j]
    ensures (before + chunk[i..j]) + chunk[j..] == before + chunk[i..]
  {
  }

  lemma TallyMoves(read: string, consumed: string, delivered: string, lost: string, chunk: string, i: nat, j: nat)
    requires Tally(read, consumed, delivered, lost, chunk, i) && i <= j <= |chunk|
    ensures Tally(read, consumed + chunk[i..j], delivered, lost, chunk, j)
  {
    MoveCut(delivered, chunk, i, j);
    MoveCut(consumed, chunk, i, j);
  }

  lemma ConsumeKeepsStreams(s: State, n: nat)
    requires StreamsOk(s) && Enabled(s, Consume(n)) && s.lost == ""
    ensures StreamsOk(Step(s, Consume(n)))
  {
    hide Parse, Tally;
    TallyMoves(s.read, s.consumed, s.delivered, s.lost, s.reader.chunk, s.reader.taken, s.reader.taken + n);
  }

  lemma StepKeepsStreams(s: State, a: Action)
    requires StreamsOk(s) && ControlOk(s) && Enabled(s, a)
    ensures StreamsOk(Step(s, a))
  {
    hide Parse;
    match a
    case Read(chunk, end) => ReadKeepsStreams(s, chunk, end);
    case Consume(n) =>
      assert Pending(s) != "";
      ConsumeKeepsStreams(s, n);
    case FinishWrite =>
    case AbortWrite =>
    case _ => assert Step(s, a).read == s.read && Step(s, a).reader == s.reader;
  }

  lemma StepKeepsInv(s: State, a: Action)
    requires Inv(s) && Enabled(s, a)
    ensures Inv(Step(s, a))
  {
    StepKeepsStreams(s, a);
    hide Parse, StreamsOk;
  }

  lemma {:induction false} RunKeepsInv(s: State, acts: seq<Action>)
    requires Inv(s) && Runs(s, acts)
    ensures Inv(After(s, acts))
    decreases |acts|
  {
    if acts != [] {
      hide Inv, Enabled, Step;
      StepKeepsInv(s, acts[0]);
      RunKeepsInv(Step(s, acts[0]), acts[1..]);
    }
  }

  lemma InitIsGood()
    ensures Inv(INIT)
  {
    hide Parse;
  }

  // ----- the statements -----

  /** In every interleaving the caller's bytes and the parser's input are one prefix
      of what upstream returned, and the done callback runs at most once, before
      any Close returns. */
  lemma CallerAndParserSeeOnePrefix(acts: seq<Action>)
    requires Runs(INIT, acts)
    ensures var s := After(INIT, acts);
      s.delivered <= s.consumed <= s.read && (s.reader.Idle? ==> s.delivered == s.consumed) &&
      s.doneCalls <= 1 && (s.closer.Returned? ==> s.doneCalls == 1)
  {
    InitIsGood();
    RunKeepsInv(INIT, acts);
    hide Parse;
  }

  /** A tape is stored only when upstream's EOF was read and the pipe was closed
      without an error, and its events are the parse of what the parser was given. */
  lemma StoredOnlyAfterEof(acts: seq<Action>)
    requires Runs(INIT, acts) && After(INIT, acts).stored.Some?
    ensures var s := After(INIT, acts);
      s.completed && !s.pipe.Open? && Parse(s.consumed) == ParseResult(s.stored.value, true)
  {
    InitIsGood();
    RunKeepsInv(INIT, acts);
    hide Parse;
  }

  /** Nothing is stored, and the parser ends only on an over-long line, as long as
      nobody calls Close: the end of the stream alone does not close the pipe. */
  lemma NothingStoredBeforeClose(acts: seq<Action>)
    requires Runs(INIT, acts) && After(INIT, acts).pipe.Open?
    ensures var s := After(INIT, acts);
      s.stored.None? && (s.parser.Exited? ==> s.parser.failed)
  {
    InitIsGood();
    RunKeepsInv(INIT, acts);
    hide Parse;
  }

  // ----- complete streams -----

  /** Upstream's end was read, the pipe is closed and nothing was left behind. */
  predicate Whole(s: State) {
    s.completed && !s.pipe.Open? && s.lost == "" && Pending(s) == ""
  }

  lemma StepKeepsWhole(s: State, a: Action)
    requires Inv(s) && Enabled(s, a) && Whole(s)
    ensures Whole(Step(s, a))
  {
    hide Parse, StoredOk;
  }

  lemma {:induction false} RunKeepsWhole(s: State, acts: seq<Action>)
    requires Inv(s) && Runs(s, acts) && Whole(s)
    ensures Inv(After(s, acts)) && Whole(After(s, acts))
    decreases |acts|
  {
    if acts != [] {
      hide Inv, Enabled, Step, Whole;
      StepKeepsInv(s, acts[0]);
      StepKeepsWhole(s, acts[0]);
      RunKeepsWhole(Step(s, acts[0]), acts[1..]);
    }
  }

  /** Whatever happens from here, a stored tape covers all that upstream sent. */
  ghost predicate StoresAllOrNothing(s: State) {
    forall acts: seq<Action> :: Runs(s, acts) && After(s, acts).stored.Some? ==> After(s, acts).consumed == After(s, acts).read
  }

  /** Closing the pipe now cannot store a truncated tape: a read error closes it with
      that error, the parser is gone or doomed by an over-long line, or the end of
      the stream was read and no Read in progress still holds bytes for the parser. */
  predicate CloseIsSafe(s: State) {
    s.readErr || !s.parser.Running? || !Parse(s.consumed).ok || (s.completed && Pending(s) == "")
  }

  /** The race at the close, exactly: in every reachable state in which Close is about
      to close the pipe, all continuations store complete tapes if and only if the
      close is safe in that sense. It is not when it overtakes a Read with bytes in
      hand, nor when it comes before the end of the stream was read at all. */
  lemma CloseIsSafeExactly(acts: seq<Action>)
    requires Runs(INIT, acts) && After(INIT, acts).closer.UpstreamClosed?
    ensures var s := After(INIT, acts); StoresAllOrNothing(Step(s, ClosePipe)) <==> CloseIsSafe(s)
  {
    InitIsGood();
    RunKeepsInv(INIT, acts);
    var s := After(INIT, acts);
    hide Runs, After, Parse, StoresAllOrNothing;
    StepKeepsInv(s, ClosePipe);
    if s.readErr || !s.parser.Running? || !Parse(s.consumed).ok {
      DoomedStoresNothing(Step(s, ClosePipe));
    } else if s.completed && Pending(s) == "" {
      WholeStaysWhole(Step(s, ClosePipe));
    } else if s.completed {
      LosesPending(Step(s, ClosePipe));
    } else {
      LosesTheRest(Step(s, ClosePipe));
    }
  }

  lemma WholeStaysWhole(s: State)
    requires Inv(s) && Whole(s)
    ensures StoresAllOrNothing(s)
  {
    hide Parse;
    forall more: seq<Action> | Runs(s, more) ensures After(s, more).consumed == After(s, more).read {
      RunKeepsWhole(s, more);
    }
  }

  // ----- closes after which nothing is stored -----

  /** Nothing is stored, and nothing will be: the parser has failed, is done, or can
      only fail. */
  predicate Doomed(s: State) {
    s.stored.None? && !s.pipe.Open? && (s.parser.Exited? ==> s.parser.failed) &&
    (s.parser.Running? ==> s.pipe.ClosedErr? || !Parse(s.consumed).ok)
  }

  lemma {:induction false} LongPieceStays(x: string, y: string, n: nat)
    requires exists p :: p in Split(x, LF) && |p| >= n
    ensures exists p :: p in Split(x + y, LF) && |p| >= n
    decreases |x|
  {
    var i := IndexByte(x, LF);
    var s := x + y;
    if i < 0 {
      var j := IndexByte(s, LF);
      assert forall k :: 0 <= k < |x| ==> s[k] == x[k];
      assert Split(s, LF)[0] == if j < 0 then s else s[..j];
      assert Split(s, LF)[0] in Split(s, LF);
    } else {
      assert s == x[..i] + [LF] + (x[i + 1..] + y);
      SplitAtFirst(x[..i], LF, x[i + 1..] + y);
      if !exists p :: p in Split(x[i + 1..], LF) && |p| >= n {
        assert x[..i] == Split(s, LF)[0];
      } else {
        LongPieceStays(x[i + 1..], y, n);
        var p :| p in Split(x[i + 1..] + y, LF) && |p| >= n;
        assert p in Split(s, LF);
      }
    }
  }

  lemma OkIffPiecesShort(x: string)
    ensures Parse(x).ok <==> !exists p :: p in Split(x, LF) && |p| >= MAX_LINE
  {
    hide ParseLines, Split;
    ParseOkIffShort(FRESH, RawLines(x));
    var parts := Split(x, LF);
    var last := |parts| - 1;
    assert forall p :: p in parts <==> p == parts[last] || p in parts[..last] by {
      assert parts == parts[..last] + [parts[last]];
    }
  }

  /** A line over the limit stays over the limit, whatever follows. */
  lemma OverlongStaysOverlong(x: string, y: string)
    requires !Parse(x).ok
    ensures !Parse(x + y).ok
  {
    OkIffPiecesShort(x);
    OkIffPiecesShort(x + y);
    hide Parse, Split;
    LongPieceStays(x, y, MAX_LINE);
  }

  lemma StepKeepsDoom(s: State, a: Action)
    requires Enabled(s, a) && Doomed(s) && (s.closer.PipeClosed? || s.closer.Returned?)
    requires forall y :: !Parse(s.consumed).ok ==> !Parse(s.consumed + y).ok
    ensures Doomed(Step(s, a)) && (Step(s, a).closer.PipeClosed? || Step(s, a).closer.Returned?)
  {
    hide Parse;
  }

  lemma {:induction false} RunKeepsDoom(s: State, acts: seq<Action>)
    requires Runs(s, acts) && Doomed(s) && (s.closer.PipeClosed? || s.closer.Returned?)
    ensures Doomed(After(s, acts))
    decreases |acts|
  {
    if acts != [] {
      hide Doomed, Enabled, Step, Parse;
      forall y | !Parse(s.consumed).ok ensures !Parse(s.consumed + y).ok { OverlongStaysOverlong(s.consumed, y); }
      StepKeepsDoom(s, acts[0]);
      RunKeepsDoom(Step(s, acts[0]), acts[1..]);
    }
  }

  lemma DoomedStoresNothing(s: State)
    requires Doomed(s) && s.closer.PipeClosed?
    ensures StoresAllOrNothing(s)
  {
    hide Parse;
    forall more: seq<Action> | Runs(s, more) ensures After(s, more).stored.None? {
      RunKeepsDoom(s, more);
    }
  }

  // ----- closes after which a truncated tape can be stored -----

  lemma RunCons(s: State, a: Action, rest: seq<Action>)
    requires Enabled(s, a) && Runs(Step(s, a), rest)
    ensures Runs(s, [a] + rest) && After(s, [a] + rest) == After(Step(s, a), rest)
  {
    hide Enabled, Step;
    assert ([a] + rest)[1..] == rest;
  }

  lemma LossCarriesBack(s: State, a: Action)
    requires Enabled(s, a) && !StoresAllOrNothing(Step(s, a))
    ensures !StoresAllOrNothing(s)
  {
    hide Enabled, Step;
    var rest: seq<Action> :| Runs(Step(s, a), rest) && After(Step(s, a), rest).stored.Some? &&
      After(Step(s, a), rest).consumed != After(Step(s, a), rest).read;
    RunCons(s, a, rest);
  }

  /** The parser ends cleanly and its result is stored. */
  lemma LosesPending(s: State)
    requires s.pipe.ClosedEof? && s.completed && s.parser.Running? && Parse(s.consumed).ok && s.consumed != s.read
    ensures !StoresAllOrNothing(s)
  {
    hide Parse;
    var s1 := Step(s, ParserExit);
    var s2 := Step(s1, OnDone(true));
    assert Runs(s2, []) && After(s2, []) == s2;
    assert s2.stored.Some? && s2.consumed != s2.read;
    LossCarriesBack(s1, OnDone(true));
    LossCarriesBack(s, ParserExit);
  }

  /** The end of the stream comes after the pipe was closed, with bytes or behind
      bytes that the pipe refuses. */
  lemma LosesTheRest(s: State)
    requires Inv(s) && s.pipe.ClosedEof? && !s.completed && s.parser.Running? && Parse(s.consumed).ok
    ensures !StoresAllOrNothing(s)
  {
    hide Parse;
    match s.reader
    case Idle => LastBytesAreLost(s);
    case Writing(chunk, taken, _) =>
      var a := if taken == |chunk| then FinishWrite else AbortWrite;
      StepKeepsInv(s, a);
      LastBytesAreLost(Step(s, a));
      LossCarriesBack(s, a);
  }

  lemma LastBytesAreLost(s: State)
    requires Inv(s) && s.reader.Idle? && s.pipe.ClosedEof? && !s.completed && s.parser.Running? && Parse(s.consumed).ok
    ensures !StoresAllOrNothing(s)
  {
    hide Parse;
    var s1 := Step(s, Read("x", Eof));
    assert s.read == s.consumed + s.lost;
    assert |s1.read| == |s.consumed| + |s.lost| + 1;
    LosesPending(s1);
    LossCarriesBack(s, Read("x", Eof));
  }

  /** A caller that does not close during a Read, nor reads on after closing. */
  predicate Calm(s: State, a: Action) {
    (a.ClosePipe? ==> s.reader.Idle?) && (a.Read? && a.chunk != "" ==> s.pipe.Open?)
  }

  predicate CalmRun(s: State, acts: seq<Action>)
    requires Runs(s, acts)
    decreases |acts|
  {
    acts == [] || (Calm(s, acts[0]) && CalmRun(Step(s, acts[0]), acts[1..]))
  }

  predicate Lossless(s: State) { s.lost == "" && (!s.pipe.Open? ==> s.reader.Idle?) }

  lemma CalmStepLosesNothing(s: State, a: Action)
    requires Inv(s) && Lossless(s) && Enabled(s, a) && Calm(s, a)
    ensures Lossless(Step(s, a))
  {
    hide Parse, StoredOk, StreamsOk;
  }

  lemma {:induction false} CalmRunLosesNothing(s: State, acts: seq<Action>)
    requires Inv(s) && Lossless(s) && Runs(s, acts) && CalmRun(s, acts)
    ensures Inv(After(s, acts)) && Lossless(After(s, acts))
    decreases |acts|
  {
    if acts != [] {
      hide Inv, Lossless, Enabled, Step, Calm;
      StepKeepsInv(s, acts[0]);
      CalmStepLosesNothing(s, acts[0]);
      CalmRunLosesNothing(Step(s, acts[0]), acts[1..]);
    }
  }

  /** With such a caller a stored tape holds the events of the whole stream, every
      byte of which the caller got. */
  lemma CalmCallersStoreWholeStreams(acts: seq<Action>)
    requires Runs(INIT, acts) && CalmRun(INIT, acts) && After(INIT, acts).stored.Some?
    ensures var s := After(INIT, acts);
      s.completed && s.delivered == s.read && Parse(s.read) == ParseResult(s.stored.value, true)
  {
    InitIsGood();
    CalmRunLosesNothing(INIT, acts);
    StoredOnlyAfterEof(acts);
    var s := After(INIT, acts);
    hide Runs, After, CalmRun, Parse;
    assert s.reader.Idle? && s.lost == "";
    assert Pending(s) == "" && Passed(s) == "";
    assert s.read == s.consumed && s.consumed == s.delivered;
  }

  lemma EmptyParse()
    ensures Parse("") == ParseResult([], true)
  {
    assert RawLines("") == [];
  }

  lemma WritesSomething(e: Event)
    ensures WriteAll([e]) != ""
  {
    hide OptLine, RetryLine, DataLines, Line;
    assert WriteEvent(e) != "" by { assert EventLines(e) != []; }
  }

  /** The five steps of the race. */
  lemma OvertakingClose(w: string)
    requires w != ""
    ensures var acts := [Read(w, Eof), CloseUpstream, ClosePipe, ParserExit, OnDone(true)];
      Runs(INIT, acts) && After(INIT, acts).stored == Some([]) && After(INIT, acts).read == w
  {
    EmptyParse();
    hide Parse;
    var s1 := Step(INIT, Read(w, Eof));
    var s2 := Step(s1, CloseUpstream);
    var s3 := Step(s2, ClosePipe);
    var s4 := Step(s3, ParserExit);
    assert Enabled(INIT, Read(w, Eof)) && Enabled(s1, CloseUpstream) && Enabled(s2, ClosePipe);
    assert Enabled(s3, ParserExit) && Enabled(s4, OnDone(true));
    assert Step(s4, OnDone(true)).stored == Some([]) && Step(s4, OnDone(true)).read == w;
    hide Enabled, Step;
    RunCons(s4, OnDone(true), []);
    RunCons(s3, ParserExit, [OnDone(true)] + []);
    RunCons(s2, ClosePipe, [ParserExit] + ([OnDone(true)] + []));
    RunCons(s1, CloseUpstream, [ClosePipe] + ([ParserExit] + ([OnDone(true)] + [])));
    RunCons(INIT, Read(w, Eof), [CloseUpstream] + ([ClosePipe] + ([ParserExit] + ([OnDone(true)] + []))));
    assert [Read(w, Eof)] + ([CloseUpstream] + ([ClosePipe] + ([ParserExit] + ([OnDone(true)] + []))))
        == [Read(w, Eof), CloseUpstream, ClosePipe, ParserExit, OnDone(true)];
  }

  /** A Close that overtakes the Read carrying a stream's only event and its end: an
      empty tape is stored for a stream that holds an event. */
  lemma OvertakingCloseStoresTruncatedTape(e: Event)
    ensures var acts := [Read(WriteAll([e]), Eof), CloseUpstream, ClosePipe, ParserExit, OnDone(true)];
      Runs(INIT, acts) && After(INIT, acts).stored == Some([]) &&
      (Faithful(e) ==> Parse(After(INIT, acts).read).events == [e])
  {
    RoundTripIffFaithful([e]);
    WritesSomething(e);
    hide *;
    OvertakingClose(WriteAll([e]));
  }

  // ----- progress -----

  /** Once the pipe is closed, Close can always return within three steps. */
  lemma CloseCanReturn(acts: seq<Action>) returns (more: seq<Action>)
    requires Runs(INIT, acts) && After(INIT, acts).closer.PipeClosed?
    ensures Runs(After(INIT, acts), more) && After(After(INIT, acts), more).closer.Returned?
    ensures After(After(INIT, acts), more).doneCalls == 1 && |more| <= 3
  {
    InitIsGood();
    RunKeepsInv(INIT, acts);
    var s := After(INIT, acts);
    hide Parse;
    hide StreamsOk, StoredOk;
    if s.parser.Running? {
      var s1 := Step(s, ParserExit);
      FinishClose(s1);
      RunCons(s, ParserExit, [OnDone(false), CloseReturns]);
      more := [ParserExit] + [OnDone(false), CloseReturns];
    } else if s.parser.Exited? {
      FinishClose(s);
      more := [OnDone(false), CloseReturns];
    } else {
      RunCons(s, CloseReturns, []);
      more := [CloseReturns] + [];
    }
  }

  lemma FinishClose(s: State)
    requires s.parser.Exited? && s.closer.PipeClosed? && s.doneCalls == 0
    ensures Runs(s, [OnDone(false), CloseReturns])
    ensures var s' := After(s, [OnDone(false), CloseReturns]); s'.closer.Returned? && s'.doneCalls == 1
  {
    hide Parse;
    var s1 := Step(s, OnDone(false));
    RunCons(s1, CloseReturns, []);
    RunCons(s, OnDone(false), [CloseReturns]);
    assert [CloseReturns] + [] == [CloseReturns] && [OnDone(false)] + [CloseReturns] == [OnDone(false), CloseReturns];
  }

  /** With the parser gone and the pipe open, a Read with bytes in hand stays blocked
      until somebody closes. */
  lemma {:induction false} BlockedReadStays(s: State, acts: seq<Action>)
    requires Runs(s, acts) && !s.parser.Running? && s.pipe.Open? && Pending(s) != ""
    requires forall i :: 0 <= i < |acts| ==> !acts[i].ClosePipe?
    ensures After(s, acts).reader == s.reader
    decreases |acts|
  {
    if acts != [] {
      hide Parse;
      assert !acts[0].ClosePipe?;
      BlockedReadStays(Step(s, acts[0]), acts[1..]);
    }
  }

  lemma OverlongLineFails(line: string)
    requires LF !in line && |line| >= MAX_LINE
    ensures !Parse(line).ok
  {
    OkIffPiecesShort(line);
    hide Parse;
    assert Split(line, LF) == [line];
    assert line in Split(line, LF);
  }

  /** How a Read gets there: it brings an over-long line and more. */
  function Overrun(line: string, rest: string): seq<Action> {
    [Read(line + rest, More), Consume(|line|), ParserExit, OnDone(true)]
  }

  /** The reader and the parser's input after the first two steps. */
  function Overrunning(line: string, rest: string): State {
    INIT.(read := line + rest, consumed := line, reader := Writing(line + rest, |line|, More))
  }

  lemma OverrunBegins(line: string, rest: string)
    requires line != ""
    ensures var s1 := Step(INIT, Read(line + rest, More));
      Enabled(INIT, Read(line + rest, More)) && Enabled(s1, Consume(|line|)) && Step(s1, Consume(|line|)) == Overrunning(line, rest)
  {
    hide Parse;
    assert (line + rest)[0..|line|] == line && "" + line == line && "" + (line + rest) == line + rest;
  }

  lemma OverrunEnds(s: State)
    requires s.parser.Running? && s.stored.None? && !Parse(s.consumed).ok
    ensures Runs(s, [ParserExit] + ([OnDone(true)] + []))
    ensures After(s, [ParserExit] + ([OnDone(true)] + [])) == s.(parser := Finished, doneCalls := s.doneCalls + 1)
  {
    hide Parse;
    RunCons(Step(s, ParserExit), OnDone(true), []);
    RunCons(s, ParserExit, [OnDone(true)] + []);
  }

  lemma OverrunReached(line: string, rest: string)
    requires !Parse(line).ok && rest != ""
    ensures Runs(INIT, Overrun(line, rest))
    ensures After(INIT, Overrun(line, rest)) == Overrunning(line, rest).(parser := Finished, doneCalls := 1)
  {
    EmptyParse();
    hide Parse, Step, Runs, After, Enabled;
    OverrunBegins(line, rest);
    OverrunEnds(Overrunning(line, rest));
    var s1 := Step(INIT, Read(line + rest, More));
    RunCons(s1, Consume(|line|), [ParserExit] + ([OnDone(true)] + []));
    RunCons(INIT, Read(line + rest, More), [Consume(|line|)] + ([ParserExit] + ([OnDone(true)] + [])));
    assert [Read(line + rest, More)] + ([Consume(|line|)] + ([ParserExit] + ([OnDone(true)] + []))) == Overrun(line, rest);
  }

  /** After any over-long line the parser is gone while the pipe is open: the Read that
      brought it, with bytes behind it in hand, never returns in any continuation in
      which nobody closes the pipe. */
  lemma OverlongLineBlocksRead(line: string, rest: string, more: seq<Action>)
    requires LF !in line && |line| >= MAX_LINE && rest != ""
    requires Runs(INIT, Overrun(line, rest)) ==> Runs(After(INIT, Overrun(line, rest)), more)
    requires forall i :: 0 <= i < |more| ==> !more[i].ClosePipe?
    ensures Runs(INIT, Overrun(line, rest)) && Runs(After(INIT, Overrun(line, rest)), more)
    ensures After(After(INIT, Overrun(line, rest)), more).reader == Writing(line + rest, |line|, More)
  {
    OverlongLineFails(line);
    hide Parse;
    OverrunReached(line, rest);
    var s := After(INIT, Overrun(line, rest));
    hide Runs, After, Overrun;
    assert Pending(s) == rest;
    BlockedReadStays(s, more);
  }

  // ----- exactly which streams can block a Read -----

  /** A Read is in progress and never returns in any continuation in which nobody
      closes the pipe. */
  ghost predicate Stuck(s: State) {
    s.reader.Writing? &&
    forall more: seq<Action> :: Runs(s, more) && (forall i :: 0 <= i < |more| ==> !more[i].ClosePipe?) ==> After(s, more).reader == s.reader
  }

  lemma NotStuckAfter(s: State, a: Action)
    requires Enabled(s, a) && !a.ClosePipe? && Step(s, a).reader != s.reader
    ensures !Stuck(s)
  {
    assert [a][1..] == [];
    assert Runs(s, [a]) && After(s, [a]) == Step(s, a);
  }

  /** That is so exactly when the parser is gone, the pipe open and bytes are left. */
  lemma StuckIff(s: State)
    requires StreamsOk(s)
    ensures Stuck(s) <==> !s.parser.Running? && s.pipe.Open? && Pending(s) != ""
  {
    hide Parse;
    if !s.parser.Running? && s.pipe.Open? && Pending(s) != "" {
      forall more: seq<Action> | Runs(s, more) && forall i :: 0 <= i < |more| ==> !more[i].ClosePipe?
        ensures After(s, more).reader == s.reader
      {
        BlockedReadStays(s, more);
      }
    } else if s.reader.Writing? {
      if Pending(s) == "" {
        NotStuckAfter(s, FinishWrite);
      } else if s.parser.Running? {
        NotStuckAfter(s, Consume(1));
      } else {
        NotStuckAfter(s, AbortWrite);
      }
    }
  }

  /** A parser that ends before the pipe is closed has met an over-long line. */
  predicate EndedEarly(s: State) { !s.parser.Running? && s.pipe.Open? ==> !Parse(s.consumed).ok }

  lemma StepKeepsEndedEarly(s: State, a: Action)
    requires EndedEarly(s) && Enabled(s, a)
    ensures EndedEarly(Step(s, a))
  {
    hide Parse;
  }

  lemma {:induction false} RunKeepsEndedEarly(s: State, acts: seq<Action>)
    requires EndedEarly(s) && Runs(s, acts)
    ensures EndedEarly(After(s, acts))
    decreases |acts|
  {
    if acts != [] {
      hide EndedEarly, Enabled, Step;
      StepKeepsEndedEarly(s, acts[0]);
      RunKeepsEndedEarly(Step(s, acts[0]), acts[1..]);
    }
  }

  /** Some run in which upstream has sent these bytes leaves a Read stuck. */
  ghost predicate CanBlock(w: string) {
    exists acts: seq<Action> :: Runs(INIT, acts) && After(INIT, acts).read == w && Stuck(After(INIT, acts))
  }

  /** A stream can block a Read until somebody closes if and only if a line over the
      scanner's limit, finished or not, lies in it with at least one byte behind. */
  lemma CanBlockIffOverlong(w: string)
    ensures CanBlock(w) <==> exists i :: 0 <= i < |w| && !Parse(w[..i]).ok
  {
    if CanBlock(w) {
      var acts: seq<Action> :| Runs(INIT, acts) && After(INIT, acts).read == w && Stuck(After(INIT, acts));
      BlockedStreamIsOverlong(acts);
    }
    if i :| 0 <= i < |w| && !Parse(w[..i]).ok {
      OverlongStreamBlocks(w, i);
    }
  }

  lemma BlockedStreamIsOverlong(acts: seq<Action>)
    requires Runs(INIT, acts) && Stuck(After(INIT, acts))
    ensures var w := After(INIT, acts).read; exists i :: 0 <= i < |w| && !Parse(w[..i]).ok
  {
    InitIsGood();
    RunKeepsInv(INIT, acts);
    RunKeepsEndedEarly(INIT, acts);
    var s := After(INIT, acts);
    hide Runs, After, Parse, Stuck;
    StuckIff(s);
    var i := |s.consumed|;
    assert s.read == s.consumed + Pending(s) + s.lost;
    assert i < |s.read| && s.read[..i] == s.consumed;
  }

  lemma OverlongStreamBlocks(w: string, i: nat)
    requires i < |w| && !Parse(w[..i]).ok
    ensures CanBlock(w)
  {
    var acts := Overrun(w[..i], w[i..]);
    assert w[..i] + w[i..] == w;
    hide Parse, Overrun, Runs, After, Stuck;
    OverrunReached(w[..i], w[i..]);
    var s := After(INIT, acts);
    assert s.reader == Writing(w, i, More) && Pending(s) == w[i..];
    StuckWithRest(s, w, i);
  }

  lemma StuckWithRest(s: State, w: string, i: nat)
    requires i < |w| && s == Overrunning(w[..i], w[i..]).(parser := Finished, doneCalls := 1) && w[..i] + w[i..] == w
    ensures Stuck(s)
  {
    hide Parse, Stuck;
    assert Tally(s.read, s.consumed, s.delivered, s.lost, w, i) by { assert "" + w[..i] == w[..i] && w[..i] + w[i..] + "" == w; }
    StuckIff(s);
  }
}
