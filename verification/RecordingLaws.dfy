/** When a recorded stream is stored and when it is not, told from what the reads brought
    (caching_transport.go:559-591, sse.go:322-376). */
module RecordingLaws {
  import opened Options
  import opened Sse
  import opened SseRecording

  // ----- what was read -----

  /** The bytes upstream returned, read by read. */
  function Chunks(acts: seq<Action>): string {
    if acts == [] then ""
    else Chunks(acts[..|acts| - 1]) + if acts[|acts| - 1].Read? then acts[|acts| - 1].chunk else ""
  }

  predicate SawEof(acts: seq<Action>) { exists a :: a in acts && a.Read? && a.end == Eof }

  lemma StepReads(s: State, a: Action)
    requires Enabled(s, a)
    ensures var s' := Step(s, a);
      s'.read == s.read + (if a.Read? then a.chunk else "") && (s'.completed <==> s.completed || (a.Read? && a.end == Eof))
  {
    hide Parse;
  }

  lemma {:induction false} LastAction(s: State, acts: seq<Action>, a: Action)
    requires Runs(s, acts + [a])
    ensures Runs(s, acts) && Enabled(After(s, acts), a) && After(s, acts + [a]) == Step(After(s, acts), a)
    decreases |acts|
  {
    hide Enabled, Step;
    var more := acts + [a];
    if acts == [] {
      assert more[0] == a && more[1..] == [];
    } else {
      assert more[0] == acts[0] && more[1..] == acts[1..] + [a];
      LastAction(Step(s, acts[0]), acts[1..], a);
    }
  }

  /** The machine keeps account of what the reads brought: all their bytes, and whether one
      of them met the end of the stream. */
  lemma {:induction false} ReadIsWhatCame(acts: seq<Action>)
    requires Runs(INIT, acts)
    ensures After(INIT, acts).read == Chunks(acts) && (After(INIT, acts).completed <==> SawEof(acts))
    decreases |acts|
  {
    if acts != [] {
      var n := |acts| - 1;
      assert acts == acts[..n] + [acts[n]];
      hide Runs, After, Enabled, Step;
      LastAction(INIT, acts[..n], acts[n]);
      ReadIsWhatCame(acts[..n]);
      StepReads(After(INIT, acts[..n]), acts[n]);
      assert forall a :: a in acts <==> a in acts[..n] || a == acts[n];
    }
  }

  // ----- a failed read -----

  /** A failure that has been seen, or will be when the present write is over. */
  predicate Failing(s: State) { s.readErr || (s.reader.Writing? && s.reader.end == Fail) }

  lemma FailingStays(s: State, a: Action)
    requires Failing(s) && Enabled(s, a)
    ensures Failing(Step(s, a))
  {
    hide Parse;
  }

  lemma {:induction false} RunKeepsFailing(s: State, acts: seq<Action>)
    requires Failing(s) && Runs(s, acts)
    ensures Failing(After(s, acts))
    decreases |acts|
  {
    if acts != [] {
      FailingStays(s, acts[0]);
      hide Failing, Enabled, Step;
      RunKeepsFailing(Step(s, acts[0]), acts[1..]);
    }
  }

  /** The pipe will be closed, or has been, with an error. */
  predicate Spoiled(s: State) {
    s.stored.None? && (if s.pipe.Open? then s.readErr else s.pipe.ClosedErr?) &&
    (s.parser.Exited? ==> s.parser.failed) && (s.closer.NotClosed? || s.closer.UpstreamClosed? ==> s.pipe.Open?)
  }

  lemma SpoiledStays(s: State, a: Action)
    requires Spoiled(s) && Enabled(s, a)
    ensures Spoiled(Step(s, a))
  {
    hide Parse;
  }

  lemma {:induction false} RunKeepsSpoiled(s: State, acts: seq<Action>)
    requires Spoiled(s) && Runs(s, acts)
    ensures Spoiled(After(s, acts))
    decreases |acts|
  {
    if acts != [] {
      SpoiledStays(s, acts[0]);
      hide Spoiled, Enabled, Step;
      RunKeepsSpoiled(Step(s, acts[0]), acts[1..]);
    }
  }

  /** After a read that failed nothing is ever stored, if its write was over when the pipe
      was still open. */
  lemma FailedReadStoresNothing(acts: seq<Action>, chunk: string, more: seq<Action>, rest: seq<Action>)
    requires Runs(INIT, acts) && Enabled(After(INIT, acts), Read(chunk, Fail))
    requires Runs(Step(After(INIT, acts), Read(chunk, Fail)), more)
    requires var s := After(Step(After(INIT, acts), Read(chunk, Fail)), more); s.reader.Idle? && s.pipe.Open? && Runs(s, rest)
    ensures After(After(Step(After(INIT, acts), Read(chunk, Fail)), more), rest).stored == None
  {
    var s0 := After(INIT, acts);
    var s1 := Step(s0, Read(chunk, Fail));
    var s2 := After(s1, more);
    InitIsGood();
    RunKeepsInv(INIT, acts);
    StepKeepsInv(s0, Read(chunk, Fail));
    RunKeepsInv(s1, more);
    assert Failing(s1);
    RunKeepsFailing(s1, more);
    assert Spoiled(s2) by { hide Parse; }
    RunKeepsSpoiled(s2, rest);
  }

  /** A write whose bytes the parser has taken succeeds; one with bytes left goes on while
      the pipe is open and is broken off once it is closed. */
  lemma HowWritesEnd(s: State)
    requires s.reader.Writing? && s.reader.taken <= |s.reader.chunk|
    ensures Enabled(s, FinishWrite) <==> Pending(s) == ""
    ensures Enabled(s, AbortWrite) <==> Pending(s) != "" && !s.pipe.Open?
    ensures forall n: nat :: Enabled(s, Consume(n)) <==> s.parser.Running? && 1 <= n <= |Pending(s)|
  {
  }

  // ----- a stream read to its end -----

  /** The pipe was closed, without an error, behind a stream that was read to its end and
      whose lines are short enough. */
  predicate Closing(s: State, w: string) {
    s.completed && s.reader.Idle? && s.consumed == w && Parse(w).ok && s.pipe.ClosedEof? &&
    (s.parser.Exited? ==> !s.parser.failed) && (s.closer.PipeClosed? || s.closer.Returned?)
  }

  lemma ClosingStays(s: State, a: Action, w: string)
    requires Closing(s, w) && Enabled(s, a)
    ensures Closing(Step(s, a), w)
    ensures Step(s, a).stored == if a == OnDone(true) then Some(Parse(w).events) else s.stored
  {
    hide Parse;
  }

  lemma {:induction false} ClosingStores(s: State, more: seq<Action>, w: string)
    requires Closing(s, w) && Runs(s, more)
    ensures Closing(After(s, more), w)
    ensures After(s, more).stored == if OnDone(true) in more then Some(Parse(w).events) else s.stored
    decreases |more|
  {
    if more != [] {
      ClosingStays(s, more[0], w);
      hide Closing, Enabled, Step, Parse;
      ClosingStores(Step(s, more[0]), more[1..], w);
      assert OnDone(true) in more <==> more[0] == OnDone(true) || OnDone(true) in more[1..];
    }
  }

  /** A stream that was read to its end, without a failed read, and passed on before the
      pipe is closed, with no line over the limit, is stored as soon as the callback runs
      and saving works: its whole parse, and otherwise nothing. */
  lemma FinishedStreamIsStored(acts: seq<Action>, more: seq<Action>)
    requires Runs(INIT, acts)
    requires var s := After(INIT, acts);
      s.closer.UpstreamClosed? && s.reader.Idle? && SawEof(acts) && !s.readErr && Parse(Chunks(acts)).ok && Runs(Step(s, ClosePipe), more)
    ensures var s' := After(Step(After(INIT, acts), ClosePipe), more);
      s'.stored == (if OnDone(true) in more then Some(Parse(Chunks(acts)).events) else None) &&
      (s'.closer.Returned? ==> OnDone(true) in more || OnDone(false) in more)
  {
    var s := After(INIT, acts);
    ReadIsWhatCame(acts);
    InitIsGood();
    RunKeepsInv(INIT, acts);
    RunKeepsEndedEarly(INIT, acts);
    assert s.consumed == Chunks(acts) && s.stored == None by {
      hide Parse, Runs, After;
      assert s.consumed + "" + "" == s.consumed;
    }
    assert Closing(Step(s, ClosePipe), Chunks(acts)) by { hide Parse, Runs, After; }
    ClosingStores(Step(s, ClosePipe), more, Chunks(acts));
    if After(Step(s, ClosePipe), more).closer.Returned? { ReturnsAfterDone(Step(s, ClosePipe), more); }
  }

  lemma {:induction false} ReturnsAfterDone(s: State, more: seq<Action>)
    requires Runs(s, more) && (s.closer.Returned? ==> s.parser.Finished?) && After(s, more).closer.Returned?
    ensures s.parser.Finished? || OnDone(true) in more || OnDone(false) in more
    decreases |more|
  {
    if more != [] {
      hide Parse;
      ReturnsAfterDone(Step(s, more[0]), more[1..]);
      assert forall a :: a in more[1..] ==> a in more;
      assert more[0] in more;
    }
  }
}
