/** What the caching transport saves, told from the actions of a run alone. */
module SavedTapes {
  import opened Options
  import opened Tapes
  import opened CachingTransport
  import opened AnswersGiven

  /** A body over the limit, where there is one. */
  predicate Large(cfg: Config, req: Request) { cfg.maxBodySize > 0 && |req.body| > cfg.maxBodySize }

  // ----- what is saved -----

  /** The recording of an exchange, field by field. */
  function Recording(cfg: Config, id: string, req: Request, resp: Response): Tape {
    Tape(id := id, route := cfg.route, verb := req.verb, path := req.path, reqBody := req.body,
         bodyHash := cfg.hash(req.body), response := resp, exemplar := false, urlPattern := "")
  }

  /** A saved tape is the sanitizer's output on the recording of an answer upstream gave:
      of a stream that was read to its end, or of a body that was, passed by the filter. */
  ghost predicate SavedOf(cfg: Config, acts: seq<Action>, s: State, tape: Tape, u: nat, id: string, resp: Response, whole: bool) {
    CallUpstream(u, Reply(resp, whole)) in acts && u in s.threads && !Large(cfg, s.threads[u].req) &&
    tape == cfg.sanitize(Recording(cfg, id, s.threads[u].req, resp)) &&
    if cfg.sseRecording && resp.sse then exists k: nat :: StreamCompletes(k, id) in acts
    else Record(u, id, true) in acts && whole && cfg.cacheFilter(resp)
  }

  ghost predicate Saved(cfg: Config, acts: seq<Action>, s: State, tape: Tape) {
    exists u: nat, id: string, resp: Response, whole: bool :: SavedOf(cfg, acts, s, tape, u, id, resp, whole)
  }

  /** A stream on its way to the store. */
  ghost predicate StreamOf(cfg: Config, acts: seq<Action>, s: State, tape: Tape) {
    cfg.sseRecording && exists u: nat, resp: Response, whole: bool ::
      CallUpstream(u, Reply(resp, whole)) in acts && u in s.threads && !Large(cfg, s.threads[u].req) && resp.sse &&
      tape == Recording(cfg, "", s.threads[u].req, resp)
  }

  function Saves(acts: seq<Action>): nat {
    if acts == [] then 0
    else
      var a := acts[|acts| - 1];
      Saves(acts[..|acts| - 1]) + if (a.Record? && a.saveOk) || a.StreamCompletes? then 1 else 0
  }

  // ----- the invariant -----

  ghost predicate PcOk(cfg: Config, acts: seq<Action>, t: nat, th: Thread) {
    match th.pc
    case Start => true
    case Recording(_, resp) =>
      !Large(cfg, th.req) && CallUpstream(t, Reply(resp, true)) in acts && cfg.cacheFilter(resp) && !(cfg.sseRecording && resp.sse)
    case Publishing(_, _, how) => !Large(cfg, th.req) && !how.Bypassed?
    case Signalling(_, _, how) => !Large(cfg, th.req) && !how.Bypassed?
    case Removing(_, _, how) => !Large(cfg, th.req) && !how.Bypassed?
    case Done(_, how) => how.Bypassed? <==> Large(cfg, th.req)
    case _ => !Large(cfg, th.req)
  }

  ghost predicate Inv(cfg: Config, acts: seq<Action>, s: State) {
    (forall t :: t in s.threads ==> PcOk(cfg, acts, t, s.threads[t])) &&
    (forall tape :: tape in s.store ==> Saved(cfg, acts, s, tape)) &&
    (forall tape :: tape in s.streams ==> StreamOf(cfg, acts, s, tape)) &&
    |s.store| == Saves(acts)
  }

  lemma SavedStays(cfg: Config, acts: seq<Action>, a: Action, s: State, s': State, tape: Tape)
    requires Saved(cfg, acts, s, tape) && Keeps(s, s')
    ensures Saved(cfg, acts + [a], s', tape)
  {
    hide Recording;
    var u: nat, id: string, resp: Response, whole: bool :| SavedOf(cfg, acts, s, tape, u, id, resp, whole);
    assert forall b :: b in acts ==> b in acts + [a];
    assert SavedOf(cfg, acts + [a], s', tape, u, id, resp, whole);
  }

  lemma StreamStays(cfg: Config, acts: seq<Action>, a: Action, s: State, s': State, tape: Tape)
    requires StreamOf(cfg, acts, s, tape) && Keeps(s, s')
    ensures StreamOf(cfg, acts + [a], s', tape)
  {
    hide Recording;
    assert forall b :: b in acts ==> b in acts + [a];
  }

  lemma MoverIsOk(cfg: Config, acts: seq<Action>, s: State, a: Action)
    requires Inv(cfg, acts, s) && Enabled(cfg, s, a) && !a.StreamCompletes?
    ensures var s' := Step(cfg, s, a); a.t in s'.threads && PcOk(cfg, acts + [a], a.t, s'.threads[a.t])
  {
    if !a.Arrive? { assert PcOk(cfg, acts, a.t, s.threads[a.t]); }
    hide Inv;
    if a.CallUpstream? || a.Record? || a.Bypass? || a.Lookup? || a.Arrive? {
      AskingMoverIsOk(cfg, acts, s, a);
    } else {
      hide KeyOf, RawTape, QueryOk, StaleOutcome;
    }
  }

  lemma AskingMoverIsOk(cfg: Config, acts: seq<Action>, s: State, a: Action)
    requires Enabled(cfg, s, a) && (a.CallUpstream? || a.Record? || a.Bypass? || a.Lookup? || a.Arrive?)
    requires !a.Arrive? ==> PcOk(cfg, acts, a.t, s.threads[a.t])
    ensures var s' := Step(cfg, s, a); a.t in s'.threads && PcOk(cfg, acts + [a], a.t, s'.threads[a.t])
  {
    if a.CallUpstream? {
      UpstreamMoverIsOk(cfg, acts, s, a.t, a.reply);
    } else {
      hide KeyOf, RawTape, QueryOk, Logged;
      assert forall b :: b in acts ==> b in acts + [a];
    }
  }

  lemma UpstreamMoverIsOk(cfg: Config, acts: seq<Action>, s: State, t: nat, reply: Reply)
    requires Enabled(cfg, s, CallUpstream(t, reply)) && PcOk(cfg, acts, t, s.threads[t])
    ensures var s' := Step(cfg, s, CallUpstream(t, reply));
      t in s'.threads && PcOk(cfg, acts + [CallUpstream(t, reply)], t, s'.threads[t])
  {
    assert CallUpstream(t, reply) in acts + [CallUpstream(t, reply)];
    hide KeyOf, RawTape, Counted, Logged;
  }

  /** What an action adds to the store and to the streams. */
  lemma StoreGrowsBy(cfg: Config, s: State, a: Action)
    requires Enabled(cfg, s, a)
    ensures var s' := Step(cfg, s, a);
      s'.store == s.store +
        (match a
         case Record(t, id, true) => [cfg.sanitize(Recording(cfg, id, s.threads[t].req, s.threads[t].pc.resp))]
         case StreamCompletes(i, id) => [cfg.sanitize(s.streams[i].(id := id))]
         case _ => [])
  {
    hide KeyOf, QueryOk, StaleOutcome, NextPc, Finish, Oversize;
  }

  lemma StreamsGrowBy(cfg: Config, s: State, a: Action)
    requires Enabled(cfg, s, a)
    ensures var s' := Step(cfg, s, a);
      s'.streams == s.streams +
        (if a.CallUpstream? && a.reply.Reply? && a.reply.resp.sse && cfg.sseRecording
         then [Recording(cfg, "", s.threads[a.t].req, a.reply.resp)] else [])
  {
    hide KeyOf, QueryOk, StaleOutcome, NextPc, Finish, Oversize;
  }

  lemma StoreStaysOk(cfg: Config, acts: seq<Action>, s: State, a: Action, tape: Tape)
    requires Inv(cfg, acts, s) && Enabled(cfg, s, a) && tape in Step(cfg, s, a).store
    ensures Saved(cfg, acts + [a], Step(cfg, s, a), tape)
  {
    var s', more := Step(cfg, s, a), acts + [a];
    StepKeeps(cfg, s, a);
    StoreGrowsBy(cfg, s, a);
    hide Step, KeyOf;
    assert a in more && forall b :: b in acts ==> b in more;
    if tape in s.store {
      SavedStays(cfg, acts, a, s, s', tape);
    } else if a.Record? {
      assert PcOk(cfg, acts, a.t, s.threads[a.t]);
      assert SavedOf(cfg, more, s', tape, a.t, a.id, s.threads[a.t].pc.resp, true);
    } else {
      var stream := s.streams[a.i];
      assert StreamOf(cfg, acts, s, stream);
      var u: nat, resp: Response, whole: bool :|
        CallUpstream(u, Reply(resp, whole)) in acts && u in s.threads && !Large(cfg, s.threads[u].req) && resp.sse &&
        stream == Recording(cfg, "", s.threads[u].req, resp);
      assert SavedOf(cfg, more, s', tape, u, a.id, resp, whole);
    }
  }

  lemma StreamsStayOk(cfg: Config, acts: seq<Action>, s: State, a: Action, tape: Tape)
    requires Inv(cfg, acts, s) && Enabled(cfg, s, a) && tape in Step(cfg, s, a).streams
    ensures StreamOf(cfg, acts + [a], Step(cfg, s, a), tape)
  {
    var s', more := Step(cfg, s, a), acts + [a];
    StepKeeps(cfg, s, a);
    StreamsGrowBy(cfg, s, a);
    if tape in s.streams {
      hide Step, StreamOf;
      StreamStays(cfg, acts, a, s, s', tape);
    } else {
      assert PcOk(cfg, acts, a.t, s.threads[a.t]);
      hide Step;
      assert a in more;
    }
  }

  lemma StepKeepsInv(cfg: Config, acts: seq<Action>, s: State, a: Action)
    requires Inv(cfg, acts, s) && Enabled(cfg, s, a)
    ensures Inv(cfg, acts + [a], Step(cfg, s, a))
  {
    var s', more := Step(cfg, s, a), acts + [a];
    StoreGrowsBy(cfg, s, a);
    MovesOne(cfg, s, a);
    if !a.StreamCompletes? { MoverIsOk(cfg, acts, s, a); }
    forall tape | tape in s'.store ensures Saved(cfg, more, s', tape) { StoreStaysOk(cfg, acts, s, a, tape); }
    forall tape | tape in s'.streams ensures StreamOf(cfg, more, s', tape) { StreamsStayOk(cfg, acts, s, a, tape); }
    hide Step, Enabled, Saved, StreamOf;
    assert forall b :: b in acts ==> b in more;
    forall t | t in s'.threads ensures PcOk(cfg, more, t, s'.threads[t]) {
      if a.StreamCompletes? || t != a.t { assert PcOk(cfg, acts, t, s.threads[t]); }
    }
    assert more[..|more| - 1] == acts;
  }

  lemma NothingSaved(cfg: Config)
    ensures Inv(cfg, [], INIT)
  {
  }

  lemma {:induction false} RunKeepsInv(cfg: Config, acts: seq<Action>)
    requires Runs(cfg, INIT, acts)
    ensures Inv(cfg, acts, After(cfg, INIT, acts))
    decreases |acts|
  {
    NothingSaved(cfg);
    if acts != [] {
      hide Runs, After, Inv, Enabled, Step;
      var n := |acts| - 1;
      assert acts == acts[..n] + [acts[n]];
      LastAction(cfg, INIT, acts[..n], acts[n]);
      RunKeepsInv(cfg, acts[..n]);
      StepKeepsInv(cfg, acts[..n], After(cfg, INIT, acts[..n]), acts[n]);
    }
  }

  // ----- nothing is left out -----

  ghost predicate Tried(acts: seq<Action>, t: nat) { exists id: string, ok: bool :: Record(t, id, ok) in acts }

  /** An answer that is to be recorded, once it is there. */
  predicate ToRecord(cfg: Config, resp: Response) { cfg.cacheFilter(resp) && !(cfg.sseRecording && resp.sse) }

  /** Before the call upstream, recording its answer, behind that. */
  datatype Stage = Before | Within | Behind

  function StageOf(pc: Pc): Stage {
    match pc
    case Recording(_, _) => Within
    case Start => Before
    case Enter => Before
    case Waiting(_) => Before
    case WaiterStale(_) => Before
    case Requery => Before
    case AtUpstream(_) => Before
    case _ => Behind
  }

  /** What a thread has done about the answer upstream gave it. */
  ghost predicate TriedSoFar(cfg: Config, acts: seq<Action>, t: nat, pc: Pc) {
    match StageOf(pc)
    case Before => NotAsked(acts, t)
    case Within => true
    case Behind => forall resp :: CallUpstream(t, Reply(resp, true)) in acts && ToRecord(cfg, resp) ==> Tried(acts, t)
  }

  ghost predicate NotAsked(acts: seq<Action>, t: nat) { forall reply: Reply :: CallUpstream(t, reply) !in acts }

  ghost predicate StreamsKept(cfg: Config, acts: seq<Action>, s: State, t: nat) {
    t in s.threads && forall resp, whole :: CallUpstream(t, Reply(resp, whole)) in acts && cfg.sseRecording && resp.sse ==>
      Recording(cfg, "", s.threads[t].req, resp) in s.streams
  }

  ghost predicate Complete(cfg: Config, acts: seq<Action>, s: State) {
    (forall t :: t in s.threads ==> TriedSoFar(cfg, acts, t, s.threads[t].pc) && StreamsKept(cfg, acts, s, t)) &&
    forall a :: a in acts && !a.StreamCompletes? ==> a.t in s.threads
  }

  lemma OtherTriedStays(cfg: Config, acts: seq<Action>, a: Action, t: nat, pc: Pc)
    requires TriedSoFar(cfg, acts, t, pc) && (a.StreamCompletes? || a.t != t)
    ensures TriedSoFar(cfg, acts + [a], t, pc)
  {
    assert forall b :: b in acts + [a] <==> b in acts || b == a;
  }

  /** Only a call leads to recording, and only a record ends it. */
  lemma StagesMove(cfg: Config, s: State, a: Action)
    requires Enabled(cfg, s, a) && !a.StreamCompletes? && !a.Arrive? && !a.CallUpstream? && !a.Record?
    ensures a.t in Step(cfg, s, a).threads
    ensures StageOf(s.threads[a.t].pc) != Within && StageOf(Step(cfg, s, a).threads[a.t].pc) != Within
    ensures StageOf(s.threads[a.t].pc) == Behind ==> StageOf(Step(cfg, s, a).threads[a.t].pc) == Behind
  {
    hide KeyOf, RawTape, QueryOk, StaleOutcome, Logged, Oversize;
  }

  lemma MoverHasTried(cfg: Config, acts: seq<Action>, s: State, a: Action)
    requires Complete(cfg, acts, s) && Enabled(cfg, s, a) && !a.StreamCompletes?
    ensures var s' := Step(cfg, s, a); a.t in s'.threads && TriedSoFar(cfg, acts + [a], a.t, s'.threads[a.t].pc)
  {
    if !a.Arrive? { assert TriedSoFar(cfg, acts, a.t, s.threads[a.t].pc); }
    var more := acts + [a];
    assert forall b :: b in more <==> b in acts || b == a;
    TriedStays(acts, a, a.t);
    if a.CallUpstream? {
      AskerHasTried(cfg, acts, s, a.t, a.reply);
    } else if a.Record? {
      RecorderHasTried(cfg, acts, s, a);
    } else if !a.Arrive? {
      StagesMove(cfg, s, a);
      hide Step, Enabled, StageOf, Tried, ToRecord;
    }
  }

  lemma RecorderHasTried(cfg: Config, acts: seq<Action>, s: State, a: Action)
    requires Enabled(cfg, s, a) && a.Record?
    ensures var s' := Step(cfg, s, a); a.t in s'.threads && TriedSoFar(cfg, acts + [a], a.t, s'.threads[a.t].pc)
  {
    assert a in acts + [a];
    assert Tried(acts + [a], a.t);
    hide RawTape, Tried;
  }

  lemma TriedStays(acts: seq<Action>, a: Action, t: nat)
    ensures Tried(acts, t) ==> Tried(acts + [a], t)
  {
    assert forall b :: b in acts ==> b in acts + [a];
  }

  lemma AskerHasTried(cfg: Config, acts: seq<Action>, s: State, t: nat, reply: Reply)
    requires Enabled(cfg, s, CallUpstream(t, reply)) && NotAsked(acts, t)
    ensures var s' := Step(cfg, s, CallUpstream(t, reply)); t in s'.threads && TriedSoFar(cfg, acts + [CallUpstream(t, reply)], t, s'.threads[t].pc)
  {
    var a := CallUpstream(t, reply);
    assert forall b :: b in acts + [a] <==> b in acts || b == a;
    hide KeyOf, RawTape, Counted, Logged;
  }

  lemma StreamsStayKept(cfg: Config, acts: seq<Action>, s: State, a: Action, t: nat)
    requires Complete(cfg, acts, s) && Enabled(cfg, s, a) && t in Step(cfg, s, a).threads
    ensures StreamsKept(cfg, acts + [a], Step(cfg, s, a), t)
  {
    StepKeeps(cfg, s, a);
    StreamsGrowBy(cfg, s, a);
    MovesOne(cfg, s, a);
    var s', more := Step(cfg, s, a), acts + [a];
    hide Step, Enabled, Recording, TriedSoFar;
    assert forall b :: b in more <==> b in acts || b == a;
    if t in s.threads { assert StreamsKept(cfg, acts, s, t); }
  }

  lemma StepStaysComplete(cfg: Config, acts: seq<Action>, s: State, a: Action)
    requires Complete(cfg, acts, s) && Enabled(cfg, s, a)
    ensures Complete(cfg, acts + [a], Step(cfg, s, a))
  {
    var s', more := Step(cfg, s, a), acts + [a];
    MovesOne(cfg, s, a);
    if !a.StreamCompletes? { MoverHasTried(cfg, acts, s, a); }
    forall t | t in s'.threads ensures StreamsKept(cfg, more, s', t) { StreamsStayKept(cfg, acts, s, a, t); }
    hide Step, Enabled, TriedSoFar, StreamsKept;
    assert forall b :: b in more <==> b in acts || b == a;
    forall t | t in s'.threads ensures TriedSoFar(cfg, more, t, s'.threads[t].pc) {
      if a.StreamCompletes? || t != a.t { OtherTriedStays(cfg, acts, a, t, s.threads[t].pc); }
    }
  }

  lemma NothingToComplete(cfg: Config)
    ensures Complete(cfg, [], INIT)
  {
  }

  lemma {:induction false} RunStaysComplete(cfg: Config, acts: seq<Action>)
    requires Runs(cfg, INIT, acts)
    ensures Complete(cfg, acts, After(cfg, INIT, acts))
    decreases |acts|
  {
    NothingToComplete(cfg);
    if acts != [] {
      hide Runs, After, Complete, Enabled, Step;
      var n := |acts| - 1;
      assert acts == acts[..n] + [acts[n]];
      LastAction(cfg, INIT, acts[..n], acts[n]);
      RunStaysComplete(cfg, acts[..n]);
      StepStaysComplete(cfg, acts[..n], After(cfg, INIT, acts[..n]), acts[n]);
    }
  }

  // ----- the statements -----

  /** In every run each successful save, and nothing else, puts one tape into the store,
      and every tape there is the sanitizer's output on an exchange with upstream that may
      be recorded: its method, path, body, body hash and route, the ID it was saved under
      and the response, whole and let through by the filter, or a stream at its end. */
  lemma StoreIsWhatWasSaved(cfg: Config, acts: seq<Action>)
    requires Runs(cfg, INIT, acts)
    ensures var s := After(cfg, INIT, acts);
      |s.store| == Saves(acts) && forall tape :: tape in s.store ==> Saved(cfg, acts, s, tape)
  {
    RunKeepsInv(cfg, acts);
  }

  /** A successful save puts the recording of the thread's own exchange last. */
  lemma RecordingIsSaved(cfg: Config, acts: seq<Action>, t: nat, id: string)
    requires Runs(cfg, INIT, acts) && Enabled(cfg, After(cfg, INIT, acts), Record(t, id, true))
    ensures var s := After(cfg, INIT, acts);
      exists resp: Response :: CallUpstream(t, Reply(resp, true)) in acts && cfg.cacheFilter(resp) &&
        Step(cfg, s, Record(t, id, true)).store == s.store + [cfg.sanitize(Recording(cfg, id, s.threads[t].req, resp))]
  {
    RunKeepsInv(cfg, acts);
    var s := After(cfg, INIT, acts);
    assert PcOk(cfg, acts, t, s.threads[t]);
    StoreGrowsBy(cfg, s, Record(t, id, true));
    hide Step, Inv;
  }

  /** A request bypasses the cache if and only if its body is over the limit. */
  lemma BypassedIffLarge(cfg: Config, acts: seq<Action>, t: nat)
    requires Runs(cfg, INIT, acts) && t in After(cfg, INIT, acts).threads && After(cfg, INIT, acts).threads[t].pc.Done?
    ensures var th := After(cfg, INIT, acts).threads[t];
      th.pc.how == Bypassed <==> cfg.maxBodySize > 0 && |th.req.body| > cfg.maxBodySize
  {
    RunKeepsInv(cfg, acts);
    assert PcOk(cfg, acts, t, After(cfg, INIT, acts).threads[t]);
  }

  /** And nothing that is to be recorded is left out: whoever got a whole answer that the
      filter lets through has tried to save it before it is done, and a stream that is to
      be recorded waits for its end. */
  lemma NothingIsLeftOut(cfg: Config, acts: seq<Action>, t: nat, resp: Response, whole: bool)
    requires Runs(cfg, INIT, acts) && CallUpstream(t, Reply(resp, whole)) in acts
    ensures t in After(cfg, INIT, acts).threads
    ensures cfg.sseRecording && resp.sse ==>
      Recording(cfg, "", After(cfg, INIT, acts).threads[t].req, resp) in After(cfg, INIT, acts).streams
    ensures After(cfg, INIT, acts).threads[t].pc.Done? && whole && cfg.cacheFilter(resp) && !(cfg.sseRecording && resp.sse) ==>
      Tried(acts, t)
  {
    RunStaysComplete(cfg, acts);
    var s := After(cfg, INIT, acts);
    assert TriedSoFar(cfg, acts, t, s.threads[t].pc) && StreamsKept(cfg, acts, s, t);
  }
}
