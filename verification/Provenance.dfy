/** Where every tape, published result and answer of the caching transport comes from. */
module Provenance {
  import opened Options
  import opened Tapes
  import opened CachingTransport
  import opened SingleFlight
  import opened CacheKeys

  /** Upstream's own response, or what the sanitizer makes of its recording. */
  ghost predicate Delivers(cfg: Config, e: Exchange, resp: Response) {
    resp == e.resp || exists id: string :: resp == cfg.sanitize(RawTape(cfg, id, e.req, e.resp)).response
  }

  ghost predicate Traced(cfg: Config, log: seq<Exchange>, req: Request, resp: Response) {
    exists i: nat :: i < |log| && SameCacheKey(cfg, log[i].req, req) && Delivers(cfg, log[i], resp)
  }

  /** Responses of which a tape may be saved: streams that are recorded, and what the
      filter lets through. */
  predicate Recordable(cfg: Config, resp: Response) { (cfg.sseRecording && resp.sse) || cfg.cacheFilter(resp) }

  // ----- the conditions -----

  /** A store lookup for `b` may end with this tape: at its arrival, when upstream
      fails, or, behind a leader of its key that got a stream, in its own right. In the
      last case the stream's recording may happen to look the same. */
  ghost predicate Served(cfg: Config, reqs: iset<Request>, b: Request, resp: Response) {
    !cfg.lookupDisabled || cfg.staleFallback ||
    (cfg.singleFlight &&
     exists c: Request, r: Response ::
       Cacheable(cfg, reqs, c) && KeyOf(cfg, c) == KeyOf(cfg, b) && r.sse && !Delivers(cfg, Exchange(c, r), resp))
  }

  ghost predicate CanGet(cfg: Config, reqs: iset<Request>, b: Request, tape: Tape) {
    Matches(cfg, b, tape) && Served(cfg, reqs, b, tape.response)
  }

  /** The tape saved of one request matches no other request it could be served to. */
  ghost predicate TapesDistinguish(cfg: Config, reqs: iset<Request>) {
    forall a, b, id, resp ::
      Cacheable(cfg, reqs, a) && Cacheable(cfg, reqs, b) && Recordable(cfg, resp) &&
      CanGet(cfg, reqs, b, cfg.sanitize(RawTape(cfg, id, a, resp))) ==>
      SameCacheKey(cfg, a, b)
  }

  /** What must hold of requests and configuration; keys matter only to single-flight. */
  ghost predicate Distinguishes(cfg: Config, reqs: iset<Request>) {
    (cfg.singleFlight ==> KeysDistinguish(cfg, reqs)) && TapesDistinguish(cfg, reqs)
  }

  // ----- where everything comes from -----

  /** A tape, as it is saved of a logged exchange. */
  ghost predicate TapeTraced(cfg: Config, reqs: iset<Request>, log: seq<Exchange>, tape: Tape) {
    exists i: nat, id: string :: i < |log| && Cacheable(cfg, reqs, log[i].req) && Recordable(cfg, log[i].resp) &&
      tape == cfg.sanitize(RawTape(cfg, id, log[i].req, log[i].resp))
  }

  ghost predicate StreamTraced(cfg: Config, reqs: iset<Request>, log: seq<Exchange>, tape: Tape) {
    exists i: nat :: i < |log| && Cacheable(cfg, reqs, log[i].req) && Recordable(cfg, log[i].resp) &&
      tape == RawTape(cfg, "", log[i].req, log[i].resp)
  }

  /** Without the stale fallback, a response upstream gave to a request with the key. */
  ghost predicate Direct(cfg: Config, reqs: iset<Request>, log: seq<Exchange>, key: string, resp: Response) {
    cfg.staleFallback ||
    exists i: nat :: i < |log| && Cacheable(cfg, reqs, log[i].req) && KeyOf(cfg, log[i].req) == key && log[i].resp == resp
  }

  ghost predicate OutcomeTraced(cfg: Config, log: seq<Exchange>, req: Request, outcome: Outcome) {
    outcome.Got? ==> Traced(cfg, log, req, outcome.resp)
  }

  /** A leader's outcome. */
  ghost predicate LeaderTraced(cfg: Config, reqs: iset<Request>, log: seq<Exchange>, req: Request, outcome: Outcome) {
    OutcomeTraced(cfg, log, req, outcome) && (outcome.Got? ==> Direct(cfg, reqs, log, KeyOf(cfg, req), outcome.resp))
  }

  ghost predicate PcTraced(cfg: Config, reqs: iset<Request>, log: seq<Exchange>, req: Request, pc: Pc) {
    match pc
    case Waiting(_) => cfg.singleFlight
    case Requery => cfg.singleFlight && exists resp: Response :: resp.sse && Direct(cfg, reqs, log, KeyOf(cfg, req), resp)
    case WaiterStale(_) => cfg.staleFallback
    case StaleLookup(_) => cfg.staleFallback
    case Recording(_, resp) => cfg.cacheFilter(resp) && exists i: nat :: i < |log| && log[i] == Exchange(req, resp)
    case Publishing(_, o, _) => LeaderTraced(cfg, reqs, log, req, o)
    case Signalling(_, o, _) => OutcomeTraced(cfg, log, req, o)
    case Removing(_, o, _) => OutcomeTraced(cfg, log, req, o)
    case Done(o, _) => OutcomeTraced(cfg, log, req, o)
    case _ => true
  }

  /** The request is one of those allowed, and only a small body gets past the
      size test. */
  predicate Admitted(cfg: Config, reqs: iset<Request>, th: Thread) {
    th.req in reqs && (Oversize(cfg, th.req) ==> th.pc.Start? || th.pc.Done?)
  }

  ghost predicate ThreadTraced(cfg: Config, reqs: iset<Request>, s: State, t: nat)
    requires t in s.threads
  {
    Admitted(cfg, reqs, s.threads[t]) && PcTraced(cfg, reqs, s.log, s.threads[t].req, s.threads[t].pc)
  }

  ghost predicate Recorded(cfg: Config, reqs: iset<Request>, s: State) {
    (forall i: nat :: i < |s.store| ==> TapeTraced(cfg, reqs, s.log, s.store[i])) &&
    (forall i: nat :: i < |s.streams| ==> StreamTraced(cfg, reqs, s.log, s.streams[i]))
  }

  /** A published result is an answer to a request with the call's key. */
  ghost predicate CallTraced(cfg: Config, reqs: iset<Request>, log: seq<Exchange>, call: Call) {
    call.outcome.Some? && call.outcome.value.Got? ==>
      (exists req: Request :: Cacheable(cfg, reqs, req) && KeyOf(cfg, req) == call.key && Traced(cfg, log, req, call.outcome.value.resp)) &&
      Direct(cfg, reqs, log, call.key, call.outcome.value.resp)
  }

  ghost predicate Provenance(cfg: Config, reqs: iset<Request>, s: State) {
    Recorded(cfg, reqs, s) &&
    (forall t :: t in s.threads ==> ThreadTraced(cfg, reqs, s, t)) &&
    (forall c: nat :: c < |s.calls| ==> CallTraced(cfg, reqs, s.log, s.calls[c]))
  }

  // ----- what a longer log keeps -----

  lemma TracedGrows(cfg: Config, reqs: iset<Request>, log: seq<Exchange>, more: seq<Exchange>, req: Request, pc: Pc)
    requires PcTraced(cfg, reqs, log, req, pc)
    ensures PcTraced(cfg, reqs, log + more, req, pc)
  {
    assert forall i: nat :: i < |log| ==> (log + more)[i] == log[i];
  }

  lemma RecordedGrows(cfg: Config, reqs: iset<Request>, s: State, more: seq<Exchange>)
    requires Recorded(cfg, reqs, s)
    ensures Recorded(cfg, reqs, s.(log := s.log + more))
  {
    hide RawTape;
    var s' := s.(log := s.log + more);
    assert forall i: nat :: i < |s.log| ==> s'.log[i] == s.log[i];
    forall i: nat | i < |s.store| ensures TapeTraced(cfg, reqs, s'.log, s.store[i]) {
      assert TapeTraced(cfg, reqs, s.log, s.store[i]);
    }
    forall i: nat | i < |s.streams| ensures StreamTraced(cfg, reqs, s'.log, s.streams[i]) {
      assert StreamTraced(cfg, reqs, s.log, s.streams[i]);
    }
  }

  lemma CallGrows(cfg: Config, reqs: iset<Request>, log: seq<Exchange>, more: seq<Exchange>, call: Call)
    requires CallTraced(cfg, reqs, log, call)
    ensures CallTraced(cfg, reqs, log + more, call)
  {
    hide RawTape, KeyOf;
    assert forall i: nat :: i < |log| ==> (log + more)[i] == log[i];
  }

  /** One thread moves and the log may grow; the calls keep their keys and results. */
  predicate OneMoves(s: State, s': State, t: nat, more: seq<Exchange>) {
    t in s'.threads && s'.threads == s.threads[t := s'.threads[t]] && s'.log == s.log + more &&
    |s'.calls| == |s.calls| &&
    forall c: nat :: c < |s.calls| ==> s'.calls[c].key == s.calls[c].key && s'.calls[c].outcome == s.calls[c].outcome
  }

  lemma MoveKeepsProvenance(cfg: Config, reqs: iset<Request>, s: State, s': State, t: nat, more: seq<Exchange>)
    requires Provenance(cfg, reqs, s) && OneMoves(s, s', t, more)
    requires ThreadTraced(cfg, reqs, s', t) && Recorded(cfg, reqs, s')
    ensures Provenance(cfg, reqs, s')
  {
    hide Recorded, Admitted, PcTraced, CallTraced;
    forall u | u in s'.threads ensures ThreadTraced(cfg, reqs, s', u) {
      if u != t {
        assert ThreadTraced(cfg, reqs, s, u);
        TracedGrows(cfg, reqs, s.log, more, s.threads[u].req, s.threads[u].pc);
      }
    }
    forall c: nat | c < |s'.calls| ensures CallTraced(cfg, reqs, s'.log, s'.calls[c]) {
      CallGrows(cfg, reqs, s.log, more, s.calls[c]);
      SameResult(cfg, reqs, s'.log, s.calls[c], s'.calls[c]);
    }
  }

  lemma SameResult(cfg: Config, reqs: iset<Request>, log: seq<Exchange>, call: Call, call': Call)
    requires CallTraced(cfg, reqs, log, call) && call'.key == call.key && call'.outcome == call.outcome
    ensures CallTraced(cfg, reqs, log, call')
  {
    hide Traced, KeyOf;
  }

  // ----- the sources of an answer -----

  /** A tape the matcher accepts, and that may be served, answers for the request. */
  lemma MatchingTapeIsTraced(cfg: Config, reqs: iset<Request>, s: State, req: Request, i: nat)
    requires Distinguishes(cfg, reqs) && Cacheable(cfg, reqs, req)
    requires Recorded(cfg, reqs, s) && i < |s.store| && Matches(cfg, req, s.store[i])
    ensures Served(cfg, reqs, req, s.store[i].response) ==> Traced(cfg, s.log, req, s.store[i].response)
  {
    assert TapeTraced(cfg, reqs, s.log, s.store[i]);
    var j: nat, id: string :| j < |s.log| && Cacheable(cfg, reqs, s.log[j].req) && Recordable(cfg, s.log[j].resp) &&
      s.store[i] == cfg.sanitize(RawTape(cfg, id, s.log[j].req, s.log[j].resp));
    hide Served, Matches, RawTape, SameCacheKey;
    if Served(cfg, reqs, req, s.store[i].response) {
      assert SameCacheKey(cfg, s.log[j].req, req);
      assert Delivers(cfg, s.log[j], s.store[i].response);
    }
  }

  /** Without a lookup on arrival and without the stale fallback a stored answer is
      served only behind a leader that got a stream; then that stream's exchange may
      account for it. */
  lemma RequeriedTapeIsTraced(cfg: Config, reqs: iset<Request>, s: State, req: Request, i: nat, r: Response)
    requires Distinguishes(cfg, reqs) && Cacheable(cfg, reqs, req) && cfg.singleFlight
    requires Recorded(cfg, reqs, s) && i < |s.store| && Matches(cfg, req, s.store[i])
    requires r.sse && Direct(cfg, reqs, s.log, KeyOf(cfg, req), r)
    ensures Traced(cfg, s.log, req, s.store[i].response)
  {
    MatchingTapeIsTraced(cfg, reqs, s, req, i);
    var resp := s.store[i].response;
    hide Recorded, Matches, RawTape, KeyOf, TapesDistinguish;
    if !Served(cfg, reqs, req, resp) {
      var j: nat :| j < |s.log| && Cacheable(cfg, reqs, s.log[j].req) && KeyOf(cfg, s.log[j].req) == KeyOf(cfg, req) && s.log[j].resp == r;
      assert s.log[j] == Exchange(s.log[j].req, r);
      assert Delivers(cfg, s.log[j], resp);
      assert SameCacheKey(cfg, s.log[j].req, req);
    }
  }

  lemma QueryIsTraced(cfg: Config, reqs: iset<Request>, s: State, req: Request, q: Query)
    requires Distinguishes(cfg, reqs) && Cacheable(cfg, reqs, req) && (!cfg.lookupDisabled || cfg.staleFallback)
    requires Recorded(cfg, reqs, s) && QueryOk(cfg, s, req, q)
    ensures OutcomeTraced(cfg, s.log, req, StaleOutcome(s, q))
    ensures q.Picked? && q.pick.Some? ==> Traced(cfg, s.log, req, s.store[q.pick.value].response)
  {
    hide Distinguishes, Recorded, Matches;
    if q.Picked? && q.pick.Some? { MatchingTapeIsTraced(cfg, reqs, s, req, q.pick.value); }
  }

  /** A waiter's key is its call's, so the published answer is an answer for it. */
  lemma SharedAnswerIsTraced(cfg: Config, reqs: iset<Request>, s: State, t: nat)
    requires Provenance(cfg, reqs, s) && Inv(cfg, s) && Distinguishes(cfg, reqs)
    requires t in s.threads && s.threads[t].pc.Waiting? && s.threads[t].pc.call < |s.calls|
    requires var o := s.calls[s.threads[t].pc.call].outcome; o.Some? && o.value.Got?
    ensures Traced(cfg, s.log, s.threads[t].req, s.calls[s.threads[t].pc.call].outcome.value.resp)
  {
    hide KeyOf, Delivers;
    var call := s.calls[s.threads[t].pc.call];
    assert ThreadOk(cfg, s, t);
    assert ThreadTraced(cfg, reqs, s, t);
    assert CallTraced(cfg, reqs, s.log, call);
    var req: Request :| Cacheable(cfg, reqs, req) && KeyOf(cfg, req) == call.key &&
      Traced(cfg, s.log, req, call.outcome.value.resp);
    assert SameCacheKey(cfg, req, s.threads[t].req);
    var i: nat :| i < |s.log| && SameCacheKey(cfg, s.log[i].req, req) && Delivers(cfg, s.log[i], call.outcome.value.resp);
    assert SameCacheKey(cfg, s.log[i].req, s.threads[t].req);
  }

  // ----- preservation, action by action -----

  lemma GotoKeepsProvenance(cfg: Config, reqs: iset<Request>, s: State, t: nat, pc: Pc)
    requires Provenance(cfg, reqs, s) && t in s.threads && PcTraced(cfg, reqs, s.log, s.threads[t].req, pc)
    requires (Oversize(cfg, s.threads[t].req) ==> pc.Done?)
    ensures Provenance(cfg, reqs, Goto(s, t, pc))
  {
    hide PcTraced, CallTraced, Oversize;
    assert ThreadTraced(cfg, reqs, s, t);
    assert s.log + [] == s.log;
    MoveKeepsProvenance(cfg, reqs, s, Goto(s, t, pc), t, []);
  }

  lemma AnsweredIsTraced(cfg: Config, log: seq<Exchange>, req: Request, resp: Response)
    requires |log| > 0 && log[|log| - 1] == Exchange(req, resp)
    ensures Traced(cfg, log, req, resp)
  {
    assert Delivers(cfg, log[|log| - 1], resp);
  }

  lemma BypassKeepsProvenance(cfg: Config, reqs: iset<Request>, s: State, t: nat, reply: Reply)
    requires Provenance(cfg, reqs, s) && Enabled(cfg, s, Bypass(t, reply))
    ensures Provenance(cfg, reqs, Step(cfg, s, Bypass(t, reply)))
  {
    var s' := Step(cfg, s, Bypass(t, reply));
    var more := if reply.TransportError? then [] else [Exchange(s.threads[t].req, reply.resp)];
    assert s'.log == s.log + more;
    hide CallTraced, Oversize;
    assert ThreadTraced(cfg, reqs, s, t);
    RecordedGrows(cfg, reqs, s, more);
    if reply.Reply? { AnsweredIsTraced(cfg, s'.log, s.threads[t].req, reply.resp); }
    MoveKeepsProvenance(cfg, reqs, s, s', t, more);
  }

  lemma NextPcIsTraced(cfg: Config, reqs: iset<Request>, log: seq<Exchange>, req: Request, lead: Option<nat>, reply: Reply)
    requires Cacheable(cfg, reqs, req)
    requires reply.Reply? ==> |log| > 0 && log[|log| - 1] == Exchange(req, reply.resp)
    ensures PcTraced(cfg, reqs, log, req, NextPc(cfg, lead, reply))
  {
    hide Traced, KeyOf;
    if reply.Reply? {
      AnsweredIsTraced(cfg, log, req, reply.resp);
      assert Direct(cfg, reqs, log, KeyOf(cfg, req), reply.resp);
    }
  }

  lemma UpstreamKeepsProvenance(cfg: Config, reqs: iset<Request>, s: State, t: nat, reply: Reply)
    requires Provenance(cfg, reqs, s) && t in s.threads && s.threads[t].pc.AtUpstream?
    ensures Provenance(cfg, reqs, DoUpstream(cfg, s, t, reply))
  {
    var s', req, lead := DoUpstream(cfg, s, t, reply), s.threads[t].req, s.threads[t].pc.lead;
    var more := if reply.TransportError? then [] else [Exchange(req, reply.resp)];
    assert s'.log == s.log + more;
    assert ThreadTraced(cfg, reqs, s, t);
    NextPcIsTraced(cfg, reqs, s'.log, req, lead, reply);
    hide NextPc, CallTraced, PcTraced, Oversize, RawTape;
    RecordedAfterReply(cfg, reqs, s, t, reply);
    hide Recorded;
    MoveKeepsProvenance(cfg, reqs, s, s', t, more);
  }

  lemma RecordedAfterReply(cfg: Config, reqs: iset<Request>, s: State, t: nat, reply: Reply)
    requires Recorded(cfg, reqs, s) && t in s.threads && s.threads[t].pc.AtUpstream? && Cacheable(cfg, reqs, s.threads[t].req)
    ensures Recorded(cfg, reqs, DoUpstream(cfg, s, t, reply))
  {
    hide RawTape, NextPc;
    var s', req := DoUpstream(cfg, s, t, reply), s.threads[t].req;
    RecordedGrows(cfg, reqs, s, if reply.TransportError? then [] else [Exchange(req, reply.resp)]);
    if Streaming(cfg, reply) {
      assert s'.log[|s.log|] == Exchange(req, reply.resp);
      assert StreamTraced(cfg, reqs, s'.log, s'.streams[|s.streams|]);
      assert forall i: nat :: i < |s.streams| ==> s'.streams[i] == s.streams[i];
    } else {
      assert reply.TransportError? ==> s.log + [] == s.log;
    }
  }

  lemma SavedTapeIsTraced(cfg: Config, reqs: iset<Request>, s: State, s': State, tape: Tape)
    requires Recorded(cfg, reqs, s) && TapeTraced(cfg, reqs, s.log, tape)
    requires s'.store == s.store + [tape] && s'.log == s.log && s'.streams == s.streams
    ensures Recorded(cfg, reqs, s')
  {
    hide TapeTraced;
    assert forall i: nat :: i < |s.store| ==> s'.store[i] == s.store[i];
  }

  lemma FinishIsTraced(cfg: Config, reqs: iset<Request>, log: seq<Exchange>, req: Request, lead: Option<nat>, o: Outcome, how: How)
    requires LeaderTraced(cfg, reqs, log, req, o)
    ensures PcTraced(cfg, reqs, log, req, Finish(lead, o, how))
  {
  }

  lemma RecordKeepsProvenance(cfg: Config, reqs: iset<Request>, s: State, t: nat, id: string, saveOk: bool)
    requires Provenance(cfg, reqs, s) && t in s.threads && s.threads[t].pc.Recording?
    ensures Provenance(cfg, reqs, DoRecord(cfg, s, t, id, saveOk))
  {
    var s', req, resp := DoRecord(cfg, s, t, id, saveOk), s.threads[t].req, s.threads[t].pc.resp;
    assert ThreadTraced(cfg, reqs, s, t);
    var i: nat :| i < |s.log| && s.log[i] == Exchange(req, resp);
    assert Delivers(cfg, s.log[i], resp);
    assert Traced(cfg, s.log, req, resp);
    assert Cacheable(cfg, reqs, s.log[i].req) && Direct(cfg, reqs, s.log, KeyOf(cfg, req), resp);
    FinishIsTraced(cfg, reqs, s.log, req, s.threads[t].pc.lead, Got(resp), Miss);
    if saveOk {
      var tape := cfg.sanitize(RawTape(cfg, id, req, resp));
      assert TapeTraced(cfg, reqs, s.log, tape);
      SavedTapeIsTraced(cfg, reqs, s, s', tape);
    }
    hide CallTraced, PcTraced, Oversize, RawTape, Recorded;
    assert s.log + [] == s.log;
    MoveKeepsProvenance(cfg, reqs, s, s', t, []);
  }

  lemma StreamKeepsProvenance(cfg: Config, reqs: iset<Request>, s: State, i: nat, id: string)
    requires Provenance(cfg, reqs, s) && i < |s.streams|
    ensures Provenance(cfg, reqs, Step(cfg, s, StreamCompletes(i, id)))
  {
    var s' := Step(cfg, s, StreamCompletes(i, id));
    assert StreamTraced(cfg, reqs, s.log, s.streams[i]);
    var j: nat :| j < |s.log| && Cacheable(cfg, reqs, s.log[j].req) && Recordable(cfg, s.log[j].resp) &&
      s.streams[i] == RawTape(cfg, "", s.log[j].req, s.log[j].resp);
    assert s.streams[i].(id := id) == RawTape(cfg, id, s.log[j].req, s.log[j].resp);
    assert TapeTraced(cfg, reqs, s.log, cfg.sanitize(s.streams[i].(id := id)));
    SavedTapeIsTraced(cfg, reqs, s, s', cfg.sanitize(s.streams[i].(id := id)));
    hide CallTraced, PcTraced, Admitted, Recorded;
    forall u | u in s'.threads ensures ThreadTraced(cfg, reqs, s', u) { assert ThreadTraced(cfg, reqs, s, u); }
  }

  lemma EnterKeepsProvenance(cfg: Config, reqs: iset<Request>, s: State, t: nat)
    requires Provenance(cfg, reqs, s) && t in s.threads && s.threads[t].pc.Enter?
    ensures Provenance(cfg, reqs, DoEnter(cfg, s, t))
  {
    hide KeyOf, Recorded, Oversize;
    var s' := DoEnter(cfg, s, t);
    assert ThreadTraced(cfg, reqs, s, t);
    forall u | u in s'.threads ensures ThreadTraced(cfg, reqs, s', u) { assert ThreadTraced(cfg, reqs, s, u); }
    forall c: nat | c < |s'.calls| ensures CallTraced(cfg, reqs, s'.log, s'.calls[c]) {
      if c < |s.calls| { assert CallTraced(cfg, reqs, s.log, s.calls[c]); }
    }
    assert Recorded(cfg, reqs, s') by { StoreUntouched(cfg, reqs, s, s'); }
  }

  lemma StoreUntouched(cfg: Config, reqs: iset<Request>, s: State, s': State)
    requires Recorded(cfg, reqs, s) && s'.store == s.store && s'.log == s.log && s'.streams == s.streams
    ensures Recorded(cfg, reqs, s')
  {
  }

  lemma SetResultKeepsProvenance(cfg: Config, reqs: iset<Request>, s: State, t: nat)
    requires Provenance(cfg, reqs, s) && Inv(cfg, s) && t in s.threads && s.threads[t].pc.Publishing?
    ensures Provenance(cfg, reqs, DoSetResult(s, t))
  {
    var s' := DoSetResult(s, t);
    var pc, req := s.threads[t].pc, s.threads[t].req;
    assert ThreadOk(cfg, s, t) && ThreadTraced(cfg, reqs, s, t);
    assert CallTraced(cfg, reqs, s'.log, s'.calls[pc.call]) by {
      assert KeyOf(cfg, req) == s'.calls[pc.call].key && Cacheable(cfg, reqs, req);
    }
    assert PcTraced(cfg, reqs, s'.log, req, s'.threads[t].pc);
    hide KeyOf, Recorded, Oversize, PcTraced, CallTraced;
    forall u | u in s'.threads ensures ThreadTraced(cfg, reqs, s', u) { assert ThreadTraced(cfg, reqs, s, u); }
    forall c: nat | c < |s'.calls| ensures CallTraced(cfg, reqs, s'.log, s'.calls[c]) {
      if c != pc.call { assert CallTraced(cfg, reqs, s.log, s.calls[c]); }
    }
    StoreUntouched(cfg, reqs, s, s');
  }

  lemma SignalKeepsProvenance(cfg: Config, reqs: iset<Request>, s: State, t: nat)
    requires Provenance(cfg, reqs, s) && t in s.threads && s.threads[t].pc.Signalling? && s.threads[t].pc.call < |s.calls|
    ensures Provenance(cfg, reqs, DoSignal(s, t))
  {
    var s' := DoSignal(s, t);
    assert ThreadTraced(cfg, reqs, s, t);
    StoreUntouched(cfg, reqs, s, s');
    assert s.log + [] == s.log;
    hide CallTraced, Oversize, Recorded;
    MoveKeepsProvenance(cfg, reqs, s, s', t, []);
  }

  lemma RemoveKeepsProvenance(cfg: Config, reqs: iset<Request>, s: State, t: nat)
    requires Provenance(cfg, reqs, s) && t in s.threads && s.threads[t].pc.Removing?
    ensures Provenance(cfg, reqs, DoRemove(cfg, s, t))
  {
    var s' := DoRemove(cfg, s, t);
    assert ThreadTraced(cfg, reqs, s, t);
    StoreUntouched(cfg, reqs, s, s');
    assert s.log + [] == s.log;
    hide CallTraced, Oversize, Recorded;
    MoveKeepsProvenance(cfg, reqs, s, s', t, []);
  }

  lemma WakeKeepsProvenance(cfg: Config, reqs: iset<Request>, s: State, t: nat)
    requires Provenance(cfg, reqs, s) && Inv(cfg, s) && Distinguishes(cfg, reqs)
    requires t in s.threads && s.threads[t].pc.Waiting? && s.threads[t].pc.call < |s.calls|
    ensures Provenance(cfg, reqs, DoWake(cfg, s, t))
  {
    assert ThreadTraced(cfg, reqs, s, t) && ThreadOk(cfg, s, t);
    var call := s.calls[s.threads[t].pc.call];
    if call.outcome.Some? && call.outcome.value.Got? {
      SharedAnswerIsTraced(cfg, reqs, s, t);
      assert CallTraced(cfg, reqs, s.log, call);
    }
    hide Provenance, Oversize, Direct, Traced, KeyOf, Distinguishes;
    GotoKeepsProvenance(cfg, reqs, s, t, DoWake(cfg, s, t).threads[t].pc);
  }

  lemma ArriveKeepsProvenance(cfg: Config, reqs: iset<Request>, s: State, t: nat, req: Request)
    requires Provenance(cfg, reqs, s) && t !in s.threads && req in reqs
    ensures Provenance(cfg, reqs, Step(cfg, s, Arrive(t, req)))
  {
    var s' := Step(cfg, s, Arrive(t, req));
    StoreUntouched(cfg, reqs, s, s');
    assert s.log + [] == s.log;
    hide CallTraced, Oversize, Recorded;
    MoveKeepsProvenance(cfg, reqs, s, s', t, []);
  }

  lemma QueryStepKeepsProvenance(cfg: Config, reqs: iset<Request>, s: State, a: Action)
    requires Provenance(cfg, reqs, s) && Distinguishes(cfg, reqs) && Enabled(cfg, s, a)
    requires a.Lookup? || a.ServeStale? || a.WakeStale?
    ensures Provenance(cfg, reqs, Step(cfg, s, a))
  {
    var t, req := a.t, s.threads[a.t].req;
    assert ThreadTraced(cfg, reqs, s, t) && Cacheable(cfg, reqs, req);
    hide Distinguishes, Recorded, QueryOk;
    if !cfg.lookupDisabled || cfg.staleFallback { QueryIsTraced(cfg, reqs, s, req, a.q); }
    var s' := Step(cfg, s, a);
    var pc := s'.threads[t].pc;
    if a.ServeStale? { FinishIsTraced(cfg, reqs, s.log, req, s.threads[t].pc.lead, StaleOutcome(s, a.q), Stale); }
    hide Provenance, Oversize, Traced;
    assert s' == Goto(s, t, pc);
    GotoKeepsProvenance(cfg, reqs, s, t, pc);
  }

  lemma RequeryKeepsProvenance(cfg: Config, reqs: iset<Request>, s: State, t: nat, q: Query)
    requires Provenance(cfg, reqs, s) && Distinguishes(cfg, reqs) && Enabled(cfg, s, RequeryStore(t, q))
    ensures Provenance(cfg, reqs, DoRequery(s, t, q))
  {
    var req := s.threads[t].req;
    assert ThreadTraced(cfg, reqs, s, t) && Cacheable(cfg, reqs, req);
    var r: Response :| r.sse && Direct(cfg, reqs, s.log, KeyOf(cfg, req), r);
    hide Distinguishes, Recorded, KeyOf, Direct, Oversize, Traced;
    if q.Picked? && q.pick.Some? { RequeriedTapeIsTraced(cfg, reqs, s, req, q.pick.value, r); }
    hide Provenance;
    GotoKeepsProvenance(cfg, reqs, s, t, DoRequery(s, t, q).threads[t].pc);
  }

  lemma StepKeepsProvenance(cfg: Config, reqs: iset<Request>, s: State, a: Action)
    requires Provenance(cfg, reqs, s) && Inv(cfg, s) && Distinguishes(cfg, reqs)
    requires Enabled(cfg, s, a) && (a.Arrive? ==> a.req in reqs)
    ensures Provenance(cfg, reqs, Step(cfg, s, a))
  {
    hide Provenance, Inv, Distinguishes;
    match a {
      case Arrive(t, req) => ArriveKeepsProvenance(cfg, reqs, s, t, req);
      case Bypass(t, reply) => BypassKeepsProvenance(cfg, reqs, s, t, reply);
      case EnterFlight(t) => EnterKeepsProvenance(cfg, reqs, s, t);
      case CallUpstream(t, reply) => UpstreamKeepsProvenance(cfg, reqs, s, t, reply);
      case Record(t, id, saveOk) => RecordKeepsProvenance(cfg, reqs, s, t, id, saveOk);
      case SetResult(t) => SetResultKeepsProvenance(cfg, reqs, s, t);
      case Signal(t) => SignalKeepsProvenance(cfg, reqs, s, t);
      case RemoveEntry(t) => RemoveKeepsProvenance(cfg, reqs, s, t);
      case Wake(t) => WakeKeepsProvenance(cfg, reqs, s, t);
      case StreamCompletes(i, id) => StreamKeepsProvenance(cfg, reqs, s, i, id);
      case RequeryStore(t, q) => RequeryKeepsProvenance(cfg, reqs, s, t, q);
      case _ => QueryStepKeepsProvenance(cfg, reqs, s, a);
    }
  }

  predicate ArrivalsIn(acts: seq<Action>, reqs: iset<Request>) {
    forall i :: 0 <= i < |acts| && acts[i].Arrive? ==> acts[i].req in reqs
  }

  lemma {:induction false} RunKeepsProvenance(cfg: Config, reqs: iset<Request>, s: State, acts: seq<Action>)
    requires Provenance(cfg, reqs, s) && Inv(cfg, s) && Distinguishes(cfg, reqs)
    requires Runs(cfg, s, acts) && ArrivalsIn(acts, reqs)
    ensures Provenance(cfg, reqs, After(cfg, s, acts))
    decreases |acts|
  {
    if acts != [] {
      hide Provenance, Inv, Distinguishes;
      assert acts[0].Arrive? ==> acts[0].req in reqs;
      StepKeepsProvenance(cfg, reqs, s, acts[0]);
      StepKeepsInv(cfg, s, acts[0]);
      RunKeepsProvenance(cfg, reqs, Step(cfg, s, acts[0]), acts[1..]);
    }
  }
}
