/** Runs that cross answers: through a shared key, and through the store. */
module CrossingRuns {
  import opened Options
  import opened Tapes
  import opened CachingTransport
  import opened SingleFlight
  import opened CacheKeys
  import opened Provenance

  /** A run from the start with these requests. */
  ghost predicate Reached(cfg: Config, reqs: iset<Request>, acts: seq<Action>, s: State) {
    Runs(cfg, INIT, acts) && ArrivalsIn(acts, reqs) && After(cfg, INIT, acts) == s
  }

  /** One more action. */
  lemma Go(cfg: Config, reqs: iset<Request>, acts: seq<Action>, s: State, a: Action) returns (more: seq<Action>)
    requires Reached(cfg, reqs, acts, s) && Enabled(cfg, s, a) && (a.Arrive? ==> a.req in reqs)
    ensures Reached(cfg, reqs, more, Step(cfg, s, a))
  {
    hide Enabled, Step, Runs, After;
    RunMore(cfg, INIT, acts, a);
    more := acts + [a];
  }

  lemma Nothing(cfg: Config, reqs: iset<Request>)
    ensures Reached(cfg, reqs, [], INIT)
  {
  }

  /** A request whose lookup on arrival fails reaches the single-flight table. */
  lemma Enters(cfg: Config, reqs: iset<Request>, acts: seq<Action>, s: State, t: nat, req: Request) returns (more: seq<Action>)
    requires Reached(cfg, reqs, acts, s) && Cacheable(cfg, reqs, req) && t !in s.threads
    ensures Reached(cfg, reqs, more, s.(threads := s.threads[t := Thread(req, Enter)]))
  {
    hide Reached, Oversize, QueryOk;
    more := Go(cfg, reqs, acts, s, Arrive(t, req));
    var s1 := s.(threads := s.threads[t := Thread(req, Start)]);
    ListMayFail(cfg, s1, req);
    more := Go(cfg, reqs, more, s1, Lookup(t, ListFailed));
    assert s1.threads[t := Thread(req, Enter)] == s.threads[t := Thread(req, Enter)];
  }

  lemma ListMayFail(cfg: Config, s: State, req: Request)
    ensures QueryOk(cfg, s, req, ListFailed)
  {
  }

  /** A request whose key is free goes upstream. */
  lemma Leads(cfg: Config, reqs: iset<Request>, acts: seq<Action>, s: State, t: nat, req: Request)
    returns (more: seq<Action>, lead: Option<nat>)
    requires Reached(cfg, reqs, acts, s) && Cacheable(cfg, reqs, req) && t !in s.threads
    requires cfg.singleFlight ==> KeyOf(cfg, req) !in s.sfCalls
    ensures lead == if cfg.singleFlight then Some(|s.calls|) else None
    ensures Reached(cfg, reqs, more, Leading(cfg, s, t, req))
  {
    hide Reached, KeyOf, Oversize;
    more := Enters(cfg, reqs, acts, s, t, req);
    var s1 := s.(threads := s.threads[t := Thread(req, Enter)]);
    more := Go(cfg, reqs, more, s1, EnterFlight(t));
    lead := if cfg.singleFlight then Some(|s.calls|) else None;
    assert s1.threads[t := Thread(req, AtUpstream(lead))] == s.threads[t := Thread(req, AtUpstream(lead))];
  }

  /** The state in which it has just gone there. */
  function Leading(cfg: Config, s: State, t: nat, req: Request): State {
    if cfg.singleFlight then
      s.(threads := s.threads[t := Thread(req, AtUpstream(Some(|s.calls|)))],
         calls := s.calls + [Call(KeyOf(cfg, req), t, 1, None, 0)], sfCalls := s.sfCalls[KeyOf(cfg, req) := |s.calls|])
    else s.(threads := s.threads[t := Thread(req, AtUpstream(None))])
  }

  // ----- a tape is saved -----

  /** Thread 0 has asked for `a`, and the tape of its answer is in the store. */
  predicate Saved(cfg: Config, s: State, a: Request, resp: Response, tape: Tape) {
    s.store == [tape] && s.log == [Exchange(a, resp)] && s.threads.Keys == {0} &&
    forall k :: k in s.sfCalls ==> k == KeyOf(cfg, a)
  }

  /** The action saves the tape of this exchange. */
  predicate Saves(cfg: Config, s: State, act: Action, a: Request, id: string, resp: Response) {
    Enabled(cfg, s, act) &&
    match act
    case Record(t, i, ok) => ok && i == id && s.threads[t].req == a && s.threads[t].pc.resp == resp
    case StreamCompletes(i, j) => j == id && s.streams[i] == RawTape(cfg, "", a, resp)
    case _ => false
  }

  lemma AboutToSave(cfg: Config, reqs: iset<Request>, a: Request, id: string, resp: Response)
    returns (acts: seq<Action>, s: State, save: Action)
    requires Cacheable(cfg, reqs, a) && Recordable(cfg, resp)
    ensures Reached(cfg, reqs, acts, s) && Saves(cfg, s, save, a, id, resp)
    ensures Saved(cfg, Step(cfg, s, save), a, resp, cfg.sanitize(RawTape(cfg, id, a, resp)))
  {
    Nothing(cfg, reqs);
    var lead;
    acts, lead := Leads(cfg, reqs, [], INIT, 0, a);
    var s0 := Leading(cfg, INIT, 0, a);
    hide Reached, KeyOf, Oversize;
    acts := Go(cfg, reqs, acts, s0, CallUpstream(0, Reply(resp, true)));
    UpstreamAnswers(cfg, a, resp);
    s := DoUpstream(cfg, s0, 0, Reply(resp, true));
    assert Step(cfg, s0, CallUpstream(0, Reply(resp, true))) == s;
    hide *;
    save := OneSave(cfg, s, a, id, resp);
  }

  lemma OneSave(cfg: Config, s: State, a: Request, id: string, resp: Response) returns (save: Action)
    requires s.log == [Exchange(a, resp)] && s.store == [] && s.threads.Keys == {0} && s.threads[0].req == a
    requires forall k :: k in s.sfCalls ==> k == KeyOf(cfg, a)
    requires if cfg.sseRecording && resp.sse then s.streams == [RawTape(cfg, "", a, resp)]
             else s.threads[0].pc.Recording? && s.threads[0].pc.resp == resp
    ensures Saves(cfg, s, save, a, id, resp) && Saved(cfg, Step(cfg, s, save), a, resp, cfg.sanitize(RawTape(cfg, id, a, resp)))
  {
    hide KeyOf;
    save := if cfg.sseRecording && resp.sse then StreamCompletes(0, id) else Record(0, id, true);
  }

  lemma SavesTape(cfg: Config, reqs: iset<Request>, a: Request, id: string, resp: Response) returns (acts: seq<Action>, s: State)
    requires Cacheable(cfg, reqs, a) && Recordable(cfg, resp)
    ensures Reached(cfg, reqs, acts, s) && Saved(cfg, s, a, resp, cfg.sanitize(RawTape(cfg, id, a, resp)))
  {
    hide Reached, KeyOf, Oversize;
    var before, save;
    acts, before, save := AboutToSave(cfg, reqs, a, id, resp);
    acts := Go(cfg, reqs, acts, before, save);
    s := Step(cfg, before, save);
  }

  lemma UpstreamAnswers(cfg: Config, a: Request, resp: Response)
    requires Recordable(cfg, resp)
    ensures var s1 := DoUpstream(cfg, Leading(cfg, INIT, 0, a), 0, Reply(resp, true));
      s1.log == [Exchange(a, resp)] && s1.store == [] && s1.threads.Keys == {0} && s1.threads[0].req == a &&
      (forall k :: k in s1.sfCalls ==> k == KeyOf(cfg, a)) &&
      (if cfg.sseRecording && resp.sse then s1.streams == [RawTape(cfg, "", a, resp)]
       else s1.threads[0].pc.Recording? && s1.threads[0].pc.resp == resp)
  {
    hide KeyOf;
  }

  // ----- and served to another request -----

  /** Some run gives `b` an answer that no exchange accounts for. */
  ghost predicate Crosses(cfg: Config, reqs: iset<Request>) {
    exists acts: seq<Action>, s: State, t: nat ::
      Reached(cfg, reqs, acts, s) && t in s.threads && s.threads[t].pc.Done? &&
      !OutcomeTraced(cfg, s.log, s.threads[t].req, s.threads[t].pc.outcome)
  }

  lemma FirstTapeMatches(cfg: Config, s: State, b: Request)
    requires |s.store| == 1 && Matches(cfg, b, s.store[0])
    ensures QueryOk(cfg, s, b, Picked(Some(0)))
  {
  }

  lemma OneStrangeExchange(cfg: Config, a: Request, resp: Response, b: Request, answer: Response)
    requires !SameCacheKey(cfg, a, b)
    ensures !Traced(cfg, [Exchange(a, resp)], b, answer)
  {
  }

  /** With the lookup on arrival: a hit. */
  lemma HitCrosses(cfg: Config, reqs: iset<Request>, acts: seq<Action>, s: State, a: Request, resp: Response, b: Request)
    requires Reached(cfg, reqs, acts, s) && |s.store| == 1 && Saved(cfg, s, a, resp, s.store[0]) && Cacheable(cfg, reqs, b)
    requires !cfg.lookupDisabled && Matches(cfg, b, s.store[0]) && !SameCacheKey(cfg, a, b)
    ensures Crosses(cfg, reqs)
  {
    hide Reached, Oversize, Matches, QueryOk, SameCacheKey, KeyOf;
    var more := Go(cfg, reqs, acts, s, Arrive(1, b));
    var s1 := s.(threads := s.threads[1 := Thread(b, Start)]);
    FirstTapeMatches(cfg, s1, b);
    more := Go(cfg, reqs, more, s1, Lookup(1, Picked(Some(0))));
    var s2 := Step(cfg, s1, Lookup(1, Picked(Some(0))));
    OneStrangeExchange(cfg, a, resp, b, s.store[0].response);
    assert s2.threads[1] == Thread(b, Done(Got(s.store[0].response), Hit)) && s2.log == s.log;
  }

  /** A leader with an outcome to publish ends with it. */
  lemma Publishes(cfg: Config, reqs: iset<Request>, acts: seq<Action>, s: State, t: nat) returns (more: seq<Action>, s': State)
    requires Reached(cfg, reqs, acts, s) && t in s.threads && s.threads[t].pc.Publishing? && s.threads[t].pc.call < |s.calls|
    ensures Reached(cfg, reqs, more, s') && s'.log == s.log
    ensures t in s'.threads && s'.threads[t] == Thread(s.threads[t].req, Done(s.threads[t].pc.outcome, s.threads[t].pc.how))
  {
    hide Reached, KeyOf;
    more := Go(cfg, reqs, acts, s, SetResult(t));
    var s1 := Step(cfg, s, SetResult(t));
    more := Go(cfg, reqs, more, s1, Signal(t));
    var s2 := Step(cfg, s1, Signal(t));
    more := Go(cfg, reqs, more, s2, RemoveEntry(t));
    s' := Step(cfg, s2, RemoveEntry(t));
  }

  lemma KeyIsFree(cfg: Config, reqs: iset<Request>, s: State, a: Request, resp: Response, tape: Tape, b: Request)
    requires cfg.singleFlight ==> KeysDistinguish(cfg, reqs)
    requires Cacheable(cfg, reqs, a) && Cacheable(cfg, reqs, b) && !SameCacheKey(cfg, a, b) && Saved(cfg, s, a, resp, tape)
    ensures cfg.singleFlight ==> KeyOf(cfg, b) !in s.sfCalls
  {
    hide KeyOf, SameCacheKey, Oversize;
  }

  /** With the stale fallback: upstream fails, and the stored tape is served. */
  lemma StaleCrosses(cfg: Config, reqs: iset<Request>, acts: seq<Action>, s: State, a: Request, resp: Response, b: Request)
    requires Reached(cfg, reqs, acts, s) && |s.store| == 1 && Saved(cfg, s, a, resp, s.store[0])
    requires Cacheable(cfg, reqs, b) && (cfg.singleFlight ==> KeyOf(cfg, b) !in s.sfCalls)
    requires cfg.staleFallback && Matches(cfg, b, s.store[0]) && !SameCacheKey(cfg, a, b)
    ensures Crosses(cfg, reqs)
  {
    hide Reached, Oversize, Matches, QueryOk, SameCacheKey, KeyOf;
    var more, lead := Leads(cfg, reqs, acts, s, 1, b);
    var s1 := Leading(cfg, s, 1, b);
    more := Go(cfg, reqs, more, s1, CallUpstream(1, TransportError));
    var s2 := Step(cfg, s1, CallUpstream(1, TransportError));
    assert s2.threads[1] == Thread(b, StaleLookup(lead)) && s2.store == s.store && s2.log == s.log;
    assert lead.Some? ==> lead.value < |s2.calls|;
    hide Leading, DoUpstream;
    FirstTapeMatches(cfg, s2, b);
    more := Go(cfg, reqs, more, s2, ServeStale(1, Picked(Some(0))));
    var s3 := Step(cfg, s2, ServeStale(1, Picked(Some(0))));
    var answer := s.store[0].response;
    OneStrangeExchange(cfg, a, resp, b, answer);
    if lead.Some? {
      assert s3.threads[1] == Thread(b, Publishing(lead.value, Got(answer), Stale));
      var s4;
      more, s4 := Publishes(cfg, reqs, more, s3, 1);
      assert s4.log == s.log;
    } else {
      assert s3.threads[1] == Thread(b, Done(Got(answer), Stale)) && s3.log == s.log;
    }
  }

  /** A leader `c` gets a stream while `b` waits for it; its signal frees `b`. */
  lemma WaiterOfStream(cfg: Config, reqs: iset<Request>, acts: seq<Action>, s: State, c: Request, r: Response, b: Request)
    returns (more: seq<Action>, s': State)
    requires Reached(cfg, reqs, acts, s) && Cacheable(cfg, reqs, b) && Cacheable(cfg, reqs, c) && cfg.singleFlight
    requires KeyOf(cfg, c) == KeyOf(cfg, b) && KeyOf(cfg, c) !in s.sfCalls && 1 !in s.threads && 2 !in s.threads && r.sse
    ensures Reached(cfg, reqs, more, s') && s'.store == s.store && s'.log == s.log + [Exchange(c, r)]
    ensures 2 in s'.threads && s'.threads[2] == Thread(b, Requery)
  {
    hide Reached, Oversize, QueryOk, KeyOf;
    var lead;
    more, lead := Leads(cfg, reqs, acts, s, 1, c);
    var s1 := Leading(cfg, s, 1, c);
    more := Enters(cfg, reqs, more, s1, 2, b);
    var s2 := s1.(threads := s1.threads[2 := Thread(b, Enter)]);
    more := Go(cfg, reqs, more, s2, EnterFlight(2));
    var s3 := Step(cfg, s2, EnterFlight(2));
    assert s3.threads[2] == Thread(b, Waiting(|s.calls|)) && s3.threads[1] == Thread(c, AtUpstream(lead));
    assert |s3.calls| == |s.calls| + 1 && s3.calls[|s.calls|].counter == 1 && s3.store == s.store && s3.log == s.log;
    hide Leading, DoEnter;
    more, s' := StreamFrees(cfg, reqs, more, s3, |s.calls|, c, r, b);
  }

  lemma StreamFrees(cfg: Config, reqs: iset<Request>, acts: seq<Action>, s: State, k: nat, c: Request, r: Response, b: Request)
    returns (more: seq<Action>, s': State)
    requires Reached(cfg, reqs, acts, s) && k < |s.calls| && s.calls[k].counter == 1 && r.sse
    requires 1 in s.threads && 2 in s.threads && s.threads[1] == Thread(c, AtUpstream(Some(k))) && s.threads[2] == Thread(b, Waiting(k))
    ensures Reached(cfg, reqs, more, s') && s'.store == s.store && s'.log == s.log + [Exchange(c, r)]
    ensures 2 in s'.threads && s'.threads[2] == Thread(b, Requery)
  {
    hide Reached, KeyOf;
    more := Go(cfg, reqs, acts, s, CallUpstream(1, Reply(r, false)));
    var s1 := Step(cfg, s, CallUpstream(1, Reply(r, false)));
    assert s1.threads[1] == Thread(c, Publishing(k, Got(r), Miss)) && s1.threads[2] == s.threads[2];
    assert s1.store == s.store && s1.log == s.log + [Exchange(c, r)] && |s1.calls| == |s.calls| && s1.calls[k].counter == 1;
    hide DoUpstream, Step, Enabled;
    more, s' := LeaderFrees(cfg, reqs, more, s1, 1, 2, b);
  }

  /** The state behind a waiter's wake-up. */
  predicate Woken(s: State, s': State, w: nat, b: Request, resp: Response) {
    s'.store == s.store && s'.log == s.log && w in s'.threads &&
    s'.threads[w] == Thread(b, if resp.sse then Requery else Done(Got(resp), Shared))
  }

  /** A leader `l` publishes a response, and its waiter `w` wakes up with it. */
  lemma LeaderFrees(cfg: Config, reqs: iset<Request>, acts: seq<Action>, s: State, l: nat, w: nat, b: Request)
    returns (more: seq<Action>, s': State)
    requires Reached(cfg, reqs, acts, s) && l != w && l in s.threads && w in s.threads && s.threads[l].pc.Publishing?
    requires var k := s.threads[l].pc.call;
      k < |s.calls| && s.calls[k].counter == 1 && s.threads[w] == Thread(b, Waiting(k)) && s.threads[l].pc.outcome.Got?
    ensures Reached(cfg, reqs, more, s') && Woken(s, s', w, b, s.threads[l].pc.outcome.resp)
  {
    hide Reached, KeyOf;
    var k, outcome := s.threads[l].pc.call, s.threads[l].pc.outcome;
    more := Go(cfg, reqs, acts, s, SetResult(l));
    var s1 := Step(cfg, s, SetResult(l));
    more := Go(cfg, reqs, more, s1, Signal(l));
    var s2 := Step(cfg, s1, Signal(l));
    assert s2.calls[k].counter == 0 && s2.calls[k].outcome == Some(outcome) && s2.threads[w] == s.threads[w];
    more := Go(cfg, reqs, more, s2, Wake(w));
    s' := Step(cfg, s2, Wake(w));
  }

  /** With single-flight alone: a waiter behind a stream looks the store up itself. */
  lemma RequeryCrosses(cfg: Config, reqs: iset<Request>, acts: seq<Action>, s: State, a: Request, resp: Response, c: Request, r: Response, b: Request)
    requires Reached(cfg, reqs, acts, s) && |s.store| == 1 && Saved(cfg, s, a, resp, s.store[0])
    requires Cacheable(cfg, reqs, b) && Cacheable(cfg, reqs, c) && cfg.singleFlight && KeyOf(cfg, b) !in s.sfCalls
    requires KeyOf(cfg, c) == KeyOf(cfg, b) && r.sse && !Delivers(cfg, Exchange(c, r), s.store[0].response)
    requires Matches(cfg, b, s.store[0]) && !SameCacheKey(cfg, a, b)
    ensures Crosses(cfg, reqs)
  {
    hide Reached, Oversize, Matches, QueryOk, SameCacheKey, KeyOf, Delivers;
    var more, s1 := WaiterOfStream(cfg, reqs, acts, s, c, r, b);
    FirstTapeMatches(cfg, s1, b);
    more := Go(cfg, reqs, more, s1, RequeryStore(2, Picked(Some(0))));
    var s2 := Step(cfg, s1, RequeryStore(2, Picked(Some(0))));
    assert s2.log == [Exchange(a, resp), Exchange(c, r)] && s2.threads[2] == Thread(b, Done(Got(s.store[0].response), Shared));
    assert !Traced(cfg, s2.log, b, s.store[0].response);
  }

  /** Two requests with one key: the second gets the first's answer. */
  lemma ClashingKeysCross(cfg: Config, reqs: iset<Request>, a: Request, b: Request)
    requires cfg.singleFlight && Cacheable(cfg, reqs, a) && Cacheable(cfg, reqs, b)
    requires KeyOf(cfg, a) == KeyOf(cfg, b) && !SameCacheKey(cfg, a, b)
    ensures Crosses(cfg, reqs)
  {
    hide Oversize, QueryOk, KeyOf, SameCacheKey;
    var resp := Response(200, "", false);
    Nothing(cfg, reqs);
    hide Reached;
    var acts, lead := Leads(cfg, reqs, [], INIT, 0, a);
    var s1 := Leading(cfg, INIT, 0, a);
    acts := Enters(cfg, reqs, acts, s1, 1, b);
    var s2 := s1.(threads := s1.threads[1 := Thread(b, Enter)]);
    acts := Go(cfg, reqs, acts, s2, EnterFlight(1));
    var s3 := Step(cfg, s2, EnterFlight(1));
    assert s3.threads == map[0 := Thread(a, AtUpstream(Some(0))), 1 := Thread(b, Waiting(0))];
    assert s3.calls == [Call(KeyOf(cfg, a), 0, 1, None, 0)] && s3.log == [];
    hide Leading, DoEnter;
    SharedCrosses(cfg, reqs, acts, s3, a, b, resp);
  }

  lemma SharedCrosses(cfg: Config, reqs: iset<Request>, acts: seq<Action>, s: State, a: Request, b: Request, resp: Response)
    requires Reached(cfg, reqs, acts, s) && !resp.sse && !SameCacheKey(cfg, a, b) && s.log == []
    requires s.threads == map[0 := Thread(a, AtUpstream(Some(0))), 1 := Thread(b, Waiting(0))]
    requires s.calls == [Call(KeyOf(cfg, a), 0, 1, None, 0)]
    ensures Crosses(cfg, reqs)
  {
    hide Reached, KeyOf, SameCacheKey;
    var up := CallUpstream(0, Reply(resp, false));
    var more := Go(cfg, reqs, acts, s, up);
    var s1 := Step(cfg, s, up);
    assert s1.threads[0] == Thread(a, Publishing(0, Got(resp), Miss)) && s1.threads[1] == s.threads[1];
    assert s1.log == [Exchange(a, resp)] && |s1.calls| == 1 && s1.calls[0].counter == 1;
    hide DoUpstream, Step, Enabled;
    var s2;
    more, s2 := LeaderFrees(cfg, reqs, more, s1, 0, 1, b);
    OneStrangeExchange(cfg, a, resp, b, resp);
    assert s2.threads[1] == Thread(b, Done(Got(resp), Shared)) && s2.log == s1.log;
  }

  /** The tape saved of one request, served to another. */
  lemma ConfusedTapesCross(cfg: Config, reqs: iset<Request>, a: Request, b: Request, id: string, resp: Response)
    requires cfg.singleFlight ==> KeysDistinguish(cfg, reqs)
    requires Cacheable(cfg, reqs, a) && Cacheable(cfg, reqs, b) && Recordable(cfg, resp) && !SameCacheKey(cfg, a, b)
    requires CanGet(cfg, reqs, b, cfg.sanitize(RawTape(cfg, id, a, resp)))
    ensures Crosses(cfg, reqs)
  {
    var tape := cfg.sanitize(RawTape(cfg, id, a, resp));
    hide KeyOf, Oversize, Reached, Crosses, Matches, RawTape, SameCacheKey, Delivers;
    var acts, s := SavesTape(cfg, reqs, a, id, resp);
    KeyIsFree(cfg, reqs, s, a, resp, tape, b);
    if !cfg.lookupDisabled {
      HitCrosses(cfg, reqs, acts, s, a, resp, b);
    } else if cfg.staleFallback {
      StaleCrosses(cfg, reqs, acts, s, a, resp, b);
    } else {
      var c: Request, r: Response :| Cacheable(cfg, reqs, c) && KeyOf(cfg, c) == KeyOf(cfg, b) && r.sse &&
        !Delivers(cfg, Exchange(c, r), tape.response);
      RequeryCrosses(cfg, reqs, acts, s, a, resp, c, r, b);
    }
  }
}
