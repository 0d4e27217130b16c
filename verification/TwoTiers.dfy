/** What the two tiers hold, in every interleaving. */
module TwoTiers {
  import opened Options
  import opened Tapes
  import opened Proxy

  /** The cache filter is the fallback rule turned round. */
  ghost predicate Wired(cfg: Config) {
    forall r: Response :: cfg.ct.cacheFilter(r) == !cfg.isFallback(r)
  }

  /** First tier: raw, never a fallback response, and buffered bodies whole. */
  predicate L1Ok(cfg: Config, e: Entry) {
    e.tape == Raw(cfg, e.id, e.src) && !cfg.isFallback(e.src.resp) && (e.src.resp.sse || e.src.whole)
  }

  /** Second tier: a sanitizer output, and never a buffered fallback response. */
  predicate L2Ok(cfg: Config, e: Entry) {
    e.tape == cfg.ct.sanitize(Raw(cfg, e.id, e.src)) && (e.src.resp.sse || !cfg.isFallback(e.src.resp))
  }

  predicate PcOk(cfg: Config, pc: Pc) {
    match pc
    case SavingL1(_, _, src) => !cfg.isFallback(src.resp) && !src.resp.sse && src.whole
    case SavingL2(_, src) => !cfg.isFallback(src.resp) && !src.resp.sse
    case _ => true
  }

  predicate TiersOk(cfg: Config, s: State) {
    (forall i :: 0 <= i < |s.l1| ==> L1Ok(cfg, s.l1[i])) &&
    (forall i :: 0 <= i < |s.l2| ==> L2Ok(cfg, s.l2[i])) &&
    (forall i :: 0 <= i < |s.l1Streams| ==> s.l1Streams[i].resp.sse && !cfg.isFallback(s.l1Streams[i].resp)) &&
    (forall i :: 0 <= i < |s.l2Streams| ==> s.l2Streams[i].resp.sse)
  }

  ghost predicate Inv(cfg: Config, s: State) {
    TiersOk(cfg, s) && forall t :: t in s.threads ==> PcOk(cfg, s.threads[t].pc)
  }

  lemma ReturnIsOk(cfg: Config, lead: Option<nat>, outcome: Outcome)
    ensures PcOk(cfg, Return(lead, outcome))
  {
  }

  lemma NextPcsAreOk(cfg: Config, s: State, req: Request, lead: Option<nat>, bypass: bool, reply: Reply, o: Outcome, q: Query)
    ensures PcOk(cfg, AfterInner(cfg, req, lead, bypass, reply))
    ensures PcOk(cfg, AfterWake(o)) && PcOk(cfg, AfterRequery(s, q)) && PcOk(cfg, AfterDecide(cfg, o))
    ensures PcOk(cfg, AfterLook(s.l1, q, FallbackL2(o))) && PcOk(cfg, AfterLook(s.l2, q, Done(Original(o))))
  {
  }

  lemma PassOnIsOk(cfg: Config, s: State, t: nat)
    requires Wired(cfg) && t in s.threads && s.threads[t].pc.ToL2?
    ensures PcOk(cfg, DoPassOn(cfg, s, t).threads[t].pc)
    ensures TiersOk(cfg, s) ==> TiersOk(cfg, DoPassOn(cfg, s, t))
  {
    hide L1Ok, L2Ok;
    ReturnIsOk(cfg, s.threads[t].pc.lead, Got(s.threads[t].pc.src.resp));
  }

  /** The moves after a flight has landed. */
  lemma LaterPcsAreOk(cfg: Config, s: State, a: Action)
    requires Inv(cfg, s) && Enabled(cfg, s, a)
    requires a.Wake? || a.RequeryL2? || a.Decide? || a.LookL1? || a.LookL2?
    ensures forall t :: t in Step(cfg, s, a).threads ==> PcOk(cfg, Step(cfg, s, a).threads[t].pc)
  {
    hide TiersOk, Raw, LookupOk, RequeryOk, AfterInner, AfterWake, AfterRequery, AfterDecide, AfterLook;
    var pc := s.threads[a.t].pc;
    var o := if a.Wake? then s.flights[pc.flight].outcome.value else if a.RequeryL2? then Failed else pc.outcome;
    var q := if a.RequeryL2? || a.LookL1? || a.LookL2? then a.q else ListFailed;
    NextPcsAreOk(cfg, s, s.threads[a.t].req, None, false, Reply.TransportError, o, q);
  }

  lemma StepKeepsPcs(cfg: Config, s: State, a: Action)
    requires Inv(cfg, s) && Wired(cfg) && Enabled(cfg, s, a)
    ensures forall t :: t in Step(cfg, s, a).threads ==> PcOk(cfg, Step(cfg, s, a).threads[t].pc)
  {
    hide TiersOk, Raw, LookupOk, RequeryOk, AfterInner, AfterWake, AfterRequery, AfterDecide, AfterLook;
    match a
    case InnerReply(t, reply) => NextPcsAreOk(cfg, s, s.threads[t].req, s.threads[t].pc.lead, s.threads[t].pc.bypass, reply, Failed, ListFailed);
    case Wake(_) => LaterPcsAreOk(cfg, s, a);
    case RequeryL2(_, _) => LaterPcsAreOk(cfg, s, a);
    case Decide(_) => LaterPcsAreOk(cfg, s, a);
    case LookL1(_, _) => LaterPcsAreOk(cfg, s, a);
    case LookL2(_, _) => LaterPcsAreOk(cfg, s, a);
    case SaveL2(t, _, _) => ReturnIsOk(cfg, s.threads[t].pc.lead, Got(s.threads[t].pc.src.resp));
    case PassOn(t) => PassOnIsOk(cfg, s, t);
    case _ =>
  }

  lemma EntryAdded(cfg: Config, s: State, s': State)
    requires TiersOk(cfg, s) && s'.l1Streams == s.l1Streams && s'.l2Streams == s.l2Streams
    requires s'.l1 == s.l1 || (|s'.l1| == |s.l1| + 1 && s.l1 <= s'.l1 && L1Ok(cfg, s'.l1[|s.l1|]))
    requires s'.l2 == s.l2 || (|s'.l2| == |s.l2| + 1 && s.l2 <= s'.l2 && L2Ok(cfg, s'.l2[|s.l2|]))
    ensures TiersOk(cfg, s')
  {
    hide L1Ok, L2Ok;
  }

  lemma StepKeepsTiers(cfg: Config, s: State, a: Action)
    requires Inv(cfg, s) && Wired(cfg) && Enabled(cfg, s, a)
    ensures TiersOk(cfg, Step(cfg, s, a))
  {
    hide Wired, Raw, LookupOk, RequeryOk, AfterInner, AfterWake, AfterRequery, AfterDecide, AfterLook, Return;
    match a
    case SaveL1(t, _, _) => SaveKeepsTiers(cfg, s, a);
    case SaveL2(t, _, _) => SaveKeepsTiers(cfg, s, a);
    case StreamL1(i, _) => SaveKeepsTiers(cfg, s, a);
    case StreamL2(i, _) => SaveKeepsTiers(cfg, s, a);
    case PassOn(t) => PassOnIsOk(cfg, s, t);
    case _ => hide L1Ok, L2Ok;
  }

  lemma SaveKeepsTiers(cfg: Config, s: State, a: Action)
    requires Inv(cfg, s) && Enabled(cfg, s, a)
    requires a.SaveL1? || a.SaveL2? || a.StreamL1? || a.StreamL2?
    ensures TiersOk(cfg, Step(cfg, s, a))
  {
    hide Raw, Return;
    EntryAdded(cfg, s, Step(cfg, s, a));
  }

  lemma {:induction false} RunKeepsInv(cfg: Config, s: State, acts: seq<Action>)
    requires Inv(cfg, s) && Wired(cfg) && Runs(cfg, s, acts)
    ensures Inv(cfg, After(cfg, s, acts))
    decreases |acts|
  {
    if acts != [] {
      StepKeepsTiers(cfg, s, acts[0]);
      StepKeepsPcs(cfg, s, acts[0]);
      hide TiersOk, PcOk, Wired, Enabled, Step;
      RunKeepsInv(cfg, Step(cfg, s, acts[0]), acts[1..]);
    }
  }

  // ----- the statements -----

  /** In every run, over a second tier that is in order, every tape in the second
      tier is a sanitizer output and no buffered fallback response is in either
      tier; the first tier holds no fallback response at all, and no cut body. */
  lemma TiersStayInOrder(cfg: Config, l2: seq<Entry>, acts: seq<Action>)
    requires Wired(cfg) && Runs(cfg, Init(l2), acts) && forall i :: 0 <= i < |l2| ==> L2Ok(cfg, l2[i])
    ensures var s := After(cfg, Init(l2), acts);
      (forall e :: e in s.l1 ==> L1Ok(cfg, e)) && (forall e :: e in s.l2 ==> L2Ok(cfg, e))
  {
    hide L1Ok, L2Ok, Wired;
    RunKeepsInv(cfg, Init(l2), acts);
  }

  lemma RunCons(cfg: Config, s: State, a: Action, rest: seq<Action>)
    requires Enabled(cfg, s, a) && Runs(cfg, Step(cfg, s, a), rest)
    ensures Runs(cfg, s, [a] + rest) && After(cfg, s, [a] + rest) == After(cfg, Step(cfg, s, a), rest)
  {
    hide Enabled, Step;
    assert ([a] + rest)[1..] == rest;
  }

  lemma EmptyRun(cfg: Config, s: State)
    ensures Runs(cfg, s, []) && After(cfg, s, []) == s
  {
  }

  const PROBE := Request("GET", "/", "", "")

  /** Some run of a fresh proxy puts a tape made of this response in the second tier. */
  ghost predicate ReachesL2(cfg: Config, resp: Response, whole: bool) {
    exists acts: seq<Action>, e: Entry ::
      Runs(cfg, Init([]), acts) && e in After(cfg, Init([]), acts).l2 && e.src.resp == resp && e.src.whole == whole
  }

  /** One request led through the proxy with this reply, up to a last save. */
  lemma LeadThrough(cfg: Config, resp: Response, whole: bool, last: Action) returns (acts: seq<Action>)
    requires cfg.isFallback(resp) || resp.sse || !whole
    requires last == (if resp.sse then StreamL2(0, "") else SaveL2(0, "", true))
    requires resp.sse || (!cfg.isFallback(resp) && cfg.ct.cacheFilter(resp))
    ensures Runs(cfg, Init([]), acts)
    ensures var s := After(cfg, Init([]), acts); |s.l2| == 1 && s.l2[0].src == Source(PROBE, resp, whole)
  {
    hide Raw;
    var s0 := Init([]);
    var s1 := Step(cfg, s0, Arrive(0, PROBE));
    var s2 := Step(cfg, s1, Lead(0));
    var s3 := Step(cfg, s2, InnerReply(0, Resp(resp, whole)));
    var s4 := Step(cfg, s3, PassOn(0));
    assert Enabled(cfg, s4, last);
    assert Enabled(cfg, s0, Arrive(0, PROBE)) && Enabled(cfg, s1, Lead(0));
    assert Enabled(cfg, s2, InnerReply(0, Resp(resp, whole))) && Enabled(cfg, s3, PassOn(0));
    assert |Step(cfg, s4, last).l2| == 1 && Step(cfg, s4, last).l2[0].src == Source(PROBE, resp, whole);
    hide Enabled, Step, Runs, After;
    EmptyRun(cfg, Step(cfg, s4, last));
    RunCons(cfg, s4, last, []);
    RunCons(cfg, s3, PassOn(0), [last] + []);
    RunCons(cfg, s2, InnerReply(0, Resp(resp, whole)), [PassOn(0)] + ([last] + []));
    acts := [InnerReply(0, Resp(resp, whole))] + ([PassOn(0)] + ([last] + []));
    RunCons(cfg, s1, Lead(0), acts);
    RunCons(cfg, s0, Arrive(0, PROBE), [Lead(0)] + acts);
    acts := [Arrive(0, PROBE)] + ([Lead(0)] + acts);
  }

  lemma ReachedIsOk(cfg: Config, resp: Response, whole: bool)
    requires Wired(cfg) && ReachesL2(cfg, resp, whole)
    ensures resp.sse || !cfg.isFallback(resp)
  {
    var acts: seq<Action>, e: Entry :| Runs(cfg, Init([]), acts) && e in After(cfg, Init([]), acts).l2 &&
      e.src.resp == resp && e.src.whole == whole;
    TiersStayInOrder(cfg, [], acts);
    assert L2Ok(cfg, e);
  }

  /** A response classed as fallback can end up in the second tier exactly when it is
      an event stream: streams go round the cache filter. */
  lemma FallbackReachesL2IffStream(cfg: Config, resp: Response)
    requires Wired(cfg) && cfg.isFallback(resp)
    ensures ReachesL2(cfg, resp, true) || ReachesL2(cfg, resp, false) <==> resp.sse
  {
    if resp.sse {
      var acts := LeadThrough(cfg, resp, true, StreamL2(0, ""));
      var s := After(cfg, Init([]), acts);
      assert s.l2[0] in s.l2;
    } else if ReachesL2(cfg, resp, true) {
      ReachedIsOk(cfg, resp, true);
    } else if ReachesL2(cfg, resp, false) {
      ReachedIsOk(cfg, resp, false);
    }
  }

  /** A buffered response whose body could not be read to the end can end up in the
      second tier, cut, exactly when it is not classed as fallback; it never ends up
      in the first (`TiersStayInOrder`). */
  lemma CutBodyReachesL2IffNotFallback(cfg: Config, resp: Response)
    requires Wired(cfg) && !resp.sse
    ensures ReachesL2(cfg, resp, false) <==> !cfg.isFallback(resp)
  {
    if !cfg.isFallback(resp) {
      var acts := LeadThrough(cfg, resp, false, SaveL2(0, "", true));
      var s := After(cfg, Init([]), acts);
      assert s.l2[0] in s.l2;
    } else if ReachesL2(cfg, resp, false) {
      ReachedIsOk(cfg, resp, false);
    }
  }

  /** Every proxy the constructor makes is wired that way, so all of this holds of it: its
      filter is the fallback rule turned round, in every run and for every response. */
  lemma NewProxyIsWired(isFallback: Response -> bool, fallbackOnError: bool, sanitize: Tape -> Tape, hash: string -> string, route: string, l2: seq<Entry>, acts: seq<Action>)
    requires var cfg := NewProxy(isFallback, fallbackOnError, sanitize, hash, route);
      Runs(cfg, Init(l2), acts) && forall i :: 0 <= i < |l2| ==> L2Ok(cfg, l2[i])
    ensures var cfg := NewProxy(isFallback, fallbackOnError, sanitize, hash, route);
      Wired(cfg) && cfg.ct.lookupDisabled && cfg.ct.singleFlight && cfg.ct.sseRecording && !cfg.ct.staleFallback &&
      cfg.ct.maxBodySize == 10485760
    ensures var cfg := NewProxy(isFallback, fallbackOnError, sanitize, hash, route);
      forall e :: e in After(cfg, Init(l2), acts).l1 ==> !isFallback(e.src.resp) && e.tape.route == route
  {
    var cfg := NewProxy(isFallback, fallbackOnError, sanitize, hash, route);
    TiersStayInOrder(cfg, l2, acts);
    var s := After(cfg, Init(l2), acts);
    forall e | e in s.l1 ensures !isFallback(e.src.resp) && e.tape.route == route {
      var i :| 0 <= i < |s.l1| && s.l1[i] == e;
      assert L1Ok(cfg, s.l1[i]);
    }
  }
}
