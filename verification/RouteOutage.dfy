/** When the proxy keeps a route available, exactly. */
module RouteOutage {
  import opened Options
  import opened Tapes
  import CachingTransport
  import CacheKeys
  import opened Proxy
  import opened ProxyAvailability

  /** A smooth run from `from` to `s` with these requests, in which the lookups of `t` work. */
  ghost predicate Leads(cfg: Config, reqs: iset<Request>, route: Request, t: nat, from: State, acts: seq<Action>, s: State) {
    Runs(cfg, from, acts) && SmoothRun(cfg, reqs, from, acts, route) && After(cfg, from, acts) == s &&
    forall i :: 0 <= i < |acts| ==> ListsWork(acts[i], t)
  }

  predicate Fits(reqs: iset<Request>, route: Request, t: nat, s: State, a: Action) {
    Smooth(s, a, route) && (a.Arrive? ==> a.req in reqs) && ListsWork(a, t)
  }

  lemma {:induction false} Go(cfg: Config, reqs: iset<Request>, route: Request, t: nat, from: State, acts: seq<Action>, s: State, a: Action)
    returns (more: seq<Action>)
    requires Leads(cfg, reqs, route, t, from, acts, s) && Enabled(cfg, s, a) && Fits(reqs, route, t, s, a)
    ensures Leads(cfg, reqs, route, t, from, more, Step(cfg, s, a))
    decreases |acts|
  {
    hide Enabled, Step, Smooth, ListsWork;
    if acts == [] {
      more := [a];
      assert more[1..] == [] && more[0] == a;
      assert Runs(cfg, from, more);
      assert SmoothRun(cfg, reqs, from, more, route);
      assert After(cfg, from, more) == Step(cfg, s, a);
    } else {
      var first, s1 := acts[0], Step(cfg, from, acts[0]);
      assert forall i :: 0 <= i < |acts[1..]| ==> acts[1..][i] == acts[i + 1];
      var rest := Go(cfg, reqs, route, t, Step(cfg, from, first), acts[1..], s, a);
      more := [first] + rest;
      assert more[1..] == rest && more[0] == first;
      assert ListsWork(first, t);
      forall i | 0 <= i < |more| ensures ListsWork(more[i], t) {
        if i > 0 { assert more[i] == rest[i - 1]; }
      }
      assert Runs(cfg, from, more);
      assert SmoothRun(cfg, reqs, from, more, route);
      assert After(cfg, from, more) == Step(cfg, s, a);
    }
  }

  lemma Nothing(cfg: Config, reqs: iset<Request>, route: Request, t: nat, s: State)
    ensures Leads(cfg, reqs, route, t, s, [], s)
  {
  }

  /** What the run needs: `a` is on the route, `b` is not, and they share a key. */
  ghost predicate Clash(cfg: Config, reqs: iset<Request>, route: Request, a: Request, b: Request) {
    CacheKeys.Cacheable(cfg.ct, reqs, a) && CacheKeys.Cacheable(cfg.ct, reqs, b) && SameRequestRoute(a, route) &&
    !SameRequestRoute(b, route) && CachingTransport.KeyOf(cfg.ct, a) == CachingTransport.KeyOf(cfg.ct, b)
  }

  /** A response that is passed on live, not as a stream. */
  predicate PlainAnswer(cfg: Config, r: Response) { !r.sse && !cfg.isFallback(r) }

  /** `a` waits for the flight `b` leads. */
  lemma JoinsStranger(cfg: Config, reqs: iset<Request>, route: Request, a: Request, b: Request) returns (acts: seq<Action>, s: State)
    requires Clash(cfg, reqs, route, a, b)
    ensures Leads(cfg, reqs, route, 2, Init([]), acts, s)
    ensures s == State(map[0 := Thread(b, AtInner(Some(0), false)), 1 := Thread(a, Waiting(0))], [Flight(b, None)], [], [], [], [])
  {
    hide Leads, CachingTransport.KeyOf, CachingTransport.Oversize;
    Nothing(cfg, reqs, route, 2, Init([]));
    acts := Go(cfg, reqs, route, 2, Init([]), [], Init([]), Arrive(0, b));
    var s1 := Step(cfg, Init([]), Arrive(0, b));
    acts := Go(cfg, reqs, route, 2, Init([]), acts, s1, Lead(0));
    var s2 := Step(cfg, s1, Lead(0));
    acts := Go(cfg, reqs, route, 2, Init([]), acts, s2, Arrive(1, a));
    var s3 := Step(cfg, s2, Arrive(1, a));
    acts := Go(cfg, reqs, route, 2, Init([]), acts, s3, Join(1, 0));
    s := Step(cfg, s3, Join(1, 0));
  }

  /** The leader records its answer, off the route. */
  lemma StrangerRecords(cfg: Config, reqs: iset<Request>, route: Request, a: Request, b: Request, r: Response, acts: seq<Action>, s: State)
    returns (more: seq<Action>, s': State)
    requires Clash(cfg, reqs, route, a, b) && PlainAnswer(cfg, r) && Leads(cfg, reqs, route, 2, Init([]), acts, s)
    requires s == State(map[0 := Thread(b, AtInner(Some(0), false)), 1 := Thread(a, Waiting(0))], [Flight(b, None)], [], [], [], [])
    ensures Leads(cfg, reqs, route, 2, Init([]), more, s')
    ensures var src := Source(b, r, true);
      s' == State(map[0 := Thread(b, ToL2(Some(0), false, src, true)), 1 := Thread(a, Waiting(0))], [Flight(b, None)],
                  [Entry("", src, Raw(cfg, "", src))], [], [], [])
  {
    hide Leads, Raw, CachingTransport.KeyOf, CachingTransport.Oversize;
    more := Go(cfg, reqs, route, 2, Init([]), acts, s, InnerReply(0, Resp(r, true)));
    var s1 := Step(cfg, s, InnerReply(0, Resp(r, true)));
    assert s1.threads == map[0 := Thread(b, SavingL1(Some(0), false, Source(b, r, true))), 1 := Thread(a, Waiting(0))];
    hide DoInner;
    more := Go(cfg, reqs, route, 2, Init([]), more, s1, SaveL1(0, "", true));
    s' := Step(cfg, s1, SaveL1(0, "", true));
  }

  /** It fails to record it in the second tier, if it tries, and publishes it. */
  lemma StrangerPublishes(cfg: Config, reqs: iset<Request>, route: Request, a: Request, src: Source, acts: seq<Action>, s: State)
    returns (more: seq<Action>, s': State)
    requires !src.resp.sse && Leads(cfg, reqs, route, 2, Init([]), acts, s)
    requires s.threads == map[0 := Thread(src.req, ToL2(Some(0), false, src, true)), 1 := Thread(a, Waiting(0))]
    requires s.flights == [Flight(src.req, None)]
    ensures Leads(cfg, reqs, route, 2, Init([]), more, s')
    ensures s' == State(map[0 := Thread(src.req, Deciding(Got(src.resp))), 1 := Thread(a, Waiting(0))],
                        [Flight(src.req, Some(Got(src.resp)))], s.l1, s.l2, s.l1Streams, s.l2Streams)
  {
    hide Leads, Raw;
    var s1;
    more, s1 := StrangerReturns(cfg, reqs, route, a, src, acts, s);
    more := Go(cfg, reqs, route, 2, Init([]), more, s1, Publish(0));
    s' := Step(cfg, s1, Publish(0));
  }

  lemma StrangerReturns(cfg: Config, reqs: iset<Request>, route: Request, a: Request, src: Source, acts: seq<Action>, s: State)
    returns (more: seq<Action>, s': State)
    requires !src.resp.sse && Leads(cfg, reqs, route, 2, Init([]), acts, s)
    requires s.threads == map[0 := Thread(src.req, ToL2(Some(0), false, src, true)), 1 := Thread(a, Waiting(0))]
    ensures Leads(cfg, reqs, route, 2, Init([]), more, s')
    ensures s' == s.(threads := map[0 := Thread(src.req, Publishing(0, Got(src.resp))), 1 := Thread(a, Waiting(0))])
  {
    hide Leads, Raw;
    more := Go(cfg, reqs, route, 2, Init([]), acts, s, PassOn(0));
    s' := Step(cfg, s, PassOn(0));
    if s'.threads[0].pc.SavingL2? {
      more := Go(cfg, reqs, route, 2, Init([]), more, s', SaveL2(0, "", false));
      s' := Step(cfg, s', SaveL2(0, "", false));
    }
    assert s'.threads == map[0 := Thread(src.req, Publishing(0, Got(src.resp))), 1 := Thread(a, Waiting(0))];
  }

  /** `a` is answered live with the stranger's answer. */
  lemma LiveWithoutTape(cfg: Config, reqs: iset<Request>, route: Request, a: Request, b: Request, r: Response)
    returns (acts: seq<Action>, s: State)
    requires Clash(cfg, reqs, route, a, b) && PlainAnswer(cfg, r)
    ensures Leads(cfg, reqs, route, 2, Init([]), acts, s) && AnsweredLive(s, 1, route)
    ensures 2 !in s.threads && s.l2 == [] && |s.l1| == 1 && !SameRoute(a, s.l1[0].tape)
  {
    acts, s := JoinsStranger(cfg, reqs, route, a, b);
    acts, s := StrangerRecords(cfg, reqs, route, a, b, r, acts, s);
    acts, s := StrangerPublishes(cfg, reqs, route, a, Source(b, r, true), acts, s);
    hide Leads, CachingTransport.KeyOf, CachingTransport.Oversize;
    acts := Go(cfg, reqs, route, 2, Init([]), acts, s, Wake(1));
    var s1 := Step(cfg, s, Wake(1));
    acts := Go(cfg, reqs, route, 2, Init([]), acts, s1, Decide(1));
    s := Step(cfg, s1, Decide(1));
  }

  /** When upstream fails, the next request of the route finds nothing. */
  lemma NextIsLost(cfg: Config, reqs: iset<Request>, route: Request, a: Request, s: State) returns (acts: seq<Action>, s': State)
    requires CacheKeys.Cacheable(cfg.ct, reqs, a) && SameRequestRoute(a, route) && cfg.fallbackOnError
    requires 2 !in s.threads && s.l2 == [] && |s.l1| == 1 && !SameRoute(a, s.l1[0].tape)
    ensures Leads(cfg, reqs, route, 2, s, acts, s') && !Answered(s', 2, route)
  {
    hide Leads, CachingTransport.KeyOf, CachingTransport.Oversize, SameRoute;
    Nothing(cfg, reqs, route, 2, s);
    var f := |s.flights|;
    acts := Go(cfg, reqs, route, 2, s, [], s, Arrive(2, a));
    var s1 := Step(cfg, s, Arrive(2, a));
    acts := Go(cfg, reqs, route, 2, s, acts, s1, Lead(2));
    var s2 := Step(cfg, s1, Lead(2));
    acts := Go(cfg, reqs, route, 2, s, acts, s2, InnerReply(2, TransportError));
    var s3 := Step(cfg, s2, InnerReply(2, TransportError));
    assert s3.threads[2] == Thread(a, Publishing(f, Failed)) && s3.l1 == s.l1 && s3.l2 == [];
    acts, s' := FallsBack(cfg, reqs, route, a, s, acts, s3, f);
  }

  lemma FallsBack(cfg: Config, reqs: iset<Request>, route: Request, a: Request, from: State, acts: seq<Action>, s: State, f: nat)
    returns (more: seq<Action>, s': State)
    requires Leads(cfg, reqs, route, 2, from, acts, s) && SameRequestRoute(a, route) && cfg.fallbackOnError
    requires 2 in s.threads && s.threads[2] == Thread(a, Publishing(f, Failed)) && s.l2 == [] && |s.l1| == 1 && !SameRoute(a, s.l1[0].tape)
    ensures Leads(cfg, reqs, route, 2, from, more, s') && !Answered(s', 2, route)
  {
    hide Leads, SameRoute;
    more := Go(cfg, reqs, route, 2, from, acts, s, Publish(2));
    var s1 := Step(cfg, s, Publish(2));
    more := Go(cfg, reqs, route, 2, from, more, s1, Decide(2));
    var s2 := Step(cfg, s1, Decide(2));
    assert s2.threads[2] == Thread(a, FallbackL1(Failed)) && s2.l1 == s.l1 && s2.l2 == [];
    more, s' := LooksInVain(cfg, reqs, route, a, from, more, s2);
  }

  lemma LooksInVain(cfg: Config, reqs: iset<Request>, route: Request, a: Request, from: State, acts: seq<Action>, s: State)
    returns (more: seq<Action>, s': State)
    requires Leads(cfg, reqs, route, 2, from, acts, s) && SameRequestRoute(a, route)
    requires 2 in s.threads && s.threads[2] == Thread(a, FallbackL1(Failed)) && s.l2 == [] && |s.l1| == 1 && !SameRoute(a, s.l1[0].tape)
    ensures Leads(cfg, reqs, route, 2, from, more, s') && !Answered(s', 2, route)
  {
    hide Leads, SameRoute;
    more := Go(cfg, reqs, route, 2, from, acts, s, LookL1(2, Picked(None)));
    var s1 := Step(cfg, s, LookL1(2, Picked(None)));
    more := Go(cfg, reqs, route, 2, from, more, s1, LookL2(2, Picked(None)));
    s' := Step(cfg, s1, LookL2(2, Picked(None)));
  }

  lemma ClashMakesOutage(cfg: Config, reqs: iset<Request>, route: Request, a: Request, b: Request, r: Response)
    requires Clash(cfg, reqs, route, a, b) && PlainAnswer(cfg, r) && cfg.fallbackOnError
    ensures !StaysAvailable(cfg, reqs, route)
  {
    var acts, s := LiveWithoutTape(cfg, reqs, route, a, b, r);
    var more, s' := NextIsLost(cfg, reqs, route, a, s);
    hide SmoothRun, Runs, After, AnsweredLive, Answered, ListsWork, Clash;
    assert s == After(cfg, Init([]), acts) && s' == After(cfg, s, more);
  }

  /** With the fallback on errors, and any response at all that is passed on live, a
      route stays available in every run with these requests if and only if none of
      them off the route shares a single-flight key with one on it. */
  lemma StaysAvailableIffClear(cfg: Config, reqs: iset<Request>, route: Request)
    requires cfg.fallbackOnError && exists r: Response :: PlainAnswer(cfg, r)
    ensures StaysAvailable(cfg, reqs, route) <==> RouteIsClear(cfg, reqs, route)
  {
    hide StaysAvailable, SameRequestRoute, CachingTransport.KeyOf, CachingTransport.Oversize;
    if RouteIsClear(cfg, reqs, route) {
      LaterRequestsAreAnswered(cfg, reqs, route);
    } else {
      var a, b :| CacheKeys.Cacheable(cfg.ct, reqs, a) && CacheKeys.Cacheable(cfg.ct, reqs, b) &&
        CachingTransport.KeyOf(cfg.ct, a) == CachingTransport.KeyOf(cfg.ct, b) && SameRequestRoute(a, route) && !SameRequestRoute(b, route);
      var r :| PlainAnswer(cfg, r);
      ClashMakesOutage(cfg, reqs, route, a, b, r);
    }
  }

  /** Ordinary requests keep every route available. */
  lemma OrdinaryRequestsStayAvailable(cfg: Config, reqs: iset<Request>, route: Request)
    requires cfg.fallbackOnError && CacheKeys.HashIsPlain(cfg.ct) && forall r :: r in reqs ==> CacheKeys.Rooted(r)
    ensures StaysAvailable(cfg, reqs, route)
  {
    CacheKeys.RootedKeysDistinguish(cfg.ct, reqs);
    assert RouteIsClear(cfg, reqs, route) by { hide CachingTransport.KeyOf, CachingTransport.Oversize; }
    LaterRequestsAreAnswered(cfg, reqs, route);
  }
}
