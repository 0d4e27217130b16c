/** Nothing the proxy is to record is left out, in either tier. */
module ProxyRecords {
  import opened Options
  import opened Tapes
  import CachingTransport
  import opened Proxy
  import opened ProxyAnswers
  import opened ProxyTapes

  datatype Stage = Before | InL1 | Between(src: Source, readable: bool, bypass: bool) | InL2 | Behind

  /** Where a thread is with upstream's reply. */
  function StageOf(pc: Pc): Stage {
    match pc
    case Enter => Before
    case Waiting(_) => Before
    case Requery => Before
    case AtInner(_, _) => Before
    case SavingL1(_, _, _) => InL1
    case ToL2(_, bypass, src, readable) => Between(src, readable, bypass)
    case SavingL2(_, _) => InL2
    case _ => Behind
  }

  ghost predicate NotAsked(acts: seq<Action>, t: nat) { forall reply: Reply :: InnerReply(t, reply) !in acts }

  /** The only reply of upstream's to the thread. */
  ghost predicate OnlyReply(acts: seq<Action>, t: nat, src: Source) {
    forall resp, whole :: InnerReply(t, Resp(resp, whole)) in acts ==> resp == src.resp && whole == src.whole
  }

  ghost predicate TriedL1(acts: seq<Action>, t: nat) { exists id: string, ok: bool :: SaveL1(t, id, ok) in acts }

  ghost predicate TriedL2(acts: seq<Action>, t: nat) { exists id: string, ok: bool :: SaveL2(t, id, ok) in acts }

  /** What the first tier is to keep, other than streams. */
  predicate ForL1(cfg: Config, resp: Response, whole: bool) { whole && !resp.sse && !cfg.isFallback(resp) }

  /** What the second is: a cut body too, if the first tier did not look at it. */
  predicate ForL2(cfg: Config, req: Request, resp: Response, whole: bool) {
    !Large(cfg, req) && !resp.sse && cfg.ct.cacheFilter(resp) && (whole || !cfg.isFallback(resp))
  }

  ghost predicate DoneWithL1(cfg: Config, acts: seq<Action>, t: nat) {
    forall resp, whole :: InnerReply(t, Resp(resp, whole)) in acts && ForL1(cfg, resp, whole) ==> TriedL1(acts, t)
  }

  ghost predicate DoneWithL2(cfg: Config, acts: seq<Action>, t: nat, req: Request) {
    forall resp, whole :: InnerReply(t, Resp(resp, whole)) in acts && ForL2(cfg, req, resp, whole) ==> TriedL2(acts, t)
  }

  ghost predicate TriedSoFar(cfg: Config, acts: seq<Action>, t: nat, th: Thread) {
    (th.pc.AtInner? && th.pc.bypass ==> Large(cfg, th.req)) && (th.pc.SavingL1? ==> (th.pc.bypass ==> Large(cfg, th.req)) && th.pc.src.whole) &&
    match StageOf(th.pc)
    case Before => NotAsked(acts, t)
    case InL1 => OnlyReply(acts, t, th.pc.src)
    case Between(src, readable, bypass) =>
      DoneWithL1(cfg, acts, t) && OnlyReply(acts, t, src) && (bypass ==> Large(cfg, th.req)) &&
      (readable <==> src.whole || !cfg.isFallback(src.resp))
    case InL2 => DoneWithL1(cfg, acts, t) && OnlyReply(acts, t, th.pc.src) && !th.pc.src.resp.sse
    case Behind => DoneWithL1(cfg, acts, t) && DoneWithL2(cfg, acts, t, th.req)
  }

  ghost predicate AllTried(cfg: Config, acts: seq<Action>, s: State) {
    (forall t :: t in s.threads ==> TriedSoFar(cfg, acts, t, s.threads[t])) &&
    forall a :: a in acts && !a.StreamL1? && !a.StreamL2? ==> a.t in s.threads
  }

  lemma OtherStays(cfg: Config, acts: seq<Action>, a: Action, t: nat, th: Thread)
    requires TriedSoFar(cfg, acts, t, th) && (a.StreamL1? || a.StreamL2? || a.t != t)
    ensures TriedSoFar(cfg, acts + [a], t, th)
  {
    hide ForL1, ForL2, Large;
    assert forall b :: b in acts + [a] <==> b in acts || b == a;
  }

  /** The thread's own move, unless it is a reply. */
  lemma OwnMoveStays(acts: seq<Action>, a: Action, t: nat)
    requires !a.InnerReply?
    ensures NotAsked(acts, t) ==> NotAsked(acts + [a], t)
    ensures forall src :: OnlyReply(acts, t, src) ==> OnlyReply(acts + [a], t, src)
    ensures forall cfg :: DoneWithL1(cfg, acts, t) ==> DoneWithL1(cfg, acts + [a], t)
    ensures forall cfg, req :: DoneWithL2(cfg, acts, t, req) ==> DoneWithL2(cfg, acts + [a], t, req)
  {
    hide ForL1, ForL2;
    assert forall b :: b in acts + [a] <==> b in acts || b == a;
  }

  lemma ReplyIsTried(cfg: Config, acts: seq<Action>, s: State, t: nat, reply: Reply)
    requires Enabled(cfg, s, InnerReply(t, reply)) && TriedSoFar(cfg, acts, t, s.threads[t])
    ensures var s' := Step(cfg, s, InnerReply(t, reply)); t in s'.threads && TriedSoFar(cfg, acts + [InnerReply(t, reply)], t, s'.threads[t])
  {
    var a := InnerReply(t, reply);
    assert forall b :: b in acts + [a] <==> b in acts || b == a;
    hide Large, TriedL1, TriedL2;
  }

  lemma SaveL1IsTried(cfg: Config, acts: seq<Action>, s: State, t: nat, id: string, ok: bool)
    requires Enabled(cfg, s, SaveL1(t, id, ok)) && TriedSoFar(cfg, acts, t, s.threads[t])
    ensures var s' := Step(cfg, s, SaveL1(t, id, ok)); t in s'.threads && TriedSoFar(cfg, acts + [SaveL1(t, id, ok)], t, s'.threads[t])
  {
    var a := SaveL1(t, id, ok);
    OwnMoveStays(acts, a, t);
    assert a in acts + [a];
    assert TriedL1(acts + [a], t);
    hide Raw, Large, ForL1, TriedL1, OnlyReply;
  }

  lemma SaveL2IsTried(cfg: Config, acts: seq<Action>, s: State, t: nat, id: string, ok: bool)
    requires Enabled(cfg, s, SaveL2(t, id, ok)) && TriedSoFar(cfg, acts, t, s.threads[t])
    ensures var s' := Step(cfg, s, SaveL2(t, id, ok)); t in s'.threads && TriedSoFar(cfg, acts + [SaveL2(t, id, ok)], t, s'.threads[t])
  {
    var a := SaveL2(t, id, ok);
    OwnMoveStays(acts, a, t);
    assert a in acts + [a];
    assert TriedL2(acts + [a], t);
    assert DoneWithL2(cfg, acts + [a], t, s.threads[t].req);
    hide Raw, Large, DoneWithL1, DoneWithL2;
  }

  lemma PassOnIsTried(cfg: Config, acts: seq<Action>, s: State, t: nat)
    requires Enabled(cfg, s, PassOn(t)) && TriedSoFar(cfg, acts, t, s.threads[t])
    ensures var s' := Step(cfg, s, PassOn(t)); t in s'.threads && TriedSoFar(cfg, acts + [PassOn(t)], t, s'.threads[t])
  {
    var a, pc := PassOn(t), s.threads[t].pc;
    OwnMoveStays(acts, a, t);
    assert !ForL2(cfg, s.threads[t].req, pc.src.resp, pc.src.whole) ==> DoneWithL2(cfg, acts + [a], t, s.threads[t].req);
    hide Large, DoneWithL1, DoneWithL2, OnlyReply;
  }

  /** The other moves go on before or behind the reply. */
  lemma RestIsTried(cfg: Config, acts: seq<Action>, s: State, a: Action)
    requires Enabled(cfg, s, a) && !a.Arrive? && !a.InnerReply? && !a.SaveL1? && !a.SaveL2? && !a.PassOn? && !a.StreamL1? && !a.StreamL2?
    requires TriedSoFar(cfg, acts, a.t, s.threads[a.t])
    ensures var s' := Step(cfg, s, a); a.t in s'.threads && TriedSoFar(cfg, acts + [a], a.t, s'.threads[a.t])
  {
    OwnMoveStays(acts, a, a.t);
    NotAskedIsDone(cfg, acts, a.t, s.threads[a.t].req);
    LargeIsOversize(cfg, s.threads[a.t].req);
    hide Large, DoneWithL1, DoneWithL2, OnlyReply, NotAsked, LookupOk, RequeryOk, CachingTransport.KeyOf, CachingTransport.Oversize;
  }

  lemma NotAskedIsDone(cfg: Config, acts: seq<Action>, t: nat, req: Request)
    ensures NotAsked(acts, t) ==> DoneWithL1(cfg, acts, t) && DoneWithL2(cfg, acts, t, req)
  {
  }

  lemma LargeIsOversize(cfg: Config, req: Request)
    ensures Large(cfg, req) <==> CachingTransport.Oversize(cfg.ct, req)
  {
  }

  lemma MoverHasTried(cfg: Config, acts: seq<Action>, s: State, a: Action)
    requires AllTried(cfg, acts, s) && Enabled(cfg, s, a) && !a.StreamL1? && !a.StreamL2?
    ensures var s' := Step(cfg, s, a); a.t in s'.threads && TriedSoFar(cfg, acts + [a], a.t, s'.threads[a.t])
  {
    if !a.Arrive? { assert TriedSoFar(cfg, acts, a.t, s.threads[a.t]); }
    match a
    case Arrive(t, req) => NewIsTried(cfg, acts, s, t, req);
    case InnerReply(t, reply) => ReplyIsTried(cfg, acts, s, t, reply);
    case SaveL1(t, id, ok) => SaveL1IsTried(cfg, acts, s, t, id, ok);
    case SaveL2(t, id, ok) => SaveL2IsTried(cfg, acts, s, t, id, ok);
    case PassOn(t) => PassOnIsTried(cfg, acts, s, t);
    case _ => RestIsTried(cfg, acts, s, a);
  }

  lemma NewIsTried(cfg: Config, acts: seq<Action>, s: State, t: nat, req: Request)
    requires AllTried(cfg, acts, s) && t !in s.threads
    ensures TriedSoFar(cfg, acts + [Arrive(t, req)], t, Thread(req, Enter))
  {
    assert forall b :: b in acts + [Arrive(t, req)] <==> b in acts || b == Arrive(t, req);
  }

  lemma StepStaysTried(cfg: Config, acts: seq<Action>, s: State, a: Action)
    requires AllTried(cfg, acts, s) && Enabled(cfg, s, a)
    ensures AllTried(cfg, acts + [a], Step(cfg, s, a))
  {
    var s', more := Step(cfg, s, a), acts + [a];
    MovesOne(cfg, s, a);
    if !a.StreamL1? && !a.StreamL2? { MoverHasTried(cfg, acts, s, a); }
    hide Step, Enabled, TriedSoFar;
    assert forall b :: b in more <==> b in acts || b == a;
    forall t | t in s'.threads ensures TriedSoFar(cfg, more, t, s'.threads[t]) {
      if a.StreamL1? || a.StreamL2? || t != a.t { OtherStays(cfg, acts, a, t, s.threads[t]); }
    }
  }

  // ----- streams -----

  /** A stream upstream sent waits for its end: in the first tier unless it calls for the
      fallback, and in the second, once it was passed on, unless its request is too large. */
  ghost predicate StreamsKept(cfg: Config, acts: seq<Action>, s: State, t: nat) {
    t in s.threads && forall resp, whole :: InnerReply(t, Resp(resp, whole)) in acts && resp.sse ==>
      var src := Source(s.threads[t].req, resp, whole);
      (!cfg.isFallback(resp) ==> src in s.l1Streams) && (!Large(cfg, s.threads[t].req) && StageOf(s.threads[t].pc) == Behind ==> src in s.l2Streams)
  }

  ghost predicate AllKept(cfg: Config, acts: seq<Action>, s: State) {
    forall t :: t in s.threads ==> StreamsKept(cfg, acts, s, t)
  }

  lemma StepStaysKept(cfg: Config, acts: seq<Action>, s: State, a: Action, t: nat)
    requires AllKept(cfg, acts, s) && AllTried(cfg, acts, s) && ThreadsOk(cfg, acts, s) && Enabled(cfg, s, a) && t in Step(cfg, s, a).threads
    ensures StreamsKept(cfg, acts + [a], Step(cfg, s, a), t)
  {
    var s', more := Step(cfg, s, a), acts + [a];
    StreamsGrowBy(cfg, s, a);
    MovesOne(cfg, s, a);
    assert forall b :: b in more <==> b in acts || b == a;
    if t !in s.threads {
      NewIsTried(cfg, acts, s, t, s'.threads[t].req);
    } else if !a.StreamL1? && !a.StreamL2? && a.t == t {
      OwnStreams(cfg, acts, s, a);
    } else {
      OtherStreams(cfg, acts, s, s', a, t);
    }
  }

  lemma OtherStreams(cfg: Config, acts: seq<Action>, s: State, s': State, a: Action, t: nat)
    requires StreamsKept(cfg, acts, s, t) && t in s'.threads && s'.threads[t] == s.threads[t] && (a.StreamL1? || a.StreamL2? || a.t != t)
    requires s.l1Streams <= s'.l1Streams && s.l2Streams <= s'.l2Streams
    ensures StreamsKept(cfg, acts + [a], s', t)
  {
    hide Large, StageOf;
    assert forall b :: b in acts + [a] <==> b in acts || b == a;
    assert forall src :: src in s.l1Streams ==> src in s'.l1Streams;
    assert forall src :: src in s.l2Streams ==> src in s'.l2Streams;
  }

  /** What the thread's own move does for its streams. */
  lemma OwnStreams(cfg: Config, acts: seq<Action>, s: State, a: Action)
    requires Enabled(cfg, s, a) && !a.Arrive? && !a.StreamL1? && !a.StreamL2?
    requires AllKept(cfg, acts, s) && TriedSoFar(cfg, acts, a.t, s.threads[a.t]) && PcOk(cfg, acts, s, a.t, s.threads[a.t].pc)
    ensures StreamsKept(cfg, acts + [a], Step(cfg, s, a), a.t)
  {
    StreamsGrowBy(cfg, s, a);
    MovesOne(cfg, s, a);
    assert forall b :: b in acts + [a] <==> b in acts || b == a;
    assert StreamsKept(cfg, acts, s, a.t);
    StagesMove(cfg, s, a);
    hide Step, Large, DoneWithL1, DoneWithL2, AllKept;
  }

  /** A thread is behind the reply from the moment it has passed it on. */
  lemma StagesMove(cfg: Config, s: State, a: Action)
    requires Enabled(cfg, s, a) && !a.Arrive? && !a.StreamL1? && !a.StreamL2?
    ensures a.t in Step(cfg, s, a).threads
    ensures a.InnerReply? && a.reply.Resp? ==> StageOf(Step(cfg, s, a).threads[a.t].pc) != Behind
    ensures a.SaveL1? ==> StageOf(Step(cfg, s, a).threads[a.t].pc) != Behind && s.threads[a.t].pc.SavingL1?
    ensures a.SaveL2? ==> StageOf(s.threads[a.t].pc) == InL2
    ensures a.PassOn? ==> StageOf(s.threads[a.t].pc).Between? && s.threads[a.t].pc.ToL2?
    ensures !a.InnerReply? && !a.SaveL1? && !a.SaveL2? && !a.PassOn? ==> StageOf(s.threads[a.t].pc) in {Before, Behind}
  {
    hide LookupOk, RequeryOk, CachingTransport.KeyOf, CachingTransport.Oversize, Raw;
  }

  // ----- every run -----

  lemma NothingToTry(cfg: Config, l2: seq<Entry>)
    ensures AllTried(cfg, [], Init(l2)) && AllKept(cfg, [], Init(l2))
  {
  }

  lemma {:induction false} RunStaysTried(cfg: Config, l2: seq<Entry>, acts: seq<Action>)
    requires Runs(cfg, Init(l2), acts)
    ensures AllTried(cfg, acts, After(cfg, Init(l2), acts)) && AllKept(cfg, acts, After(cfg, Init(l2), acts))
    decreases |acts|
  {
    NothingToTry(cfg, l2);
    if acts != [] {
      hide Runs, After, AllTried, StreamsKept, Enabled, Step, ThreadsOk;
      var n := |acts| - 1;
      assert acts == acts[..n] + [acts[n]];
      LastAction(cfg, Init(l2), acts[..n], acts[n]);
      RunStaysTried(cfg, l2, acts[..n]);
      RunKeepsTiers(cfg, l2, acts[..n]);
      var s := After(cfg, Init(l2), acts[..n]);
      StepStaysTried(cfg, acts[..n], s, acts[n]);
      forall t | t in Step(cfg, s, acts[n]).threads ensures StreamsKept(cfg, acts, Step(cfg, s, acts[n]), t) {
        StepStaysKept(cfg, acts[..n], s, acts[n], t);
      }
    }
  }

  /** Nothing is left out: whoever got a whole buffered answer that does not call for the
      fallback has tried to save it to the first tier before it is done, whoever got one the
      filter lets through, of a request that is not too large, to the second, a cut one
      among them unless it calls for the fallback; and streams wait for their end. */
  lemma NothingIsLeftOut(cfg: Config, l2: seq<Entry>, acts: seq<Action>, t: nat, resp: Response, whole: bool)
    requires Runs(cfg, Init(l2), acts) && InnerReply(t, Resp(resp, whole)) in acts
    ensures t in After(cfg, Init(l2), acts).threads
    ensures var s := After(cfg, Init(l2), acts);
      s.threads[t].pc.Done? && !resp.sse ==>
        (whole && !cfg.isFallback(resp) ==> TriedL1(acts, t)) &&
        (cfg.ct.cacheFilter(resp) && !Large(cfg, s.threads[t].req) && (whole || !cfg.isFallback(resp)) ==> TriedL2(acts, t))
    ensures var s := After(cfg, Init(l2), acts);
      s.threads[t].pc.Done? && resp.sse ==>
        (!cfg.isFallback(resp) ==> Source(s.threads[t].req, resp, whole) in s.l1Streams) &&
        (!Large(cfg, s.threads[t].req) ==> Source(s.threads[t].req, resp, whole) in s.l2Streams)
  {
    RunStaysTried(cfg, l2, acts);
    var s := After(cfg, Init(l2), acts);
    assert TriedSoFar(cfg, acts, t, s.threads[t]) && StreamsKept(cfg, acts, s, t);
    hide Large, Runs, After;
  }
}
