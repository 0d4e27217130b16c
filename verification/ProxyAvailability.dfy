/** Availability: what was once answered live can be answered again. */
module ProxyAvailability {
  import opened Options
  import opened Tapes
  import CachingTransport
  import CacheKeys
  import opened Proxy

  ghost predicate Covered(entries: seq<Entry>, req: Request) {
    exists i: nat :: i < |entries| && SameRoute(req, entries[i].tape)
  }

  ghost predicate CoveredIn(s: State, req: Request) { Covered(s.l1, req) || Covered(s.l2, req) }

  predicate SameRequestRoute(a: Request, b: Request) { a.verb == b.verb && a.path == b.path }

  /** A live buffered answer on the route leaves a tape for its request behind. */
  ghost predicate Backed(cfg: Config, route: Request, s: State, req: Request, outcome: Outcome) {
    SameRequestRoute(req, route) && outcome.Got? && !outcome.resp.sse && !cfg.isFallback(outcome.resp) ==> CoveredIn(s, req)
  }

  predicate OnRoute(s: State, t: nat, route: Request) { t in s.threads && SameRequestRoute(s.threads[t].req, route) }

  /** Among these requests none off the route shares a single-flight key with one on it. */
  ghost predicate RouteIsClear(cfg: Config, reqs: iset<Request>, route: Request) {
    forall a, b :: CacheKeys.Cacheable(cfg.ct, reqs, a) && CacheKeys.Cacheable(cfg.ct, reqs, b) &&
                   CachingTransport.KeyOf(cfg.ct, a) == CachingTransport.KeyOf(cfg.ct, b) &&
                   SameRequestRoute(a, route)
      ==> SameRequestRoute(b, route)
  }

  /** On this route saves to the first tier succeed and response bodies can be read. */
  predicate Smooth(s: State, a: Action, route: Request) {
    (a.SaveL1? && OnRoute(s, a.t, route) ==> a.ok) && (a.InnerReply? && OnRoute(s, a.t, route) && a.reply.Resp? ==> a.reply.whole)
  }

  predicate LeadOk(s: State, req: Request, lead: Option<nat>) {
    lead.Some? ==> lead.value < |s.flights| && s.flights[lead.value].req == req
  }

  ghost predicate PcBacked(cfg: Config, route: Request, s: State, req: Request, pc: Pc) {
    match pc
    case Waiting(f) =>
      !CachingTransport.Oversize(cfg.ct, req) && f < |s.flights| && CachingTransport.KeyOf(cfg.ct, s.flights[f].req) == CachingTransport.KeyOf(cfg.ct, req)
    case AtInner(lead, _) => LeadOk(s, req, lead)
    case SavingL1(lead, _, src) => LeadOk(s, req, lead) && src.req == req
    case ToL2(lead, _, src, _) => LeadOk(s, req, lead) && src.req == req && Backed(cfg, route, s, req, Got(src.resp))
    case SavingL2(lead, src) => LeadOk(s, req, lead) && src.req == req && Backed(cfg, route, s, req, Got(src.resp))
    case Publishing(f, o) => LeadOk(s, req, Some(f)) && Backed(cfg, route, s, req, o)
    case Deciding(o) => Backed(cfg, route, s, req, o)
    case Done(a) => a.Live? ==> !cfg.isFallback(a.resp) && Backed(cfg, route, s, req, Got(a.resp))
    case _ => true
  }

  ghost predicate ThreadOk(cfg: Config, reqs: iset<Request>, route: Request, s: State, t: nat)
    requires t in s.threads
  {
    s.threads[t].req in reqs && PcBacked(cfg, route, s, s.threads[t].req, s.threads[t].pc)
  }

  ghost predicate FlightOk(cfg: Config, reqs: iset<Request>, route: Request, s: State, fl: Flight) {
    CacheKeys.Cacheable(cfg.ct, reqs, fl.req) && (fl.outcome.Some? ==> Backed(cfg, route, s, fl.req, fl.outcome.value))
  }

  ghost predicate Inv(cfg: Config, reqs: iset<Request>, route: Request, s: State) {
    (forall t :: t in s.threads ==> ThreadOk(cfg, reqs, route, s, t)) && (forall f: nat :: f < |s.flights| ==> FlightOk(cfg, reqs, route, s, s.flights[f]))
  }

  // ----- growth -----

  /** Tiers only grow, and flights keep their requests. */
  predicate Grows(s: State, s': State) {
    s.l1 <= s'.l1 && s.l2 <= s'.l2 && |s.flights| <= |s'.flights| &&
    forall f: nat :: f < |s.flights| ==> s'.flights[f].req == s.flights[f].req
  }

  lemma StepGrows(cfg: Config, s: State, a: Action)
    requires Enabled(cfg, s, a)
    ensures Grows(s, Step(cfg, s, a))
  {
    hide AfterInner, AfterWake, AfterRequery, AfterDecide, AfterLook, Return, Raw, LookupOk, RequeryOk;
  }

  lemma CoverStays(s: State, s': State, req: Request)
    requires Grows(s, s')
    ensures CoveredIn(s, req) ==> CoveredIn(s', req)
    ensures Covered(s.l2, req) ==> Covered(s'.l2, req)
  {
    hide SameRoute;
    assert forall i: nat :: i < |s.l1| ==> s'.l1[i] == s.l1[i];
    assert forall i: nat :: i < |s.l2| ==> s'.l2[i] == s.l2[i];
  }

  lemma BackedStays(cfg: Config, route: Request, s: State, s': State, req: Request, pc: Pc)
    requires Grows(s, s') && PcBacked(cfg, route, s, req, pc)
    ensures PcBacked(cfg, route, s', req, pc)
  {
    hide CoveredIn;
    CoverStays(s, s', req);
  }

  lemma FlightStays(cfg: Config, reqs: iset<Request>, route: Request, s: State, s': State, fl: Flight)
    requires Grows(s, s') && FlightOk(cfg, reqs, route, s, fl)
    ensures FlightOk(cfg, reqs, route, s', fl)
  {
    hide CoveredIn;
    CoverStays(s, s', fl.req);
  }

  /** A step of one thread that leaves the flights alone. */
  lemma MoveKeepsInv(cfg: Config, reqs: iset<Request>, route: Request, s: State, s': State, t: nat)
    requires Inv(cfg, reqs, route, s) && Grows(s, s') && s'.flights == s.flights
    requires t in s'.threads && s'.threads == s.threads[t := s'.threads[t]] && ThreadOk(cfg, reqs, route, s', t)
    ensures Inv(cfg, reqs, route, s')
  {
    hide PcBacked, FlightOk, Grows;
    forall u | u in s'.threads ensures ThreadOk(cfg, reqs, route, s', u) {
      if u != t {
        assert ThreadOk(cfg, reqs, route, s, u);
        BackedStays(cfg, route, s, s', s.threads[u].req, s.threads[u].pc);
      }
    }
    forall f: nat | f < |s'.flights| ensures FlightOk(cfg, reqs, route, s', s'.flights[f]) {
      FlightStays(cfg, reqs, route, s, s', s.flights[f]);
    }
  }

  lemma ReturnBacked(cfg: Config, route: Request, s: State, req: Request, lead: Option<nat>, o: Outcome)
    requires LeadOk(s, req, lead) && Backed(cfg, route, s, req, o)
    ensures PcBacked(cfg, route, s, req, Return(lead, o))
  {
  }

  lemma LastEntryCovers(entries: seq<Entry>, req: Request)
    requires |entries| > 0 && SameRoute(req, entries[|entries| - 1].tape)
    ensures Covered(entries, req)
  {
  }

  lemma InnerKeepsInv(cfg: Config, reqs: iset<Request>, route: Request, s: State, t: nat, reply: Reply)
    requires Inv(cfg, reqs, route, s) && t in s.threads && s.threads[t].pc.AtInner? && (OnRoute(s, t, route) && reply.Resp? ==> reply.whole)
    ensures Inv(cfg, reqs, route, DoInner(cfg, s, t, reply))
  {
    var s' := DoInner(cfg, s, t, reply);
    assert ThreadOk(cfg, reqs, route, s, t);
    hide CoveredIn;
    assert PcBacked(cfg, route, s', s.threads[t].req, s'.threads[t].pc);
    hide PcBacked;
    MoveKeepsInv(cfg, reqs, route, s, s', t);
  }

  lemma SaveL1KeepsInv(cfg: Config, reqs: iset<Request>, route: Request, s: State, t: nat, id: string, ok: bool)
    requires Inv(cfg, reqs, route, s) && t in s.threads && s.threads[t].pc.SavingL1? && (OnRoute(s, t, route) ==> ok)
    ensures Inv(cfg, reqs, route, DoSaveL1(cfg, s, t, id, ok))
  {
    var s' := DoSaveL1(cfg, s, t, id, ok);
    assert ThreadOk(cfg, reqs, route, s, t);
    if ok { LastEntryCovers(s'.l1, s.threads[t].req); }
    hide Covered;
    MoveKeepsInv(cfg, reqs, route, s, s', t);
  }

  lemma PassOnKeepsInv(cfg: Config, reqs: iset<Request>, route: Request, s: State, t: nat)
    requires Inv(cfg, reqs, route, s) && t in s.threads && s.threads[t].pc.ToL2?
    ensures Inv(cfg, reqs, route, DoPassOn(cfg, s, t))
  {
    var s', pc, req := DoPassOn(cfg, s, t), s.threads[t].pc, s.threads[t].req;
    assert ThreadOk(cfg, reqs, route, s, t);
    hide CoveredIn;
    assert Grows(s, s');
    CoverStays(s, s', req);
    ReturnBacked(cfg, route, s', req, pc.lead, Got(pc.src.resp));
    MoveKeepsInv(cfg, reqs, route, s, s', t);
  }

  lemma SaveL2KeepsInv(cfg: Config, reqs: iset<Request>, route: Request, s: State, t: nat, id: string, ok: bool)
    requires Inv(cfg, reqs, route, s) && t in s.threads && s.threads[t].pc.SavingL2?
    ensures Inv(cfg, reqs, route, DoSaveL2(cfg, s, t, id, ok))
  {
    var s', pc, req := DoSaveL2(cfg, s, t, id, ok), s.threads[t].pc, s.threads[t].req;
    assert ThreadOk(cfg, reqs, route, s, t);
    hide CoveredIn, Raw;
    assert Grows(s, s');
    CoverStays(s, s', req);
    ReturnBacked(cfg, route, s', req, pc.lead, Got(pc.src.resp));
    MoveKeepsInv(cfg, reqs, route, s, s', t);
  }

  lemma PublishKeepsInv(cfg: Config, reqs: iset<Request>, route: Request, s: State, t: nat)
    requires Inv(cfg, reqs, route, s) && t in s.threads && s.threads[t].pc.Publishing?
    ensures Inv(cfg, reqs, route, DoPublish(s, t))
  {
    var s', pc, req := DoPublish(s, t), s.threads[t].pc, s.threads[t].req;
    assert ThreadOk(cfg, reqs, route, s, t);
    assert FlightOk(cfg, reqs, route, s, s.flights[pc.flight]);
    assert FlightOk(cfg, reqs, route, s, s'.flights[pc.flight]);
    assert Grows(s, s');
    assert PcBacked(cfg, route, s, req, Deciding(pc.outcome));
    hide CoveredIn, PcBacked, FlightOk, Grows;
    forall u | u in s'.threads ensures ThreadOk(cfg, reqs, route, s', u) {
      assert ThreadOk(cfg, reqs, route, s, u);
      BackedStays(cfg, route, s, s', s.threads[u].req, if u == t then Deciding(pc.outcome) else s.threads[u].pc);
    }
    forall f: nat | f < |s'.flights| ensures FlightOk(cfg, reqs, route, s', s'.flights[f]) {
      FlightStays(cfg, reqs, route, s, s', s'.flights[f]);
    }
  }

  /** A flight's answer backs every request with the flight's key. */
  lemma WakeKeepsInv(cfg: Config, reqs: iset<Request>, route: Request, s: State, t: nat)
    requires Inv(cfg, reqs, route, s) && RouteIsClear(cfg, reqs, route) && Enabled(cfg, s, Wake(t))
    ensures Inv(cfg, reqs, route, Step(cfg, s, Wake(t)))
  {
    var s', req := Step(cfg, s, Wake(t)), s.threads[t].req;
    var fl := s.flights[s.threads[t].pc.flight];
    assert ThreadOk(cfg, reqs, route, s, t) && FlightOk(cfg, reqs, route, s, fl);
    hide CachingTransport.KeyOf;
    if SameRequestRoute(req, route) {
      assert SameRequestRoute(fl.req, route);
      assert forall tape :: SameRoute(req, tape) <==> SameRoute(fl.req, tape);
      assert CoveredIn(s, req) <==> CoveredIn(s, fl.req);
    }
    hide RouteIsClear, Covered;
    MoveKeepsInv(cfg, reqs, route, s, s', t);
  }

  lemma RequeryKeepsInv(cfg: Config, reqs: iset<Request>, route: Request, s: State, t: nat, q: Query)
    requires Inv(cfg, reqs, route, s) && Enabled(cfg, s, RequeryL2(t, q))
    ensures Inv(cfg, reqs, route, Step(cfg, s, RequeryL2(t, q)))
  {
    var s', req := Step(cfg, s, RequeryL2(t, q)), s.threads[t].req;
    assert ThreadOk(cfg, reqs, route, s, t);
    if q.Picked? && q.pick.Some? {
      assert SameRoute(req, s.l2[q.pick.value].tape);
      assert Covered(s.l2, req);
    }
    hide Covered, SameRoute;
    MoveKeepsInv(cfg, reqs, route, s, s', t);
  }

  lemma LeadKeepsInv(cfg: Config, reqs: iset<Request>, route: Request, s: State, t: nat)
    requires Inv(cfg, reqs, route, s) && Enabled(cfg, s, Lead(t))
    ensures Inv(cfg, reqs, route, Step(cfg, s, Lead(t)))
  {
    var s' := Step(cfg, s, Lead(t));
    assert Grows(s, s');
    assert ThreadOk(cfg, reqs, route, s, t);
    hide CoveredIn, Grows;
    forall u | u in s'.threads ensures ThreadOk(cfg, reqs, route, s', u) {
      assert ThreadOk(cfg, reqs, route, s, u);
      if u != t { BackedStays(cfg, route, s, s', s.threads[u].req, s.threads[u].pc); }
    }
    forall f: nat | f < |s'.flights| ensures FlightOk(cfg, reqs, route, s', s'.flights[f]) {
      if f < |s.flights| { FlightStays(cfg, reqs, route, s, s', s.flights[f]); }
    }
  }

  lemma StreamKeepsInv(cfg: Config, reqs: iset<Request>, route: Request, s: State, s': State)
    requires Inv(cfg, reqs, route, s) && Grows(s, s') && s'.threads == s.threads && s'.flights == s.flights
    ensures Inv(cfg, reqs, route, s')
  {
    hide PcBacked, FlightOk, Grows;
    forall u | u in s'.threads ensures ThreadOk(cfg, reqs, route, s', u) {
      assert ThreadOk(cfg, reqs, route, s, u);
      BackedStays(cfg, route, s, s', s.threads[u].req, s.threads[u].pc);
    }
    forall f: nat | f < |s'.flights| ensures FlightOk(cfg, reqs, route, s', s'.flights[f]) { FlightStays(cfg, reqs, route, s, s', s.flights[f]); }
  }

  /** The moves that neither answer anything nor touch a flight or a tier. */
  lemma PlainMoveKeepsInv(cfg: Config, reqs: iset<Request>, route: Request, s: State, a: Action)
    requires Inv(cfg, reqs, route, s) && Enabled(cfg, s, a)
    requires a.Arrive? ==> a.req in reqs
    requires a.Arrive? || a.Join? || a.Bypass? || a.Decide? || a.LookL1? || a.LookL2?
    ensures Inv(cfg, reqs, route, Step(cfg, s, a))
  {
    var s' := Step(cfg, s, a);
    assert !a.Arrive? ==> ThreadOk(cfg, reqs, route, s, a.t);
    hide CoveredIn, LookupOk;
    MoveKeepsInv(cfg, reqs, route, s, s', a.t);
  }

  lemma StepKeepsInv(cfg: Config, reqs: iset<Request>, route: Request, s: State, a: Action)
    requires Inv(cfg, reqs, route, s) && RouteIsClear(cfg, reqs, route) && Enabled(cfg, s, a) && Smooth(s, a, route)
    requires a.Arrive? ==> a.req in reqs
    ensures Inv(cfg, reqs, route, Step(cfg, s, a))
  {
    hide Inv;
    match a
    case Lead(t) => LeadKeepsInv(cfg, reqs, route, s, t);
    case InnerReply(t, reply) => InnerKeepsInv(cfg, reqs, route, s, t, reply);
    case SaveL1(t, id, ok) => SaveL1KeepsInv(cfg, reqs, route, s, t, id, ok);
    case PassOn(t) => PassOnKeepsInv(cfg, reqs, route, s, t);
    case SaveL2(t, id, ok) => SaveL2KeepsInv(cfg, reqs, route, s, t, id, ok);
    case Publish(t) => PublishKeepsInv(cfg, reqs, route, s, t);
    case Wake(t) => WakeKeepsInv(cfg, reqs, route, s, t);
    case RequeryL2(t, q) => RequeryKeepsInv(cfg, reqs, route, s, t, q);
    case StreamL1(i, id) => StepGrows(cfg, s, a); StreamKeepsInv(cfg, reqs, route, s, Step(cfg, s, a));
    case StreamL2(i, id) => StepGrows(cfg, s, a); StreamKeepsInv(cfg, reqs, route, s, Step(cfg, s, a));
    case _ => PlainMoveKeepsInv(cfg, reqs, route, s, a);
  }

  /** A run of ordinary requests that is smooth on the route; what happens to other
      routes does not matter. */
  predicate SmoothRun(cfg: Config, reqs: iset<Request>, s: State, acts: seq<Action>, route: Request)
    requires Runs(cfg, s, acts)
    decreases |acts|
  {
    acts == [] ||
    (Smooth(s, acts[0], route) && (acts[0].Arrive? ==> acts[0].req in reqs) &&
     SmoothRun(cfg, reqs, Step(cfg, s, acts[0]), acts[1..], route))
  }

  lemma {:induction false} RunKeepsInv(cfg: Config, reqs: iset<Request>, route: Request, s: State, acts: seq<Action>)
    requires Inv(cfg, reqs, route, s) && RouteIsClear(cfg, reqs, route) && Runs(cfg, s, acts) && SmoothRun(cfg, reqs, s, acts, route)
    ensures Inv(cfg, reqs, route, After(cfg, s, acts))
    decreases |acts|
  {
    if acts != [] {
      hide Inv, Enabled, Step, Smooth;
      StepKeepsInv(cfg, reqs, route, s, acts[0]);
      RunKeepsInv(cfg, reqs, route, Step(cfg, s, acts[0]), acts[1..]);
    }
  }

  // ----- a later request -----

  predicate TapeIn(tape: Tape, entries: seq<Entry>) { exists i :: 0 <= i < |entries| && entries[i].tape == tape }

  /** A program point that has not given up on the route. */
  ghost predicate PcHopeful(s: State, route: Request, pc: Pc) {
    match pc
    case FallbackL2(_) => Covered(s.l2, route)
    case Done(Cached(tape)) => SameRoute(route, tape) && (TapeIn(tape, s.l1) || TapeIn(tape, s.l2))
    case Done(Original(_)) => false
    case _ => true
  }

  /** While a route is covered, a thread on it whose first-tier lookup missed finds
      it in the second tier. */
  ghost predicate Hopeful(s: State, t: nat, route: Request) {
    CoveredIn(s, route) &&
    (t in s.threads && SameRequestRoute(s.threads[t].req, route) ==> PcHopeful(s, route, s.threads[t].pc))
  }

  /** The thread's own lookups do not fail (its context is live). */
  predicate ListsWork(a: Action, t: nat) {
    ((a.LookL1? || a.LookL2?) && a.t == t) ==> a.q.Picked?
  }

  lemma HopeStays(s: State, s': State, route: Request, pc: Pc)
    requires Grows(s, s') && PcHopeful(s, route, pc)
    ensures PcHopeful(s', route, pc)
  {
    CoverStays(s, s', route);
    assert forall i :: 0 <= i < |s.l1| ==> s'.l1[i] == s.l1[i];
    assert forall i :: 0 <= i < |s.l2| ==> s'.l2[i] == s.l2[i];
    hide Covered, SameRoute;
  }

  /** Threads other than the one that moves stay where they are; one that moves
      without a lookup neither gives up nor settles for a tape. */
  lemma OnlyLookupsSettle(cfg: Config, s: State, a: Action, t: nat, route: Request)
    requires Enabled(cfg, s, a) && cfg.fallbackOnError && t in Step(cfg, s, a).threads
    requires !((a.LookL1? || a.LookL2?) && a.t == t)
    ensures (t in s.threads && Step(cfg, s, a).threads[t] == s.threads[t]) ||
            PcHopeful(Step(cfg, s, a), route, Step(cfg, s, a).threads[t].pc)
    ensures t in s.threads ==> Step(cfg, s, a).threads[t].req == s.threads[t].req
  {
    hide Covered, SameRoute, Raw, LookupOk, RequeryOk, TapeIn;
  }

  lemma OtherStepKeepsHope(cfg: Config, s: State, a: Action, t: nat, route: Request)
    requires Hopeful(s, t, route) && Enabled(cfg, s, a) && cfg.fallbackOnError
    requires !((a.LookL1? || a.LookL2?) && a.t == t)
    ensures Hopeful(Step(cfg, s, a), t, route)
  {
    hide Grows, PcHopeful, Step, Enabled, CoveredIn;
    var s' := Step(cfg, s, a);
    StepGrows(cfg, s, a);
    CoverStays(s, s', route);
    if t in s'.threads {
      OnlyLookupsSettle(cfg, s, a, t, route);
      if t in s.threads && s'.threads[t] == s.threads[t] && SameRequestRoute(s.threads[t].req, route) {
        HopeStays(s, s', route, s.threads[t].pc);
      }
    }
  }

  lemma LookKeepsHope(cfg: Config, s: State, a: Action, t: nat, route: Request)
    requires Hopeful(s, t, route) && Enabled(cfg, s, a)
    requires (a.LookL1? || a.LookL2?) && a.t == t && a.q.Picked?
    ensures Hopeful(Step(cfg, s, a), t, route)
  {
    hide RequeryOk, Raw;
    var s' := Step(cfg, s, a);
    assert s'.l1 == s.l1 && s'.l2 == s.l2;
    if SameRequestRoute(s.threads[t].req, route) {
      assert forall tape :: SameRoute(s.threads[t].req, tape) <==> SameRoute(route, tape);
      assert a.LookL1? && a.q.pick.None? ==> !Covered(s.l1, route);
      assert a.LookL2? ==> Covered(s.l2, route);
    }
  }

  lemma {:induction false} RunKeepsHope(cfg: Config, s: State, acts: seq<Action>, t: nat, route: Request)
    requires Hopeful(s, t, route) && Runs(cfg, s, acts) && cfg.fallbackOnError
    requires forall i :: 0 <= i < |acts| ==> ListsWork(acts[i], t)
    ensures Hopeful(After(cfg, s, acts), t, route)
    decreases |acts|
  {
    if acts != [] {
      hide Hopeful, Enabled, Step;
      var a := acts[0];
      assert ListsWork(a, t);
      if (a.LookL1? || a.LookL2?) && a.t == t {
        LookKeepsHope(cfg, s, a, t, route);
      } else {
        OtherStepKeepsHope(cfg, s, a, t, route);
      }
      RunKeepsHope(cfg, Step(cfg, s, a), acts[1..], t, route);
    }
  }

  /** How the later request ends: with a live answer or with a tape of the route. */
  predicate Answered(s: State, t: nat, route: Request) {
    t in s.threads && SameRequestRoute(s.threads[t].req, route) && s.threads[t].pc.Done? ==>
      match s.threads[t].pc.answer
      case Live(_) => true
      case Cached(tape) => SameRoute(route, tape) && (TapeIn(tape, s.l1) || TapeIn(tape, s.l2))
      case Original(_) => false
  }

  /** A thread that was answered live, on the route and not by a stream. */
  predicate AnsweredLive(s: State, u: nat, route: Request) {
    u in s.threads && SameRequestRoute(s.threads[u].req, route) &&
    s.threads[u].pc.Done? && s.threads[u].pc.answer.Live? && !s.threads[u].pc.answer.resp.sse
  }

  /** Once a buffered request was answered live, any request with its method and path
      that arrives later ends with a live answer or with a tape recorded for that
      route, never with the failure: whatever upstream does from then on, as long as
      on this route, until then, first-tier saves had succeeded and bodies had been
      read, and the later request's own lookups work. */
  ghost predicate StaysAvailable(cfg: Config, reqs: iset<Request>, route: Request) {
    forall l2: seq<Entry>, acts: seq<Action>, more: seq<Action>, u: nat, t: nat ::
      Runs(cfg, Init(l2), acts) && SmoothRun(cfg, reqs, Init(l2), acts, route) && AnsweredLive(After(cfg, Init(l2), acts), u, route) &&
      t !in After(cfg, Init(l2), acts).threads && Runs(cfg, After(cfg, Init(l2), acts), more) &&
      (forall i :: 0 <= i < |more| ==> ListsWork(more[i], t)) ==>
      Answered(After(cfg, After(cfg, Init(l2), acts), more), t, route)
  }

  /** It does where no request off the route shares a key with one on it. */
  lemma LaterRequestsAreAnswered(cfg: Config, reqs: iset<Request>, route: Request)
    requires RouteIsClear(cfg, reqs, route) && cfg.fallbackOnError
    ensures StaysAvailable(cfg, reqs, route)
  {
    hide RouteIsClear, Enabled, Step;
    forall l2: seq<Entry>, acts: seq<Action>, more: seq<Action>, u: nat, t: nat |
      Runs(cfg, Init(l2), acts) && SmoothRun(cfg, reqs, Init(l2), acts, route) && AnsweredLive(After(cfg, Init(l2), acts), u, route) &&
      t !in After(cfg, Init(l2), acts).threads && Runs(cfg, After(cfg, Init(l2), acts), more) &&
      (forall i :: 0 <= i < |more| ==> ListsWork(more[i], t))
      ensures Answered(After(cfg, After(cfg, Init(l2), acts), more), t, route)
    {
      RunIsAnswered(cfg, reqs, route, l2, acts, more, u, t);
    }
  }

  lemma RunIsAnswered(cfg: Config, reqs: iset<Request>, route: Request, l2: seq<Entry>, acts: seq<Action>, more: seq<Action>, u: nat, t: nat)
    requires RouteIsClear(cfg, reqs, route) && cfg.fallbackOnError
    requires Runs(cfg, Init(l2), acts) && SmoothRun(cfg, reqs, Init(l2), acts, route) && AnsweredLive(After(cfg, Init(l2), acts), u, route)
    requires t !in After(cfg, Init(l2), acts).threads && Runs(cfg, After(cfg, Init(l2), acts), more)
    requires forall i :: 0 <= i < |more| ==> ListsWork(more[i], t)
    ensures Answered(After(cfg, After(cfg, Init(l2), acts), more), t, route)
  {
    hide RouteIsClear, Enabled, Step;
    var s := After(cfg, Init(l2), acts);
    RunKeepsInv(cfg, reqs, route, Init(l2), acts);
    assert ThreadOk(cfg, reqs, route, s, u);
    assert CoveredIn(s, s.threads[u].req) <==> CoveredIn(s, route);
    RunKeepsHope(cfg, s, more, t, route);
  }
}
