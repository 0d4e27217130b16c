/** The proxy with its two tiers (proxy.go): the L1 recording transport inside the
    caching transport, and the fallback from L1 to L2, by any number of threads. */
module Proxy {
  import opened Options
  import opened Tapes
  import CachingTransport

  datatype Config = Config(
    ct: CachingTransport.Config,
    isFallback: Response -> bool,  // the fallback rule on a response
    fallbackOnError: bool)         // and on a transport error

  /** How the constructor wires the caching transport: lookup off, SSE recording on,
      and a cache filter that refuses what would trigger the fallback. */
  function NewProxy(isFallback: Response -> bool, fallbackOnError: bool, sanitize: Tape -> Tape, hash: string -> string, route: string): Config {
    Config(
      CachingTransport.Config(true, true, false, true, 10 * 1024 * 1024, route, (r: Response) => !isFallback(r), sanitize, hash),
      isFallback, fallbackOnError)
  }

  /** A response of upstream's to a request; `whole` is whether its body could be
      read to the end. */
  datatype Source = Source(req: Request, resp: Response, whole: bool)

  /** A stored tape, with where it came from. */
  datatype Entry = Entry(id: string, src: Source, tape: Tape)

  datatype Reply = Resp(resp: Response, whole: bool) | TransportError

  datatype Outcome = Got(resp: Response) | Failed

  datatype Answer = Live(resp: Response) | Cached(tape: Tape) | Original(outcome: Outcome)

  datatype Pc =
    | Enter
    | Waiting(flight: nat)
    | Requery
    | AtInner(lead: Option<nat>, bypass: bool)
    | SavingL1(lead: Option<nat>, bypass: bool, src: Source)
    | ToL2(lead: Option<nat>, bypass: bool, src: Source, readable: bool)
    | SavingL2(lead: Option<nat>, src: Source)
    | Publishing(flight: nat, outcome: Outcome)
    | Deciding(outcome: Outcome)
    | FallbackL1(outcome: Outcome)
    | FallbackL2(outcome: Outcome)
    | Done(answer: Answer)

  datatype Thread = Thread(req: Request, pc: Pc)

  datatype Flight = Flight(req: Request, outcome: Option<Outcome>)

  datatype State = State(
    threads: map<nat, Thread>, flights: seq<Flight>,
    l1: seq<Entry>, l2: seq<Entry>, l1Streams: seq<Source>, l2Streams: seq<Source>)

  /** A fresh proxy over a persistent second tier. */
  function Init(l2: seq<Entry>): State { State(map[], [], [], l2, [], []) }

  /** A lookup's result: the listing may fail; otherwise it is a matching entry, or
      none matches. */
  datatype Query = ListFailed | Picked(pick: Option<nat>)

  /** The proxy's default matcher: method and path. */
  predicate SameRoute(req: Request, t: Tape) { t.verb == req.verb && t.path == req.path }

  predicate LookupOk(req: Request, entries: seq<Entry>, q: Query) {
    match q
    case ListFailed => true
    case Picked(Some(i)) => i < |entries| && SameRoute(req, entries[i].tape)
    case Picked(None) => forall i :: 0 <= i < |entries| ==> !SameRoute(req, entries[i].tape)
  }

  /** The caching transport's own lookup for SSE waiters compares the body hash too. */
  predicate RequeryOk(cfg: Config, req: Request, entries: seq<Entry>, q: Query) {
    match q
    case ListFailed => true
    case Picked(Some(i)) => i < |entries| && CachingTransport.Matches(cfg.ct, req, entries[i].tape)
    case Picked(None) => forall i :: 0 <= i < |entries| ==> !CachingTransport.Matches(cfg.ct, req, entries[i].tape)
  }

  datatype Action =
    | Arrive(t: nat, req: Request)
    | Lead(t: nat)
    | Join(t: nat, flight: nat)
    | Bypass(t: nat)
    | InnerReply(t: nat, reply: Reply)
    | SaveL1(t: nat, id: string, ok: bool)
    | PassOn(t: nat)
    | SaveL2(t: nat, id: string, ok: bool)
    | Publish(t: nat)
    | Wake(t: nat)
    | RequeryL2(t: nat, q: Query)
    | Decide(t: nat)
    | LookL1(t: nat, q: Query)
    | LookL2(t: nat, q: Query)
    | StreamL1(i: nat, id: string)
    | StreamL2(i: nat, id: string)

  predicate Enabled(cfg: Config, s: State, a: Action) {
    match a
    case Arrive(t, _) => t !in s.threads
    case StreamL1(i, _) => i < |s.l1Streams|
    case StreamL2(i, _) => i < |s.l2Streams|
    case Lead(t) => t in s.threads && s.threads[t].pc.Enter? && !CachingTransport.Oversize(cfg.ct, s.threads[t].req)
    // any flight with the key may be joined, also one that is about to be forgotten
    case Join(t, f) =>
      t in s.threads && s.threads[t].pc.Enter? && !CachingTransport.Oversize(cfg.ct, s.threads[t].req) &&
      f < |s.flights| && CachingTransport.KeyOf(cfg.ct, s.flights[f].req) == CachingTransport.KeyOf(cfg.ct, s.threads[t].req)
    case Bypass(t) => t in s.threads && s.threads[t].pc.Enter? && CachingTransport.Oversize(cfg.ct, s.threads[t].req)
    case InnerReply(t, _) => t in s.threads && s.threads[t].pc.AtInner?
    case SaveL1(t, _, _) => t in s.threads && s.threads[t].pc.SavingL1?
    case PassOn(t) => t in s.threads && s.threads[t].pc.ToL2?
    case SaveL2(t, _, _) => t in s.threads && s.threads[t].pc.SavingL2?
    case Publish(t) => t in s.threads && s.threads[t].pc.Publishing?
    case Wake(t) =>
      t in s.threads && s.threads[t].pc.Waiting? && s.threads[t].pc.flight < |s.flights| &&
      s.flights[s.threads[t].pc.flight].outcome.Some?
    case RequeryL2(t, q) => t in s.threads && s.threads[t].pc.Requery? && RequeryOk(cfg, s.threads[t].req, s.l2, q)
    case Decide(t) => t in s.threads && s.threads[t].pc.Deciding?
    case LookL1(t, q) => t in s.threads && s.threads[t].pc.FallbackL1? && LookupOk(s.threads[t].req, s.l1, q)
    case LookL2(t, q) => t in s.threads && s.threads[t].pc.FallbackL2? && LookupOk(s.threads[t].req, s.l2, q)
  }

  function Goto(s: State, t: nat, pc: Pc): State
    requires t in s.threads
  {
    s.(threads := s.threads[t := s.threads[t].(pc := pc)])
  }

  /** A leader publishes its outcome to its flight; others decide at once. */
  function Return(lead: Option<nat>, outcome: Outcome): Pc {
    match lead
    case None => Deciding(outcome)
    case Some(f) => Publishing(f, outcome)
  }

  function Raw(cfg: Config, id: string, src: Source): Tape {
    CachingTransport.RawTape(cfg.ct, id, src.req, src.resp)
  }

  /** The L1 transport on a reply: what would trigger the fallback is not recorded,
      a stream is recorded when it ends, and a body that cannot be read to the end
      is passed on, cut, as if it were the whole one. */
  function AfterInner(cfg: Config, req: Request, lead: Option<nat>, bypass: bool, reply: Reply): Pc {
    match reply
    case TransportError => Return(lead, Failed)
    case Resp(resp, whole) =>
      var src := Source(req, resp, whole);
      if cfg.isFallback(resp) then ToL2(lead, bypass, src, whole)
      else if resp.sse || !whole then ToL2(lead, bypass, src, true)
      else SavingL1(lead, bypass, src)
  }

  predicate StartsL1Stream(cfg: Config, reply: Reply) {
    reply.Resp? && !cfg.isFallback(reply.resp) && reply.resp.sse
  }

  function DoInner(cfg: Config, s: State, t: nat, reply: Reply): State
    requires t in s.threads && s.threads[t].pc.AtInner?
  {
    var th := s.threads[t];
    var s1 := Goto(s, t, AfterInner(cfg, th.req, th.pc.lead, th.pc.bypass, reply));
    if StartsL1Stream(cfg, reply) then s1.(l1Streams := s.l1Streams + [Source(th.req, reply.resp, reply.whole)]) else s1
  }

  function DoSaveL1(cfg: Config, s: State, t: nat, id: string, ok: bool): State
    requires t in s.threads && s.threads[t].pc.SavingL1?
  {
    var pc := s.threads[t].pc;
    var s1 := Goto(s, t, ToL2(pc.lead, pc.bypass, pc.src, true));
    if ok then s1.(l1 := s.l1 + [Entry(id, pc.src, Raw(cfg, id, pc.src))]) else s1
  }

  /** The caching transport on the L1 transport's reply; a stream goes before the
      cache filter. */
  function DoPassOn(cfg: Config, s: State, t: nat): State
    requires t in s.threads && s.threads[t].pc.ToL2?
  {
    var pc := s.threads[t].pc;
    var back := Return(pc.lead, Got(pc.src.resp));
    if pc.bypass then Goto(s, t, back)
    else if pc.src.resp.sse then Goto(s, t, back).(l2Streams := s.l2Streams + [pc.src])
    else if !pc.readable || !cfg.ct.cacheFilter(pc.src.resp) then Goto(s, t, back)
    else Goto(s, t, SavingL2(pc.lead, pc.src))
  }

  function DoSaveL2(cfg: Config, s: State, t: nat, id: string, ok: bool): State
    requires t in s.threads && s.threads[t].pc.SavingL2?
  {
    var pc := s.threads[t].pc;
    var s1 := Goto(s, t, Return(pc.lead, Got(pc.src.resp)));
    if ok then s1.(l2 := s.l2 + [Entry(id, pc.src, cfg.ct.sanitize(Raw(cfg, id, pc.src)))]) else s1
  }

  function DoPublish(s: State, t: nat): State
    requires t in s.threads && s.threads[t].pc.Publishing?
  {
    var pc := s.threads[t].pc;
    var s1 := Goto(s, t, Deciding(pc.outcome));
    if pc.flight < |s.flights| then s1.(flights := s.flights[pc.flight := s.flights[pc.flight].(outcome := Some(pc.outcome))]) else s1
  }

  function AfterWake(outcome: Outcome): Pc {
    if outcome.Got? && outcome.resp.sse then Requery else Deciding(outcome)
  }

  function AfterRequery(s: State, q: Query): Pc {
    if q.Picked? && q.pick.Some? && q.pick.value < |s.l2| then Deciding(Got(s.l2[q.pick.value].tape.response))
    else AtInner(None, false)
  }

  function AfterDecide(cfg: Config, outcome: Outcome): Pc {
    match outcome
    case Failed => if cfg.fallbackOnError then FallbackL1(outcome) else Done(Original(outcome))
    case Got(resp) => if cfg.isFallback(resp) then FallbackL1(outcome) else Done(Live(resp))
  }

  function AfterLook(entries: seq<Entry>, q: Query, miss: Pc): Pc {
    if q.Picked? && q.pick.Some? && q.pick.value < |entries| then Done(Cached(entries[q.pick.value].tape)) else miss
  }

  function Step(cfg: Config, s: State, a: Action): State
    requires Enabled(cfg, s, a)
  {
    match a
    case Arrive(t, req) => s.(threads := s.threads[t := Thread(req, Enter)])
    case Lead(t) => Goto(s, t, AtInner(Some(|s.flights|), false)).(flights := s.flights + [Flight(s.threads[t].req, None)])
    case Join(t, f) => Goto(s, t, Waiting(f))
    case Bypass(t) => Goto(s, t, AtInner(None, true))
    case InnerReply(t, reply) => DoInner(cfg, s, t, reply)
    case SaveL1(t, id, ok) => DoSaveL1(cfg, s, t, id, ok)
    case PassOn(t) => DoPassOn(cfg, s, t)
    case SaveL2(t, id, ok) => DoSaveL2(cfg, s, t, id, ok)
    case Publish(t) => DoPublish(s, t)
    case Wake(t) => Goto(s, t, AfterWake(s.flights[s.threads[t].pc.flight].outcome.value))
    case RequeryL2(t, q) => Goto(s, t, AfterRequery(s, q))
    case Decide(t) => Goto(s, t, AfterDecide(cfg, s.threads[t].pc.outcome))
    case LookL1(t, q) => Goto(s, t, AfterLook(s.l1, q, FallbackL2(s.threads[t].pc.outcome)))
    case LookL2(t, q) => Goto(s, t, AfterLook(s.l2, q, Done(Original(s.threads[t].pc.outcome))))
    case StreamL1(i, id) => s.(l1 := s.l1 + [Entry(id, s.l1Streams[i], Raw(cfg, id, s.l1Streams[i]))])
    case StreamL2(i, id) => s.(l2 := s.l2 + [Entry(id, s.l2Streams[i], cfg.ct.sanitize(Raw(cfg, id, s.l2Streams[i])))])
  }

  predicate Runs(cfg: Config, s: State, acts: seq<Action>)
    decreases |acts|
  {
    acts == [] || (Enabled(cfg, s, acts[0]) && Runs(cfg, Step(cfg, s, acts[0]), acts[1..]))
  }

  function After(cfg: Config, s: State, acts: seq<Action>): State
    requires Runs(cfg, s, acts)
    decreases |acts|
  {
    if acts == [] then s else After(cfg, Step(cfg, s, acts[0]), acts[1..])
  }
}
