/** The caching transport (caching_transport.go): lookup, single-flight and
    recording by any number of threads, one action per lock, store or upstream
    operation. */
module CachingTransport {
  import opened Options
  import opened Tapes

  datatype Config = Config(
    singleFlight: bool, lookupDisabled: bool, staleFallback: bool, sseRecording: bool,
    maxBodySize: nat, route: string,
    cacheFilter: Response -> bool, sanitize: Tape -> Tape, hash: string -> string)

  /** What a round trip ends with; an error carries nothing here. */
  datatype Outcome = Got(resp: Response) | Failed

  /** How a thread came by its answer. */
  datatype How = Hit | Miss | Shared | Stale | Bypassed

  /** Upstream's reply: the response with the bytes read from its body, and whether
      the body could be read to the end. */
  datatype Reply = Reply(resp: Response, readOk: bool) | TransportError

  datatype Pc =
    | Start
    | Enter
    | Waiting(call: nat)
    | WaiterStale(call: nat)
    | Requery
    | AtUpstream(lead: Option<nat>)
    | Recording(lead: Option<nat>, resp: Response)
    | StaleLookup(lead: Option<nat>)
    | Publishing(call: nat, outcome: Outcome, how: How)
    | Signalling(call: nat, outcome: Outcome, how: How)
    | Removing(call: nat, outcome: Outcome, how: How)
    | Done(outcome: Outcome, how: How)

  datatype Thread = Thread(req: Request, pc: Pc)

  /** One in-flight entry: the wait group's counter, the result fields, and for the
      statements below its key, its leader and how often that leader went
      upstream. */
  datatype Call = Call(key: string, owner: nat, counter: int, outcome: Option<Outcome>, upstreams: nat)

  /** An answer upstream gave. */
  datatype Exchange = Exchange(req: Request, resp: Response)

  datatype State = State(
    threads: map<nat, Thread>, sfCalls: map<string, nat>, calls: seq<Call>,
    store: seq<Tape>, log: seq<Exchange>, streams: seq<Tape>,
    removedOther: bool) // set when a leader deletes an entry that is not its own

  const INIT := State(map[], map[], [], [], [], [], false)

  /** The single-flight key: query, host and headers are not part of it. */
  function KeyOf(cfg: Config, req: Request): string {
    req.verb + "|" + req.path + "|" + cfg.hash(req.body)
  }

  /** The default matcher: method, path and body hash. */
  predicate Matches(cfg: Config, req: Request, t: Tape) {
    t.verb == req.verb && t.path == req.path && t.bodyHash == cfg.hash(req.body)
  }

  predicate Oversize(cfg: Config, req: Request) {
    cfg.maxBodySize > 0 && |req.body| > cfg.maxBodySize
  }

  function RawTape(cfg: Config, id: string, req: Request, resp: Response): Tape {
    Tape(id, cfg.route, req.verb, req.path, req.body, cfg.hash(req.body), resp, false, "")
  }

  /** A store query by a thread: the list call may fail; otherwise `pick` is the
      tape the matcher chose, None when no tape matches. */
  datatype Query = ListFailed | Picked(pick: Option<nat>)

  predicate QueryOk(cfg: Config, s: State, req: Request, q: Query) {
    match q
    case ListFailed => true
    case Picked(Some(i)) => i < |s.store| && Matches(cfg, req, s.store[i])
    case Picked(None) => forall t :: t in s.store ==> !Matches(cfg, req, t)
  }

  datatype Action =
    | Arrive(t: nat, req: Request)
    | Bypass(t: nat, reply: Reply)
    | Lookup(t: nat, q: Query)
    | EnterFlight(t: nat)
    | CallUpstream(t: nat, reply: Reply)
    | Record(t: nat, id: string, saveOk: bool)
    | ServeStale(t: nat, q: Query)
    | SetResult(t: nat)
    | Signal(t: nat)
    | RemoveEntry(t: nat)
    | Wake(t: nat)
    | WakeStale(t: nat, q: Query)
    | RequeryStore(t: nat, q: Query)
    | StreamCompletes(i: nat, id: string)

  predicate Enabled(cfg: Config, s: State, a: Action) {
    match a
    case Arrive(t, _) => t !in s.threads
    case StreamCompletes(i, _) => i < |s.streams|
    case Bypass(t, _) => t in s.threads && s.threads[t].pc.Start? && Oversize(cfg, s.threads[t].req)
    case Lookup(t, q) =>
      t in s.threads && s.threads[t].pc.Start? && !Oversize(cfg, s.threads[t].req) && QueryOk(cfg, s, s.threads[t].req, q)
    case EnterFlight(t) => t in s.threads && s.threads[t].pc.Enter?
    case CallUpstream(t, _) => t in s.threads && s.threads[t].pc.AtUpstream?
    case Record(t, _, _) => t in s.threads && s.threads[t].pc.Recording?
    case ServeStale(t, q) => t in s.threads && s.threads[t].pc.StaleLookup? && QueryOk(cfg, s, s.threads[t].req, q)
    case SetResult(t) => t in s.threads && s.threads[t].pc.Publishing?
    case Signal(t) => t in s.threads && s.threads[t].pc.Signalling? && s.threads[t].pc.call < |s.calls|
    case RemoveEntry(t) => t in s.threads && s.threads[t].pc.Removing?
    // wg.Wait returns when the counter is zero
    case Wake(t) =>
      t in s.threads && s.threads[t].pc.Waiting? && s.threads[t].pc.call < |s.calls| &&
      s.calls[s.threads[t].pc.call].counter == 0
    case WakeStale(t, q) => t in s.threads && s.threads[t].pc.WaiterStale? && QueryOk(cfg, s, s.threads[t].req, q)
    case RequeryStore(t, q) => t in s.threads && s.threads[t].pc.Requery? && QueryOk(cfg, s, s.threads[t].req, q)
  }

  function Goto(s: State, t: nat, pc: Pc): State
    requires t in s.threads
  {
    s.(threads := s.threads[t := s.threads[t].(pc := pc)])
  }

  /** Where a thread goes with its outcome: a leader publishes it first. */
  function Finish(lead: Option<nat>, outcome: Outcome, how: How): Pc {
    match lead
    case None => Done(outcome, how)
    case Some(c) => Publishing(c, outcome, how)
  }

  function SetCall(s: State, c: nat, call: Call): State {
    if c < |s.calls| then s.(calls := s.calls[c := call]) else s
  }

  function Logged(s: State, req: Request, reply: Reply): State {
    if reply.TransportError? then s else s.(log := s.log + [Exchange(req, reply.resp)])
  }

  function DoLookup(cfg: Config, s: State, t: nat, q: Query): State
    requires t in s.threads && QueryOk(cfg, s, s.threads[t].req, q)
  {
    if !cfg.lookupDisabled && q.Picked? && q.pick.Some? then
      Goto(s, t, Done(Got(s.store[q.pick.value].response), Hit))
    else Goto(s, t, Enter)
  }

  function DoEnter(cfg: Config, s: State, t: nat): State
    requires t in s.threads
  {
    var key := KeyOf(cfg, s.threads[t].req);
    if !cfg.singleFlight then Goto(s, t, AtUpstream(None))
    else if key in s.sfCalls then Goto(s, t, Waiting(s.sfCalls[key]))
    else
      var c := |s.calls|;
      Goto(s, t, AtUpstream(Some(c))).(
        calls := s.calls + [Call(key, t, 1, None, 0)], sfCalls := s.sfCalls[key := c])
  }

  /** An SSE reply while SSE recording is on: streamed, and recorded only when the
      stream completes. It bypasses the cache filter. */
  predicate Streaming(cfg: Config, reply: Reply) {
    reply.Reply? && cfg.sseRecording && reply.resp.sse
  }

  /** Where upstream's reply sends the thread. */
  function NextPc(cfg: Config, lead: Option<nat>, reply: Reply): Pc {
    match reply
    case TransportError => if cfg.staleFallback then StaleLookup(lead) else Finish(lead, Failed, Miss)
    case Reply(resp, readOk) =>
      if Streaming(cfg, reply) || !readOk || !cfg.cacheFilter(resp) then Finish(lead, Got(resp), Miss)
      else Recording(lead, resp)
  }

  function Counted(s: State, lead: Option<nat>): State {
    if lead.Some? && lead.value < |s.calls|
    then SetCall(s, lead.value, s.calls[lead.value].(upstreams := s.calls[lead.value].upstreams + 1))
    else s
  }

  function DoUpstream(cfg: Config, s: State, t: nat, reply: Reply): State
    requires t in s.threads && s.threads[t].pc.AtUpstream?
  {
    var req, lead := s.threads[t].req, s.threads[t].pc.lead;
    var s1 := Goto(Counted(Logged(s, req, reply), lead), t, NextPc(cfg, lead, reply));
    if Streaming(cfg, reply) then s1.(streams := s.streams + [RawTape(cfg, "", req, reply.resp)]) else s1
  }

  function DoRecord(cfg: Config, s: State, t: nat, id: string, saveOk: bool): State
    requires t in s.threads && s.threads[t].pc.Recording?
  {
    var th := s.threads[t];
    var s1 := Goto(s, t, Finish(th.pc.lead, Got(th.pc.resp), Miss));
    if saveOk then s1.(store := s.store + [cfg.sanitize(RawTape(cfg, id, th.req, th.pc.resp))]) else s1
  }

  /** The stale fallback's answer to a query. */
  function StaleOutcome(s: State, q: Query): Outcome {
    if q.Picked? && q.pick.Some? && q.pick.value < |s.store| then Got(s.store[q.pick.value].response) else Failed
  }

  function DoWake(cfg: Config, s: State, t: nat): State
    requires t in s.threads && s.threads[t].pc.Waiting? && s.threads[t].pc.call < |s.calls|
  {
    var c := s.threads[t].pc.call;
    match s.calls[c].outcome
    case None => Goto(s, t, Done(Failed, Shared)) // a read before completion: shown never to happen
    case Some(Failed) => Goto(s, t, if cfg.staleFallback then WaiterStale(c) else Done(Failed, Shared))
    case Some(Got(resp)) => Goto(s, t, if resp.sse then Requery else Done(Got(resp), Shared))
  }

  function DoRequery(s: State, t: nat, q: Query): State
    requires t in s.threads
  {
    if q.Picked? && q.pick.Some? && q.pick.value < |s.store| then
      Goto(s, t, Done(Got(s.store[q.pick.value].response), Shared))
    else Goto(s, t, AtUpstream(None))
  }

  function DoRemove(cfg: Config, s: State, t: nat): State
    requires t in s.threads && s.threads[t].pc.Removing?
  {
    var pc, key := s.threads[t].pc, KeyOf(cfg, s.threads[t].req);
    Goto(s, t, Done(pc.outcome, pc.how)).(
      sfCalls := s.sfCalls - {key},
      removedOther := s.removedOther || key !in s.sfCalls || s.sfCalls[key] != pc.call)
  }

  function DoSetResult(s: State, t: nat): State
    requires t in s.threads && s.threads[t].pc.Publishing?
  {
    var pc := s.threads[t].pc;
    var s1 := if pc.call < |s.calls| then SetCall(s, pc.call, s.calls[pc.call].(outcome := Some(pc.outcome))) else s;
    Goto(s1, t, Signalling(pc.call, pc.outcome, pc.how))
  }

  function DoSignal(s: State, t: nat): State
    requires t in s.threads && s.threads[t].pc.Signalling? && s.threads[t].pc.call < |s.calls|
  {
    var pc := s.threads[t].pc;
    Goto(SetCall(s, pc.call, s.calls[pc.call].(counter := s.calls[pc.call].counter - 1)), t,
      Removing(pc.call, pc.outcome, pc.how))
  }

  function Step(cfg: Config, s: State, a: Action): State
    requires Enabled(cfg, s, a)
  {
    match a
    case Arrive(t, req) => s.(threads := s.threads[t := Thread(req, Start)])
    case Bypass(t, reply) =>
      Goto(Logged(s, s.threads[t].req, reply), t,
        Done(if reply.TransportError? then Failed else Got(reply.resp), Bypassed))
    case Lookup(t, q) => DoLookup(cfg, s, t, q)
    case EnterFlight(t) => DoEnter(cfg, s, t)
    case CallUpstream(t, reply) => DoUpstream(cfg, s, t, reply)
    case Record(t, id, saveOk) => DoRecord(cfg, s, t, id, saveOk)
    case ServeStale(t, q) => Goto(s, t, Finish(s.threads[t].pc.lead, StaleOutcome(s, q), Stale))
    case SetResult(t) => DoSetResult(s, t)
    case Signal(t) => DoSignal(s, t)
    case RemoveEntry(t) => DoRemove(cfg, s, t)
    case Wake(t) => DoWake(cfg, s, t)
    case WakeStale(t, q) => Goto(s, t, Done(StaleOutcome(s, q), Stale))
    case RequeryStore(t, q) => DoRequery(s, t, q)
    case StreamCompletes(i, id) => s.(store := s.store + [cfg.sanitize(s.streams[i].(id := id))])
  }

  predicate Runs(cfg: Config, s: State, acts: seq<Action>)
    decreases |acts|
  {
    acts == [] || (Enabled(cfg, s, acts[0]) && Runs(cfg, Step(cfg, s, acts[0]), acts[1..]))
  }

  function After(cfg: Config, s: State, acts: seq<Action>): State
    requires Runs(cfg, s, acts)
    decreases |acts|
  {
    if acts == [] then s else After(cfg, Step(cfg, s, acts[0]), acts[1..])
  }

  /** The table of calls in flight as the transport keeps it. Each method is one
      atomic section of the code and makes the move of the machine above; `s` is
      the state of the whole machine at that moment. */
  class FlightTable {
    var sfCalls: map<string, nat>
    var calls: seq<Call>

    ghost predicate Shows(s: State)
      reads this
    {
      sfCalls == s.sfCalls && calls == s.calls
    }

    constructor ()
      ensures Shows(INIT)
    {
      sfCalls, calls := map[], [];
    }

    /** The lookup under the lock: join the call in flight or register a new one. */
    method JoinOrLead(cfg: Config, t: nat, req: Request, ghost s: State) returns (pc: Pc)
      requires Shows(s) && t in s.threads && s.threads[t] == Thread(req, Enter) && cfg.singleFlight
      modifies this
      ensures Shows(DoEnter(cfg, s, t)) && DoEnter(cfg, s, t).threads[t] == Thread(req, pc)
    {
      var key := KeyOf(cfg, req);
      if key in sfCalls {
        return Waiting(sfCalls[key]);
      }
      var call := |calls|;
      calls := calls + [Call(key, t, 1, None, 0)];
      sfCalls := sfCalls[key := call];
      return AtUpstream(Some(call));
    }

    method SetResult(call: nat, outcome: Outcome, t: nat, ghost s: State)
      requires Shows(s) && call < |calls| && t in s.threads && s.threads[t].pc.Publishing?
      requires s.threads[t].pc.call == call && s.threads[t].pc.outcome == outcome
      modifies this`calls
      ensures Shows(DoSetResult(s, t))
    {
      calls := calls[call := calls[call].(outcome := Some(outcome))];
    }

    method WaitGroupDone(call: nat, t: nat, ghost s: State)
      requires Shows(s) && call < |calls| && t in s.threads && s.threads[t].pc.Signalling? && s.threads[t].pc.call == call
      modifies this`calls
      ensures Shows(DoSignal(s, t))
    {
      calls := calls[call := calls[call].(counter := calls[call].counter - 1)];
    }

    /** The delete is by key: that it hits the caller's own entry is what
        `SingleFlight.AtMostOneLeader` says. */
    method Forget(cfg: Config, req: Request, t: nat, ghost s: State)
      requires Shows(s) && t in s.threads && s.threads[t].pc.Removing? && s.threads[t].req == req
      modifies this`sfCalls
      ensures Shows(DoRemove(cfg, s, t))
    {
      sfCalls := sfCalls - {KeyOf(cfg, req)};
    }
  }
}
