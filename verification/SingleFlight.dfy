/** Safety of single-flight under every interleaving. */
module SingleFlight {
  import opened Options
  import opened Tapes
  import opened CachingTransport

  /** The call a thread leads: it created the entry and has not yet removed it. */
  function Lead(pc: Pc): Option<nat> {
    match pc
    case AtUpstream(lead) => lead
    case Recording(lead, _) => lead
    case StaleLookup(lead) => lead
    case Publishing(c, _, _) => Some(c)
    case Signalling(c, _, _) => Some(c)
    case Removing(c, _, _) => Some(c)
    case _ => None
  }

  /** How the call of a leader looks at each of its program points. */
  predicate CallAt(pc: Pc, call: Call) {
    match pc
    case AtUpstream(_) => call.counter == 1 && call.outcome == None && call.upstreams == 0
    case Recording(_, _) => call.counter == 1 && call.outcome == None && call.upstreams == 1
    case StaleLookup(_) => call.counter == 1 && call.outcome == None && call.upstreams == 1
    case Publishing(_, _, _) => call.counter == 1 && call.outcome == None && call.upstreams == 1
    case Signalling(_, o, _) => call.counter == 1 && call.outcome == Some(o) && call.upstreams == 1
    case Removing(_, o, _) => call.counter == 0 && call.outcome == Some(o) && call.upstreams == 1
    case _ => false
  }

  predicate Finished(pc: Pc, call: Call) {
    pc.Done? && call.counter == 0 && call.outcome == Some(pc.outcome) && call.upstreams == 1
  }

  /** A thread that leads a call owns it, and the table still maps its key to it;
      a waiter waits on a call with its own key. */
  predicate ThreadOk(cfg: Config, s: State, t: nat)
    requires t in s.threads
  {
    var th := s.threads[t];
    match Lead(th.pc)
    case Some(c) =>
      c < |s.calls| && s.calls[c].owner == t && s.calls[c].key == KeyOf(cfg, th.req) &&
      s.calls[c].key in s.sfCalls && s.sfCalls[s.calls[c].key] == c && CallAt(th.pc, s.calls[c])
    case None =>
      (th.pc.Waiting? || th.pc.WaiterStale?) ==>
        th.pc.call < |s.calls| && s.calls[th.pc.call].key == KeyOf(cfg, th.req)
  }

  predicate EntryOk(s: State, key: string)
    requires key in s.sfCalls
  {
    var c := s.sfCalls[key];
    c < |s.calls| && s.calls[c].key == key && s.calls[c].owner in s.threads &&
    Lead(s.threads[s.calls[c].owner].pc) == Some(c)
  }

  predicate CallOk(cfg: Config, s: State, c: nat)
    requires c < |s.calls|
  {
    var call := s.calls[c];
    call.owner in s.threads && call.key == KeyOf(cfg, s.threads[call.owner].req) &&
    (Lead(s.threads[call.owner].pc) == Some(c) || Finished(s.threads[call.owner].pc, call))
  }

  ghost predicate ThreadsOk(cfg: Config, s: State) { forall t :: t in s.threads ==> ThreadOk(cfg, s, t) }

  ghost predicate EntriesOk(s: State) { forall key :: key in s.sfCalls ==> EntryOk(s, key) }

  ghost predicate CallsOk(cfg: Config, s: State) { forall c: nat :: c < |s.calls| ==> CallOk(cfg, s, c) }

  ghost predicate Inv(cfg: Config, s: State) {
    ThreadsOk(cfg, s) && EntriesOk(s) && CallsOk(cfg, s) && !s.removedOther
  }

  // ----- preservation -----

  /** Moves of one thread that leave the table alone. */
  predicate QuietMove(s: State, s': State, t: nat) {
    t in s.threads && t in s'.threads && s'.threads[t].req == s.threads[t].req &&
    s'.threads == s.threads[t := s'.threads[t]] &&
    s'.calls == s.calls && s'.sfCalls == s.sfCalls && s'.removedOther == s.removedOther &&
    Lead(s'.threads[t].pc) == Lead(s.threads[t].pc)
  }

  lemma QuietMoveKeepsInv(cfg: Config, s: State, s': State, t: nat)
    requires Inv(cfg, s) && QuietMove(s, s', t) && ThreadOk(cfg, s', t) && !s.threads[t].pc.Done?
    ensures Inv(cfg, s')
  {
    hide CallAt, KeyOf;
    forall u | u in s'.threads ensures ThreadOk(cfg, s', u) {
      if u != t { assert ThreadOk(cfg, s, u); }
    }
    forall key | key in s'.sfCalls ensures EntryOk(s', key) {
      assert EntryOk(s, key);
    }
    forall c: nat | c < |s'.calls| ensures CallOk(cfg, s', c) {
      assert CallOk(cfg, s, c);
    }
  }

  /** Moves of a leader that also change its own call, keeping key and owner. */
  predicate LeaderMove(s: State, s': State, t: nat, c: nat) {
    t in s.threads && t in s'.threads && s'.threads[t].req == s.threads[t].req &&
    s'.threads == s.threads[t := s'.threads[t]] &&
    c < |s.calls| && |s'.calls| == |s.calls| && s'.calls == s.calls[c := s'.calls[c]] &&
    s'.calls[c].key == s.calls[c].key && s'.calls[c].owner == s.calls[c].owner &&
    s'.sfCalls == s.sfCalls && s'.removedOther == s.removedOther &&
    Lead(s.threads[t].pc) == Some(c) && Lead(s'.threads[t].pc) == Some(c)
  }

  lemma LeaderMoveKeepsInv(cfg: Config, s: State, s': State, t: nat, c: nat)
    requires Inv(cfg, s) && LeaderMove(s, s', t, c) && CallAt(s'.threads[t].pc, s'.calls[c])
    ensures Inv(cfg, s')
  {
    hide CallAt, KeyOf;
    assert ThreadOk(cfg, s, t);
    forall u | u in s'.threads ensures ThreadOk(cfg, s', u) {
      assert ThreadOk(cfg, s, u);
    }
    forall key | key in s'.sfCalls ensures EntryOk(s', key) {
      assert EntryOk(s, key);
    }
    forall d: nat | d < |s'.calls| ensures CallOk(cfg, s', d) {
      assert CallOk(cfg, s, d);
    }
  }

  lemma ArriveKeepsInv(cfg: Config, s: State, t: nat, req: Request)
    requires Inv(cfg, s) && t !in s.threads
    ensures Inv(cfg, Step(cfg, s, Arrive(t, req)))
  {
    hide CallAt, KeyOf;
    var s' := Step(cfg, s, Arrive(t, req));
    forall u | u in s'.threads ensures ThreadOk(cfg, s', u) {
      if u != t { assert ThreadOk(cfg, s, u); }
    }
    forall key | key in s'.sfCalls ensures EntryOk(s', key) { assert EntryOk(s, key); }
    forall c: nat | c < |s'.calls| ensures CallOk(cfg, s', c) { assert CallOk(cfg, s, c); }
  }

  lemma NewFlightKeepsInv(cfg: Config, s: State, t: nat)
    requires Inv(cfg, s) && t in s.threads && s.threads[t].pc.Enter?
    requires cfg.singleFlight && KeyOf(cfg, s.threads[t].req) !in s.sfCalls
    ensures Inv(cfg, DoEnter(cfg, s, t))
  {
    NewFlightThreads(cfg, s, t);
    NewFlightEntries(cfg, s, t);
    hide KeyOf, CallAt, ThreadsOk, EntriesOk;
    var s', n := DoEnter(cfg, s, t), |s.calls|;
    assert forall c :: 0 <= c < n ==> s'.calls[c] == s.calls[c];
    forall c: nat | c < |s'.calls| ensures CallOk(cfg, s', c) {
      if c < n { assert CallOk(cfg, s, c); }
    }
  }

  lemma NewFlightEntries(cfg: Config, s: State, t: nat)
    requires Inv(cfg, s) && t in s.threads && s.threads[t].pc.Enter?
    requires cfg.singleFlight && KeyOf(cfg, s.threads[t].req) !in s.sfCalls
    ensures EntriesOk(DoEnter(cfg, s, t))
  {
    hide KeyOf, CallAt, ThreadsOk, CallsOk;
    var s', key := DoEnter(cfg, s, t), KeyOf(cfg, s.threads[t].req);
    forall k | k in s'.sfCalls ensures EntryOk(s', k) {
      if k != key { assert EntryOk(s, k); }
    }
  }

  lemma NewFlightThreads(cfg: Config, s: State, t: nat)
    requires Inv(cfg, s) && t in s.threads && s.threads[t].pc.Enter?
    requires cfg.singleFlight && KeyOf(cfg, s.threads[t].req) !in s.sfCalls
    ensures ThreadsOk(cfg, DoEnter(cfg, s, t))
  {
    var s', n := DoEnter(cfg, s, t), |s.calls|;
    assert CallAt(s'.threads[t].pc, s'.calls[n]);
    hide KeyOf, CallAt, EntriesOk, CallsOk;
    assert forall c :: 0 <= c < n ==> s'.calls[c] == s.calls[c];
    forall u | u in s'.threads ensures ThreadOk(cfg, s', u) {
      if u != t { assert ThreadOk(cfg, s, u); }
    }
  }

  lemma RemoveKeepsInv(cfg: Config, s: State, t: nat)
    requires Inv(cfg, s) && t in s.threads && s.threads[t].pc.Removing?
    ensures Inv(cfg, DoRemove(cfg, s, t))
  {
    RemoveThreads(cfg, s, t);
    var s' := DoRemove(cfg, s, t);
    var c, key := s.threads[t].pc.call, KeyOf(cfg, s.threads[t].req);
    assert ThreadOk(cfg, s, t);
    hide KeyOf, CallAt, ThreadsOk;
    forall k | k in s'.sfCalls ensures EntryOk(s', k) {
      assert EntryOk(s, k);
      assert s.sfCalls[k] != c;
    }
    forall d: nat | d < |s'.calls| ensures CallOk(cfg, s', d) {
      assert CallOk(cfg, s, d);
      if d == c { FinishedAfterRemoval(s.threads[t].pc, s.calls[c]); }
    }
  }

  lemma RemoveThreads(cfg: Config, s: State, t: nat)
    requires Inv(cfg, s) && t in s.threads && s.threads[t].pc.Removing?
    ensures ThreadsOk(cfg, DoRemove(cfg, s, t))
  {
    var s' := DoRemove(cfg, s, t);
    assert ThreadOk(cfg, s, t);
    hide KeyOf, CallAt, EntriesOk, CallsOk;
    forall u | u in s'.threads ensures ThreadOk(cfg, s', u) {
      assert ThreadOk(cfg, s, u);
    }
  }

  lemma FinishedAfterRemoval(pc: Pc, call: Call)
    requires pc.Removing? && CallAt(pc, call)
    ensures Finished(Done(pc.outcome, pc.how), call)
  {
  }

  lemma NextPcIsGood(cfg: Config, lead: Option<nat>, reply: Reply, call: Call)
    ensures Lead(NextPc(cfg, lead, reply)) == lead
    ensures var pc := NextPc(cfg, lead, reply); !pc.Waiting? && !pc.WaiterStale?
    ensures lead.Some? && CallAt(AtUpstream(lead), call) ==>
      CallAt(NextPc(cfg, lead, reply), call.(upstreams := call.upstreams + 1))
  {
  }

  lemma UpstreamKeepsInv(cfg: Config, s: State, t: nat, reply: Reply)
    requires Inv(cfg, s) && t in s.threads && s.threads[t].pc.AtUpstream?
    ensures Inv(cfg, DoUpstream(cfg, s, t, reply))
  {
    hide Inv, CallAt, NextPc;
    UpstreamMoveKeepsInv(cfg, s, t, reply);
    StoreKeepsInv(cfg, Goto(Counted(s, s.threads[t].pc.lead), t, NextPc(cfg, s.threads[t].pc.lead, reply)), DoUpstream(cfg, s, t, reply));
  }

  /** The upstream call without what it logs. */
  lemma UpstreamMoveKeepsInv(cfg: Config, s: State, t: nat, reply: Reply)
    requires Inv(cfg, s) && t in s.threads && s.threads[t].pc.AtUpstream?
    ensures Inv(cfg, Goto(Counted(s, s.threads[t].pc.lead), t, NextPc(cfg, s.threads[t].pc.lead, reply)))
  {
    var lead := s.threads[t].pc.lead;
    var pc := NextPc(cfg, lead, reply);
    assert ThreadOk(cfg, s, t);
    if lead.Some? {
      NextPcIsGood(cfg, lead, reply, s.calls[lead.value]);
      hide ThreadsOk, EntriesOk, CallsOk, CallAt, NextPc;
      CountedMoveKeepsInv(cfg, s, t, lead.value, pc);
    } else {
      NextPcIsGood(cfg, lead, reply, Call("", 0, 0, None, 0));
      hide KeyOf, CallAt, NextPc, ThreadsOk, EntriesOk, CallsOk;
      IdleMoveKeepsInv(cfg, s, t, pc);
    }
  }

  lemma CountedMoveKeepsInv(cfg: Config, s: State, t: nat, c: nat, pc: Pc)
    requires Inv(cfg, s) && t in s.threads && Lead(s.threads[t].pc) == Some(c) && c < |s.calls|
    requires Lead(pc) == Some(c) && CallAt(pc, s.calls[c].(upstreams := s.calls[c].upstreams + 1))
    ensures Inv(cfg, Goto(Counted(s, Some(c)), t, pc))
  {
    hide KeyOf, CallAt, Inv, Lead;
    LeaderMoveKeepsInv(cfg, s, Goto(Counted(s, Some(c)), t, pc), t, c);
  }

  /** The moves that neither create, change nor remove an entry. */
  predicate Ordinary(a: Action) {
    a.Bypass? || a.Lookup? || a.Record? || a.ServeStale? || a.Wake? || a.WakeStale? || a.RequeryStore?
  }

  /** A thread that leads no call moves to a point where it leads none. */
  lemma IdleMoveKeepsInv(cfg: Config, s: State, t: nat, pc: Pc)
    requires Inv(cfg, s) && t in s.threads && !s.threads[t].pc.Done?
    requires Lead(s.threads[t].pc) == None && Lead(pc) == None
    requires pc.Waiting? || pc.WaiterStale? ==> pc.call < |s.calls| && s.calls[pc.call].key == KeyOf(cfg, s.threads[t].req)
    ensures Inv(cfg, Goto(s, t, pc))
  {
    hide KeyOf, CallAt;
    QuietMoveKeepsInv(cfg, s, Goto(s, t, pc), t);
  }

  /** A leader moves on without touching its call. */
  lemma LeaderStepKeepsInv(cfg: Config, s: State, t: nat, pc: Pc)
    requires Inv(cfg, s) && t in s.threads && !s.threads[t].pc.Done?
    requires Lead(s.threads[t].pc) == Lead(pc) && Lead(pc).Some?
    requires ThreadOk(cfg, s, t) ==> CallAt(pc, s.calls[Lead(pc).value])
    ensures Inv(cfg, Goto(s, t, pc))
  {
    assert ThreadOk(cfg, s, t);
    hide KeyOf, CallAt;
    QuietMoveKeepsInv(cfg, s, Goto(s, t, pc), t);
  }

  lemma FinishKeepsInv(cfg: Config, s: State, t: nat, lead: Option<nat>, outcome: Outcome, how: How)
    requires Inv(cfg, s) && t in s.threads
    requires s.threads[t].pc.Recording? || s.threads[t].pc.StaleLookup?
    requires lead == s.threads[t].pc.lead
    ensures Inv(cfg, Goto(s, t, Finish(lead, outcome, how)))
  {
    if lead.None? {
      IdleMoveKeepsInv(cfg, s, t, Finish(lead, outcome, how));
    } else {
      LeaderStepKeepsInv(cfg, s, t, Finish(lead, outcome, how));
    }
  }

  lemma WakeKeepsInv(cfg: Config, s: State, t: nat)
    requires Inv(cfg, s) && t in s.threads && s.threads[t].pc.Waiting? && s.threads[t].pc.call < |s.calls|
    ensures Inv(cfg, DoWake(cfg, s, t))
  {
    assert ThreadOk(cfg, s, t);
    IdleMoveKeepsInv(cfg, s, t, DoWake(cfg, s, t).threads[t].pc);
  }

  lemma OrdinaryKeepsInv(cfg: Config, s: State, a: Action)
    requires Inv(cfg, s) && Enabled(cfg, s, a) && Ordinary(a)
    ensures Inv(cfg, Step(cfg, s, a))
  {
    hide KeyOf, QueryOk, ThreadsOk, EntriesOk, CallsOk;
    match a {
      case Bypass(t, reply) =>
        var pc := Done(if reply.TransportError? then Failed else Got(reply.resp), Bypassed);
        IdleMoveKeepsInv(cfg, s, t, pc);
        StoreKeepsInv(cfg, Goto(s, t, pc), Step(cfg, s, a));
      case Lookup(t, q) =>
        IdleMoveKeepsInv(cfg, s, t, DoLookup(cfg, s, t, q).threads[t].pc);
      case Record(t, id, saveOk) =>
        var pc := Finish(s.threads[t].pc.lead, Got(s.threads[t].pc.resp), Miss);
        FinishKeepsInv(cfg, s, t, s.threads[t].pc.lead, Got(s.threads[t].pc.resp), Miss);
        StoreKeepsInv(cfg, Goto(s, t, pc), Step(cfg, s, a));
      case ServeStale(t, q) =>
        FinishKeepsInv(cfg, s, t, s.threads[t].pc.lead, StaleOutcome(s, q), Stale);
      case Wake(t) => WakeKeepsInv(cfg, s, t);
      case WakeStale(t, q) => IdleMoveKeepsInv(cfg, s, t, Done(StaleOutcome(s, q), Stale));
      case RequeryStore(t, q) => IdleMoveKeepsInv(cfg, s, t, DoRequery(s, t, q).threads[t].pc);
      case _ =>
    }
  }

  lemma StepKeepsInv(cfg: Config, s: State, a: Action)
    requires Inv(cfg, s) && Enabled(cfg, s, a)
    ensures Inv(cfg, Step(cfg, s, a))
  {
    hide KeyOf, QueryOk;
    match a {
      case Arrive(t, req) => ArriveKeepsInv(cfg, s, t, req);
      case EnterFlight(t) => EnterKeepsInv(cfg, s, t);
      case CallUpstream(t, reply) => UpstreamKeepsInv(cfg, s, t, reply);
      case SetResult(t) => SetResultKeepsInv(cfg, s, t);
      case Signal(t) => SignalKeepsInv(cfg, s, t);
      case RemoveEntry(t) => RemoveKeepsInv(cfg, s, t);
      case StreamCompletes(_, _) => StoreKeepsInv(cfg, s, Step(cfg, s, a));
      case _ => OrdinaryKeepsInv(cfg, s, a);
    }
  }

  lemma EnterKeepsInv(cfg: Config, s: State, t: nat)
    requires Inv(cfg, s) && t in s.threads && s.threads[t].pc.Enter?
    ensures Inv(cfg, DoEnter(cfg, s, t))
  {
    var key := KeyOf(cfg, s.threads[t].req);
    if cfg.singleFlight && key !in s.sfCalls {
      NewFlightKeepsInv(cfg, s, t);
    } else {
      if key in s.sfCalls { assert EntryOk(s, key); }
      QuietMoveKeepsInv(cfg, s, DoEnter(cfg, s, t), t);
    }
  }

  lemma SetResultKeepsInv(cfg: Config, s: State, t: nat)
    requires Inv(cfg, s) && t in s.threads && s.threads[t].pc.Publishing?
    ensures Inv(cfg, DoSetResult(s, t))
  {
    assert ThreadOk(cfg, s, t);
    LeaderMoveKeepsInv(cfg, s, DoSetResult(s, t), t, s.threads[t].pc.call);
  }

  lemma SignalKeepsInv(cfg: Config, s: State, t: nat)
    requires Inv(cfg, s) && t in s.threads && s.threads[t].pc.Signalling? && s.threads[t].pc.call < |s.calls|
    ensures Inv(cfg, DoSignal(s, t))
  {
    assert ThreadOk(cfg, s, t);
    LeaderMoveKeepsInv(cfg, s, DoSignal(s, t), t, s.threads[t].pc.call);
  }

  lemma StoreKeepsInv(cfg: Config, s: State, s': State)
    requires Inv(cfg, s) && s' == s.(store := s'.store, log := s'.log, streams := s'.streams)
    ensures Inv(cfg, s')
  {
    hide CallAt, KeyOf;
    forall u | u in s'.threads ensures ThreadOk(cfg, s', u) { assert ThreadOk(cfg, s, u); }
    forall key | key in s'.sfCalls ensures EntryOk(s', key) { assert EntryOk(s, key); }
    forall c: nat | c < |s'.calls| ensures CallOk(cfg, s', c) { assert CallOk(cfg, s, c); }
  }

  lemma {:induction false} RunKeepsInv(cfg: Config, s: State, acts: seq<Action>)
    requires Inv(cfg, s) && Runs(cfg, s, acts)
    ensures Inv(cfg, After(cfg, s, acts))
    decreases |acts|
  {
    if acts != [] {
      hide Inv;
      StepKeepsInv(cfg, s, acts[0]);
      RunKeepsInv(cfg, Step(cfg, s, acts[0]), acts[1..]);
    }
  }

  // ----- the statements -----

  predicate LeadsKey(cfg: Config, s: State, t: nat, key: string) {
    t in s.threads && Lead(s.threads[t].pc).Some? && KeyOf(cfg, s.threads[t].req) == key
  }

  /** At every reachable state a key has at most one leader, the table maps it to
      that leader's call, a leader's call has gone upstream at most once and is
      signalled at most once, and deletes by key have only ever removed the
      deleter's own entry. */
  lemma AtMostOneLeader(cfg: Config, acts: seq<Action>, key: string, t: nat, u: nat)
    requires Runs(cfg, INIT, acts)
    requires LeadsKey(cfg, After(cfg, INIT, acts), t, key) && LeadsKey(cfg, After(cfg, INIT, acts), u, key)
    ensures t == u
    ensures var s := After(cfg, INIT, acts);
      key in s.sfCalls && Lead(s.threads[t].pc) == Some(s.sfCalls[key]) && !s.removedOther
  {
    RunKeepsInv(cfg, INIT, acts);
    var s := After(cfg, INIT, acts);
    assert ThreadOk(cfg, s, t) && ThreadOk(cfg, s, u);
  }

  /** Every call goes upstream at most once and is completed exactly once, by its
      leader, and a waiter whose wait is over finds the result set. */
  lemma CallsCompleteOnce(cfg: Config, acts: seq<Action>, c: nat)
    requires Runs(cfg, INIT, acts) && c < |After(cfg, INIT, acts).calls|
    ensures var s := After(cfg, INIT, acts);
      var call := s.calls[c];
      call.upstreams <= 1 && 0 <= call.counter <= 1 && (call.counter == 0 ==> call.outcome.Some?) &&
      call.owner in s.threads &&
      (call.counter == 0 <==> s.threads[call.owner].pc.Removing? || Lead(s.threads[call.owner].pc) != Some(c))
  {
    RunKeepsInv(cfg, INIT, acts);
    var s := After(cfg, INIT, acts);
    assert CallOk(cfg, s, c);
    assert ThreadOk(cfg, s, s.calls[c].owner);
  }

  /** The table holds exactly the keys of the current leaders. */
  lemma TableIsLeaders(cfg: Config, acts: seq<Action>, key: string)
    requires Runs(cfg, INIT, acts)
    ensures var s := After(cfg, INIT, acts);
      key in s.sfCalls <==> exists t :: LeadsKey(cfg, s, t, key)
  {
    RunKeepsInv(cfg, INIT, acts);
    var s := After(cfg, INIT, acts);
    if key in s.sfCalls {
      assert EntryOk(s, key);
      var t := s.calls[s.sfCalls[key]].owner;
      assert ThreadOk(cfg, s, t);
      assert LeadsKey(cfg, s, t, key);
    }
    forall t | LeadsKey(cfg, s, t, key) ensures key in s.sfCalls {
      assert ThreadOk(cfg, s, t);
    }
  }

  // ----- a waiter can always be released -----

  lemma RunCons(cfg: Config, s: State, a: Action, rest: seq<Action>)
    requires Enabled(cfg, s, a) && Runs(cfg, Step(cfg, s, a), rest)
    ensures Runs(cfg, s, [a] + rest) && After(cfg, s, [a] + rest) == After(cfg, Step(cfg, s, a), rest)
  {
    hide Enabled, Step;
    assert ([a] + rest)[1..] == rest;
  }

  /** How many moves a leader is from releasing its waiters. */
  function Distance(pc: Pc): nat {
    match pc
    case AtUpstream(_) => 4
    case Recording(_, _) => 3
    case StaleLookup(_) => 3
    case Publishing(_, _, _) => 2
    case Signalling(_, _, _) => 1
    case _ => 0
  }

  /** A leader's next move when upstream fails and the store neither saves nor lists. */
  function LeaderMoveOf(t: nat, pc: Pc): Action {
    match pc
    case AtUpstream(_) => CallUpstream(t, TransportError)
    case Recording(_, _) => Record(t, "", false)
    case StaleLookup(_) => ServeStale(t, ListFailed)
    case Publishing(_, _, _) => SetResult(t)
    case _ => Signal(t)
  }

  lemma LeaderCanMove(cfg: Config, s: State, t: nat, c: nat)
    requires c < |s.calls| && t in s.threads && Lead(s.threads[t].pc) == Some(c) && !s.threads[t].pc.Removing?
    ensures var a := LeaderMoveOf(t, s.threads[t].pc);
      Enabled(cfg, s, a) &&
      var s' := Step(cfg, s, a);
      t in s'.threads && s'.threads == s.threads[t := s'.threads[t]] && Lead(s'.threads[t].pc) == Some(c) &&
      Distance(s'.threads[t].pc) < Distance(s.threads[t].pc) && (s'.threads[t].pc.Removing? <==> s.threads[t].pc.Signalling?)
  {
    assert QueryOk(cfg, s, s.threads[t].req, ListFailed);
    hide KeyOf, QueryOk;
  }

  lemma {:induction false} LeaderCanFinish(cfg: Config, s: State, t: nat, c: nat, w: nat) returns (more: seq<Action>)
    requires Inv(cfg, s) && t in s.threads && Lead(s.threads[t].pc) == Some(c) && w in s.threads && w != t
    ensures |more| <= Distance(s.threads[t].pc) && Runs(cfg, s, more)
    ensures var s' := After(cfg, s, more);
      c < |s'.calls| && s'.calls[c].counter == 0 && w in s'.threads && s'.threads[w] == s.threads[w]
    decreases Distance(s.threads[t].pc)
  {
    assert ThreadOk(cfg, s, t);
    if s.threads[t].pc.Removing? {
      more := [];
    } else {
      var a := LeaderMoveOf(t, s.threads[t].pc);
      LeaderCanMove(cfg, s, t, c);
      hide Inv, Enabled, Step;
      StepKeepsInv(cfg, s, a);
      var rest := LeaderCanFinish(cfg, Step(cfg, s, a), t, c, w);
      RunCons(cfg, s, a, rest);
      more := [a] + rest;
    }
  }

  /** At every reachable state every waiter can be released by at most four moves of its
      leader and its own wake-up, even if upstream fails and the store neither saves
      nor lists. */
  lemma WaitersCanBeReleased(cfg: Config, acts: seq<Action>, w: nat) returns (more: seq<Action>)
    requires Runs(cfg, INIT, acts) && w in After(cfg, INIT, acts).threads && After(cfg, INIT, acts).threads[w].pc.Waiting?
    ensures |more| <= 5 && Runs(cfg, After(cfg, INIT, acts), more)
    ensures var s := After(cfg, After(cfg, INIT, acts), more); w in s.threads && !s.threads[w].pc.Waiting?
  {
    RunKeepsInv(cfg, INIT, acts);
    var s := After(cfg, INIT, acts);
    hide Inv, KeyOf, Runs, After;
    var rest := CallCanComplete(cfg, s, w);
    WakeReleases(cfg, After(cfg, s, rest), w);
    hide Enabled, Step;
    RunMore(cfg, s, rest, Wake(w));
    more := rest + [Wake(w)];
  }

  lemma WakeReleases(cfg: Config, s: State, w: nat)
    requires w in s.threads && s.threads[w].pc.Waiting? && s.threads[w].pc.call < |s.calls|
    requires s.calls[s.threads[w].pc.call].counter == 0
    ensures Enabled(cfg, s, Wake(w))
    ensures var s' := Step(cfg, s, Wake(w)); w in s'.threads && !s'.threads[w].pc.Waiting?
  {
  }

  /** Whoever the waiter waits for can finish. */
  lemma CallCanComplete(cfg: Config, s: State, w: nat) returns (more: seq<Action>)
    requires Inv(cfg, s) && w in s.threads && s.threads[w].pc.Waiting?
    ensures |more| <= 4 && Runs(cfg, s, more)
    ensures var s', c := After(cfg, s, more), s.threads[w].pc.call;
      w in s'.threads && s'.threads[w] == s.threads[w] && c < |s'.calls| && s'.calls[c].counter == 0
  {
    var c := s.threads[w].pc.call;
    assert ThreadOk(cfg, s, w);
    assert CallOk(cfg, s, c);
    hide Inv, KeyOf, CallAt;
    if Lead(s.threads[s.calls[c].owner].pc) == Some(c) {
      more := LeaderCanFinish(cfg, s, s.calls[c].owner, c, w);
    } else {
      more := [];
    }
  }

  lemma {:induction false} RunMore(cfg: Config, s: State, acts: seq<Action>, a: Action)
    requires Runs(cfg, s, acts) && Enabled(cfg, After(cfg, s, acts), a)
    ensures Runs(cfg, s, acts + [a]) && After(cfg, s, acts + [a]) == Step(cfg, After(cfg, s, acts), a)
    decreases |acts|
  {
    hide Enabled, Step;
    assert (acts + [a])[0] == if acts == [] then a else acts[0];
    if acts == [] {
      assert (acts + [a])[1..] == [];
    } else {
      assert (acts + [a])[1..] == acts[1..] + [a];
      RunMore(cfg, Step(cfg, s, acts[0]), acts[1..], a);
    }
  }
}
