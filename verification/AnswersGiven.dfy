/** Who is answered what by the caching transport, told from the actions of a run
    alone: a caller gets the answer upstream gave to it or to the leader it waited for,
    or the tape that was picked for it, and nothing else. */
module AnswersGiven {
  import opened Options
  import opened Tapes
  import opened CachingTransport
  import SingleFlight

  function OutcomeOf(reply: Reply): Outcome {
    match reply
    case Reply(resp, _) => Got(resp)
    case TransportError => Failed
  }

  // ----- what an answer can come from -----

  /** The tape picked by the `i`th action stood there in the store at that moment. */
  ghost predicate PickedAt(cfg: Config, acts: seq<Action>, i: nat, pick: nat, o: Outcome) {
    i <= |acts| && Runs(cfg, INIT, acts[..i]) &&
    var store := After(cfg, INIT, acts[..i]).store; pick < |store| && o == Got(store[pick].response)
  }

  /** What a query for a stale answer gave: the picked tape's response, or nothing. */
  ghost predicate QueryGave(cfg: Config, acts: seq<Action>, i: nat, q: Query, o: Outcome) {
    if q.Picked? && q.pick.Some? then PickedAt(cfg, acts, i, q.pick.value, o) else o == Failed
  }

  ghost predicate HitGave(cfg: Config, acts: seq<Action>, t: nat, o: Outcome) {
    !cfg.lookupDisabled &&
    exists i: nat, k: nat :: i < |acts| && acts[i] == Lookup(t, Picked(Some(k))) && PickedAt(cfg, acts, i, k, o)
  }

  ghost predicate UpstreamGave(acts: seq<Action>, t: nat, o: Outcome) {
    exists reply: Reply :: CallUpstream(t, reply) in acts && o == OutcomeOf(reply)
  }

  ghost predicate BypassGave(acts: seq<Action>, t: nat, o: Outcome) {
    exists reply: Reply :: Bypass(t, reply) in acts && o == OutcomeOf(reply)
  }

  /** Upstream failed, and the stale query decided. */
  ghost predicate StaleGave(cfg: Config, acts: seq<Action>, t: nat, o: Outcome) {
    cfg.staleFallback && CallUpstream(t, TransportError) in acts &&
    exists i: nat, q: Query :: i < |acts| && acts[i] == ServeStale(t, q) && QueryGave(cfg, acts, i, q, o)
  }

  /** A leader's own outcome. */
  ghost predicate LeaderGot(cfg: Config, acts: seq<Action>, u: nat, o: Outcome) {
    (UpstreamGave(acts, u, o) && (o.Failed? ==> !cfg.staleFallback)) || StaleGave(cfg, acts, u, o)
  }

  /** `t` came to the table while `u`'s entry was in it. */
  ghost predicate Joined(acts: seq<Action>, t: nat, u: nat) {
    exists e: nat, f: nat :: e < f < |acts| && acts[e] == EnterFlight(u) && acts[f] == EnterFlight(t) && RemoveEntry(u) !in acts[..f]
  }

  /** `u` signalled with its outcome. */
  ghost predicate Signalled(cfg: Config, acts: seq<Action>, u: nat, o: Outcome) {
    exists g: nat :: g < |acts| && acts[g] == Signal(u) && LeaderGot(cfg, acts[..g], u, o)
  }

  /** `t` joined `u`, another request with its key, and woke up behind its signal. */
  ghost predicate ToldBy(cfg: Config, acts: seq<Action>, s: State, t: nat, u: nat, o: Outcome) {
    t != u && t in s.threads && u in s.threads && KeyOf(cfg, s.threads[u].req) == KeyOf(cfg, s.threads[t].req) &&
    Joined(acts, t, u) &&
    exists w: nat :: w < |acts| && acts[w] == Wake(t) && Signalled(cfg, acts[..w], u, o)
  }

  ghost predicate Told(cfg: Config, acts: seq<Action>, s: State, t: nat, o: Outcome) {
    exists u: nat :: ToldBy(cfg, acts, s, t, u, o)
  }

  /** The stale query of a waiter whose leader failed. */
  ghost predicate WaiterStaleGave(cfg: Config, acts: seq<Action>, s: State, t: nat, o: Outcome) {
    cfg.staleFallback && Told(cfg, acts, s, t, Failed) &&
    exists i: nat, q: Query :: i < |acts| && acts[i] == WakeStale(t, q) && QueryGave(cfg, acts, i, q, o)
  }

  ghost predicate ToldStream(cfg: Config, acts: seq<Action>, s: State, t: nat) {
    exists r: Response :: r.sse && Told(cfg, acts, s, t, Got(r))
  }

  /** The tape a waiter behind a stream found for itself. */
  ghost predicate RequeryGave(cfg: Config, acts: seq<Action>, s: State, t: nat, o: Outcome) {
    ToldStream(cfg, acts, s, t) &&
    exists i: nat, k: nat :: i < |acts| && acts[i] == RequeryStore(t, Picked(Some(k))) && PickedAt(cfg, acts, i, k, o)
  }

  /** A leader's outcome as its waiter takes it over. */
  ghost predicate SharedGave(cfg: Config, acts: seq<Action>, s: State, t: nat, o: Outcome) {
    Told(cfg, acts, s, t, o) && (if o.Got? then !o.resp.sse else !cfg.staleFallback)
  }

  /** Where an answer comes from, by the way it is said to have come. */
  ghost predicate Due(cfg: Config, acts: seq<Action>, s: State, t: nat, o: Outcome, how: How) {
    match how
    case Hit => HitGave(cfg, acts, t, o)
    case Bypassed => BypassGave(acts, t, o)
    case Miss => UpstreamGave(acts, t, o) && (o.Failed? ==> !cfg.staleFallback)
    case Stale => StaleGave(cfg, acts, t, o) || WaiterStaleGave(cfg, acts, s, t, o)
    case Shared => SharedGave(cfg, acts, s, t, o) || RequeryGave(cfg, acts, s, t, o)
  }

  // ----- the invariant -----

  ghost predicate LeaderDue(cfg: Config, acts: seq<Action>, t: nat, o: Outcome, how: How) {
    if how.Miss? then UpstreamGave(acts, t, o) && (o.Failed? ==> !cfg.staleFallback)
    else how.Stale? && StaleGave(cfg, acts, t, o)
  }

  ghost predicate PcDue(cfg: Config, acts: seq<Action>, s: State, t: nat, pc: Pc) {
    match pc
    case Waiting(c) => c < |s.calls| && t != s.calls[c].owner && Joined(acts, t, s.calls[c].owner)
    case WaiterStale(_) => cfg.staleFallback && Told(cfg, acts, s, t, Failed)
    case Requery => ToldStream(cfg, acts, s, t)
    case Recording(_, resp) => UpstreamGave(acts, t, Got(resp))
    case StaleLookup(_) => cfg.staleFallback && CallUpstream(t, TransportError) in acts
    case Publishing(_, o, how) => LeaderDue(cfg, acts, t, o, how)
    case Signalling(_, o, how) => LeaderDue(cfg, acts, t, o, how)
    case Removing(_, o, how) => LeaderDue(cfg, acts, t, o, how)
    case Done(o, how) => Due(cfg, acts, s, t, o, how)
    case _ => true
  }

  ghost predicate ThreadDue(cfg: Config, acts: seq<Action>, s: State, t: nat)
    requires t in s.threads
  {
    PcDue(cfg, acts, s, t, s.threads[t].pc) && (RemoveEntry(t) in acts ==> s.threads[t].pc.Done?)
  }

  ghost predicate CallDue(cfg: Config, acts: seq<Action>, call: Call) {
    EnterFlight(call.owner) in acts &&
    (call.counter == 0 ==> call.outcome.Some? && Signalled(cfg, acts, call.owner, call.outcome.value))
  }

  ghost predicate AllDue(cfg: Config, acts: seq<Action>, s: State) {
    (forall t :: t in s.threads ==> ThreadDue(cfg, acts, s, t)) &&
    (forall t :: RemoveEntry(t) in acts ==> t in s.threads) &&
    (forall c: nat :: c < |s.calls| ==> CallDue(cfg, acts, s.calls[c]))
  }

  // ----- one more action -----

  lemma PickedStays(cfg: Config, acts: seq<Action>, a: Action, i: nat, pick: nat, o: Outcome)
    requires PickedAt(cfg, acts, i, pick, o)
    ensures PickedAt(cfg, acts + [a], i, pick, o)
  {
    assert (acts + [a])[..i] == acts[..i];
  }

  lemma HitStays(cfg: Config, acts: seq<Action>, a: Action, t: nat, o: Outcome)
    requires HitGave(cfg, acts, t, o)
    ensures HitGave(cfg, acts + [a], t, o)
  {
    var i: nat, k: nat :| i < |acts| && acts[i] == Lookup(t, Picked(Some(k))) && PickedAt(cfg, acts, i, k, o);
    PickedStays(cfg, acts, a, i, k, o);
    assert (acts + [a])[i] == acts[i];
  }

  lemma QueryStays(cfg: Config, acts: seq<Action>, a: Action, i: nat, q: Query, o: Outcome)
    requires QueryGave(cfg, acts, i, q, o)
    ensures QueryGave(cfg, acts + [a], i, q, o)
  {
    if q.Picked? && q.pick.Some? { PickedStays(cfg, acts, a, i, q.pick.value, o); }
  }

  lemma StaleStays(cfg: Config, acts: seq<Action>, a: Action, t: nat, o: Outcome)
    requires StaleGave(cfg, acts, t, o)
    ensures StaleGave(cfg, acts + [a], t, o)
  {
    var i: nat, q: Query :| i < |acts| && acts[i] == ServeStale(t, q) && QueryGave(cfg, acts, i, q, o);
    QueryStays(cfg, acts, a, i, q, o);
    assert (acts + [a])[i] == acts[i];
  }

  lemma JoinedStays(acts: seq<Action>, a: Action, t: nat, u: nat)
    requires Joined(acts, t, u)
    ensures Joined(acts + [a], t, u)
  {
    var e: nat, f: nat :| e < f < |acts| && acts[e] == EnterFlight(u) && acts[f] == EnterFlight(t) && RemoveEntry(u) !in acts[..f];
    var more := acts + [a];
    assert more[e] == acts[e] && more[f] == acts[f] && more[..f] == acts[..f];
  }

  lemma SignalledStays(cfg: Config, acts: seq<Action>, a: Action, u: nat, o: Outcome)
    requires Signalled(cfg, acts, u, o)
    ensures Signalled(cfg, acts + [a], u, o)
  {
    hide LeaderGot;
    var g: nat :| g < |acts| && acts[g] == Signal(u) && LeaderGot(cfg, acts[..g], u, o);
    var more := acts + [a];
    assert more[g] == acts[g] && more[..g] == acts[..g];
  }

  /** Threads keep their requests and calls their owners. */
  ghost predicate Keeps(s: State, s': State) {
    (forall t :: t in s.threads ==> t in s'.threads && s'.threads[t].req == s.threads[t].req) &&
    |s.calls| <= |s'.calls| && forall c: nat :: c < |s.calls| ==> s'.calls[c].owner == s.calls[c].owner
  }

  lemma StepKeeps(cfg: Config, s: State, a: Action)
    requires Enabled(cfg, s, a)
    ensures Keeps(s, Step(cfg, s, a))
  {
    StepKeepsThreads(cfg, s, a);
    StepKeepsOwners(cfg, s, a);
  }

  lemma StepKeepsThreads(cfg: Config, s: State, a: Action)
    requires Enabled(cfg, s, a)
    ensures forall t :: t in s.threads ==> t in Step(cfg, s, a).threads && Step(cfg, s, a).threads[t].req == s.threads[t].req
  {
    hide Enabled, Step;
    MovesOne(cfg, s, a);
  }

  /** The thread an action moves. */
  function Mover(a: Action): Option<nat> {
    match a
    case StreamCompletes(_, _) => None
    case _ => Some(a.t)
  }

  /** Only the mover changes its place, and nobody its request. */
  ghost predicate OneMoved(s: State, s': State, a: Action) {
    if a.StreamCompletes? then
      s'.threads == s.threads
    else
      a.t in s'.threads && s'.threads == s.threads[a.t := s'.threads[a.t]] &&
      (a.t in s.threads ==> s'.threads[a.t].req == s.threads[a.t].req)
  }

  lemma MovesOne(cfg: Config, s: State, a: Action)
    requires Enabled(cfg, s, a)
    ensures OneMoved(s, Step(cfg, s, a), a)
  {
    if a.SetResult? || a.Signal? || a.RemoveEntry? || a.CallUpstream? || a.EnterFlight? {
      TableMovesOne(cfg, s, a);
    } else {
      hide KeyOf, QueryOk, RawTape, Oversize, Finish, StaleOutcome;
    }
  }

  lemma TableMovesOne(cfg: Config, s: State, a: Action)
    requires Enabled(cfg, s, a) && (a.SetResult? || a.Signal? || a.RemoveEntry? || a.CallUpstream? || a.EnterFlight?)
    ensures OneMoved(s, Step(cfg, s, a), a)
  {
    hide KeyOf, NextPc, RawTape, Streaming;
  }

  lemma StepKeepsOwners(cfg: Config, s: State, a: Action)
    requires Enabled(cfg, s, a)
    ensures |s.calls| <= |Step(cfg, s, a).calls|
    ensures forall c: nat :: c < |s.calls| ==> Step(cfg, s, a).calls[c].owner == s.calls[c].owner
  {
    hide KeyOf, QueryOk, NextPc, RawTape, Oversize, Finish, StaleOutcome;
  }

  lemma ToldStays(cfg: Config, acts: seq<Action>, s: State, s': State, a: Action, t: nat, o: Outcome)
    requires Told(cfg, acts, s, t, o) && Keeps(s, s')
    ensures Told(cfg, acts + [a], s', t, o)
  {
    hide Joined, Signalled, KeyOf;
    var u: nat :| ToldBy(cfg, acts, s, t, u, o);
    var w: nat :| w < |acts| && acts[w] == Wake(t) && Signalled(cfg, acts[..w], u, o);
    var more := acts + [a];
    JoinedStays(acts, a, t, u);
    assert more[w] == acts[w] && more[..w] == acts[..w];
    assert ToldBy(cfg, more, s', t, u, o);
  }

  lemma ToldStreamStays(cfg: Config, acts: seq<Action>, s: State, s': State, a: Action, t: nat)
    requires ToldStream(cfg, acts, s, t) && Keeps(s, s')
    ensures ToldStream(cfg, acts + [a], s', t)
  {
    hide Told;
    var r: Response :| r.sse && Told(cfg, acts, s, t, Got(r));
    ToldStays(cfg, acts, s, s', a, t, Got(r));
  }

  lemma WaiterStaleStays(cfg: Config, acts: seq<Action>, s: State, s': State, a: Action, t: nat, o: Outcome)
    requires WaiterStaleGave(cfg, acts, s, t, o) && Keeps(s, s')
    ensures WaiterStaleGave(cfg, acts + [a], s', t, o)
  {
    hide Told, QueryGave;
    var i: nat, q: Query :| i < |acts| && acts[i] == WakeStale(t, q) && QueryGave(cfg, acts, i, q, o);
    QueryStays(cfg, acts, a, i, q, o);
    ToldStays(cfg, acts, s, s', a, t, Failed);
    assert (acts + [a])[i] == acts[i];
  }

  lemma RequeryStays(cfg: Config, acts: seq<Action>, s: State, s': State, a: Action, t: nat, o: Outcome)
    requires RequeryGave(cfg, acts, s, t, o) && Keeps(s, s')
    ensures RequeryGave(cfg, acts + [a], s', t, o)
  {
    hide ToldStream, PickedAt;
    var i: nat, k: nat :| i < |acts| && acts[i] == RequeryStore(t, Picked(Some(k))) && PickedAt(cfg, acts, i, k, o);
    PickedStays(cfg, acts, a, i, k, o);
    ToldStreamStays(cfg, acts, s, s', a, t);
    assert (acts + [a])[i] == acts[i];
  }

  lemma UpstreamStays(acts: seq<Action>, a: Action, t: nat, o: Outcome)
    ensures UpstreamGave(acts, t, o) ==> UpstreamGave(acts + [a], t, o)
    ensures BypassGave(acts, t, o) ==> BypassGave(acts + [a], t, o)
  {
    hide OutcomeOf;
    assert forall b :: b in acts ==> b in acts + [a];
  }

  lemma DueStays(cfg: Config, acts: seq<Action>, s: State, s': State, a: Action, t: nat, o: Outcome, how: How)
    requires Due(cfg, acts, s, t, o, how) && Keeps(s, s')
    ensures Due(cfg, acts + [a], s', t, o, how)
  {
    hide HitGave, UpstreamGave, BypassGave, StaleGave, WaiterStaleGave, Told, RequeryGave, Keeps;
    UpstreamStays(acts, a, t, o);
    match how
    case Hit => HitStays(cfg, acts, a, t, o);
    case Stale =>
      if StaleGave(cfg, acts, t, o) { StaleStays(cfg, acts, a, t, o); } else { WaiterStaleStays(cfg, acts, s, s', a, t, o); }
    case Shared =>
      if RequeryGave(cfg, acts, s, t, o) { RequeryStays(cfg, acts, s, s', a, t, o); } else { ToldStays(cfg, acts, s, s', a, t, o); }
    case _ =>
  }

  lemma LeaderDueStays(cfg: Config, acts: seq<Action>, a: Action, t: nat, o: Outcome, how: How)
    requires LeaderDue(cfg, acts, t, o, how)
    ensures LeaderDue(cfg, acts + [a], t, o, how)
  {
    hide UpstreamGave, StaleGave;
    UpstreamStays(acts, a, t, o);
    if !how.Miss? { StaleStays(cfg, acts, a, t, o); }
  }

  lemma PcDueStays(cfg: Config, acts: seq<Action>, s: State, s': State, a: Action, t: nat, pc: Pc)
    requires PcDue(cfg, acts, s, t, pc) && Keeps(s, s')
    ensures PcDue(cfg, acts + [a], s', t, pc)
  {
    hide Due, Joined, Told, ToldStream, UpstreamGave, LeaderDue;
    match pc
    case Waiting(c) => JoinedStays(acts, a, t, s.calls[c].owner);
    case WaiterStale(_) => ToldStays(cfg, acts, s, s', a, t, Failed);
    case Requery => ToldStreamStays(cfg, acts, s, s', a, t);
    case Recording(_, resp) => UpstreamStays(acts, a, t, Got(resp));
    case Publishing(_, o, how) => LeaderDueStays(cfg, acts, a, t, o, how);
    case Signalling(_, o, how) => LeaderDueStays(cfg, acts, a, t, o, how);
    case Removing(_, o, how) => LeaderDueStays(cfg, acts, a, t, o, how);
    case Done(o, how) => DueStays(cfg, acts, s, s', a, t, o, how);
    case _ =>
  }

  lemma CallDueStays(cfg: Config, acts: seq<Action>, a: Action, call: Call)
    requires CallDue(cfg, acts, call)
    ensures CallDue(cfg, acts + [a], call)
  {
    hide Signalled;
    if call.counter == 0 { SignalledStays(cfg, acts, a, call.owner, call.outcome.value); }
  }

  // ----- what each action makes of the thread that takes it -----

  lemma NowPicked(cfg: Config, acts: seq<Action>, s: State, a: Action, pick: nat)
    requires Runs(cfg, INIT, acts) && s == After(cfg, INIT, acts) && pick < |s.store|
    ensures PickedAt(cfg, acts + [a], |acts|, pick, Got(s.store[pick].response))
  {
    assert (acts + [a])[..|acts|] == acts;
  }

  lemma NowQueried(cfg: Config, acts: seq<Action>, s: State, a: Action, q: Query)
    requires Runs(cfg, INIT, acts) && s == After(cfg, INIT, acts)
    requires q.Picked? && q.pick.Some? ==> q.pick.value < |s.store|
    ensures QueryGave(cfg, acts + [a], |acts|, q, StaleOutcome(s, q))
  {
    if q.Picked? && q.pick.Some? { NowPicked(cfg, acts, s, a, q.pick.value); }
  }

  lemma LookupIsDue(cfg: Config, acts: seq<Action>, s: State, t: nat, q: Query)
    requires Runs(cfg, INIT, acts) && s == After(cfg, INIT, acts) && Enabled(cfg, s, Lookup(t, q))
    ensures var s' := Step(cfg, s, Lookup(t, q)); PcDue(cfg, acts + [Lookup(t, q)], s', t, s'.threads[t].pc)
  {
    var a := Lookup(t, q);
    if !cfg.lookupDisabled && q.Picked? && q.pick.Some? {
      NowPicked(cfg, acts, s, a, q.pick.value);
      assert (acts + [a])[|acts|] == a;
      assert HitGave(cfg, acts + [a], t, Got(s.store[q.pick.value].response));
    }
  }

  lemma BypassIsDue(cfg: Config, acts: seq<Action>, s: State, t: nat, reply: Reply)
    requires Enabled(cfg, s, Bypass(t, reply))
    ensures var s' := Step(cfg, s, Bypass(t, reply)); PcDue(cfg, acts + [Bypass(t, reply)], s', t, s'.threads[t].pc)
  {
    assert Bypass(t, reply) in acts + [Bypass(t, reply)];
    assert BypassGave(acts + [Bypass(t, reply)], t, OutcomeOf(reply));
  }

  lemma UpstreamIsDue(cfg: Config, acts: seq<Action>, s: State, t: nat, reply: Reply)
    requires Enabled(cfg, s, CallUpstream(t, reply))
    ensures var s' := Step(cfg, s, CallUpstream(t, reply)); PcDue(cfg, acts + [CallUpstream(t, reply)], s', t, s'.threads[t].pc)
  {
    var a := CallUpstream(t, reply);
    assert a in acts + [a];
    assert UpstreamGave(acts + [a], t, OutcomeOf(reply));
    hide UpstreamGave;
  }

  lemma RecordIsDue(cfg: Config, acts: seq<Action>, s: State, t: nat, id: string, saveOk: bool)
    requires Enabled(cfg, s, Record(t, id, saveOk)) && PcDue(cfg, acts, s, t, s.threads[t].pc)
    ensures var s' := Step(cfg, s, Record(t, id, saveOk)); PcDue(cfg, acts + [Record(t, id, saveOk)], s', t, s'.threads[t].pc)
  {
    UpstreamStays(acts, Record(t, id, saveOk), t, Got(s.threads[t].pc.resp));
    hide UpstreamGave;
  }

  lemma ServeStaleIsDue(cfg: Config, acts: seq<Action>, s: State, t: nat, q: Query)
    requires Runs(cfg, INIT, acts) && s == After(cfg, INIT, acts)
    requires Enabled(cfg, s, ServeStale(t, q)) && PcDue(cfg, acts, s, t, s.threads[t].pc)
    ensures var s' := Step(cfg, s, ServeStale(t, q)); PcDue(cfg, acts + [ServeStale(t, q)], s', t, s'.threads[t].pc)
  {
    var a := ServeStale(t, q);
    NowQueried(cfg, acts, s, a, q);
    assert (acts + [a])[|acts|] == a;
    assert StaleGave(cfg, acts + [a], t, StaleOutcome(s, q)) by { hide QueryGave; }
    hide StaleGave, QueryGave;
  }

  lemma WakeStaleIsDue(cfg: Config, acts: seq<Action>, s: State, t: nat, q: Query)
    requires Runs(cfg, INIT, acts) && s == After(cfg, INIT, acts)
    requires Enabled(cfg, s, WakeStale(t, q)) && PcDue(cfg, acts, s, t, s.threads[t].pc)
    ensures var s' := Step(cfg, s, WakeStale(t, q)); PcDue(cfg, acts + [WakeStale(t, q)], s', t, s'.threads[t].pc)
  {
    hide Told, QueryGave, Keeps, Runs, After, KeyOf;
    var a := WakeStale(t, q);
    var s' := Step(cfg, s, a);
    StepKeeps(cfg, s, a);
    assert QueryOk(cfg, s, s.threads[t].req, q);
    NowQueried(cfg, acts, s, a, q);
    ToldStays(cfg, acts, s, s', a, t, Failed);
    assert (acts + [a])[|acts|] == a;
    assert WaiterStaleGave(cfg, acts + [a], s', t, StaleOutcome(s, q));
  }

  lemma RequeryIsDue(cfg: Config, acts: seq<Action>, s: State, t: nat, q: Query)
    requires Runs(cfg, INIT, acts) && s == After(cfg, INIT, acts)
    requires Enabled(cfg, s, RequeryStore(t, q)) && PcDue(cfg, acts, s, t, s.threads[t].pc)
    ensures var s' := Step(cfg, s, RequeryStore(t, q)); PcDue(cfg, acts + [RequeryStore(t, q)], s', t, s'.threads[t].pc)
  {
    hide Told, ToldStream, PickedAt, Keeps, Runs, After, KeyOf;
    var a := RequeryStore(t, q);
    var s' := Step(cfg, s, a);
    StepKeeps(cfg, s, a);
    ToldStreamStays(cfg, acts, s, s', a, t);
    if q.Picked? && q.pick.Some? {
      NowPicked(cfg, acts, s, a, q.pick.value);
      assert (acts + [a])[|acts|] == a;
      assert RequeryGave(cfg, acts + [a], s', t, Got(s.store[q.pick.value].response));
    }
  }

  /** Whose entry a thread finds in the table. */
  lemma EntryIsInFlight(cfg: Config, acts: seq<Action>, s: State, key: string)
    requires SingleFlight.Inv(cfg, s) && AllDue(cfg, acts, s) && key in s.sfCalls
    ensures var c := s.sfCalls[key];
      c < |s.calls| && EnterFlight(s.calls[c].owner) in acts && RemoveEntry(s.calls[c].owner) !in acts &&
      s.calls[c].owner in s.threads && SingleFlight.Lead(s.threads[s.calls[c].owner].pc).Some?
  {
    hide KeyOf, Signalled, PcDue;
    assert SingleFlight.EntryOk(s, key);
    var c := s.sfCalls[key];
    assert CallDue(cfg, acts, s.calls[c]);
    assert ThreadDue(cfg, acts, s, s.calls[c].owner);
  }

  lemma NowJoined(acts: seq<Action>, t: nat, u: nat)
    requires EnterFlight(u) in acts && RemoveEntry(u) !in acts
    ensures Joined(acts + [EnterFlight(t)], t, u)
  {
    var e: nat :| e < |acts| && acts[e] == EnterFlight(u);
    var more := acts + [EnterFlight(t)];
    assert more[e] == acts[e] && more[|acts|] == EnterFlight(t) && more[..|acts|] == acts;
  }

  lemma EnterIsDue(cfg: Config, acts: seq<Action>, s: State, t: nat)
    requires SingleFlight.Inv(cfg, s) && AllDue(cfg, acts, s) && Enabled(cfg, s, EnterFlight(t))
    ensures var s' := Step(cfg, s, EnterFlight(t)); PcDue(cfg, acts + [EnterFlight(t)], s', t, s'.threads[t].pc)
  {
    hide KeyOf, Joined, SingleFlight.Inv, AllDue;
    var key := KeyOf(cfg, s.threads[t].req);
    if cfg.singleFlight && key in s.sfCalls {
      EntryIsInFlight(cfg, acts, s, key);
      NowJoined(acts, t, s.calls[s.sfCalls[key]].owner);
    }
  }

  lemma WakeIsDue(cfg: Config, acts: seq<Action>, s: State, t: nat)
    requires SingleFlight.Inv(cfg, s) && AllDue(cfg, acts, s) && Enabled(cfg, s, Wake(t))
    ensures var s' := Step(cfg, s, Wake(t)); PcDue(cfg, acts + [Wake(t)], s', t, s'.threads[t].pc)
  {
    WakeIsTold(cfg, acts, s, t);
    hide SingleFlight.Inv, AllDue;
    WokenIsDue(cfg, acts + [Wake(t)], s, t);
  }

  lemma WokenIsDue(cfg: Config, more: seq<Action>, s: State, t: nat)
    requires Enabled(cfg, s, Wake(t))
    requires var outcome := s.calls[s.threads[t].pc.call].outcome;
      outcome.Some? && Told(cfg, more, Step(cfg, s, Wake(t)), t, outcome.value)
    ensures var s' := Step(cfg, s, Wake(t)); PcDue(cfg, more, s', t, s'.threads[t].pc)
  {
    hide Told;
    var o := s.calls[s.threads[t].pc.call].outcome.value;
    if o.Got? && o.resp.sse { assert ToldStream(cfg, more, Step(cfg, s, Wake(t)), t); }
  }

  lemma WakeIsTold(cfg: Config, acts: seq<Action>, s: State, t: nat)
    requires SingleFlight.Inv(cfg, s) && AllDue(cfg, acts, s) && Enabled(cfg, s, Wake(t))
    ensures var outcome := s.calls[s.threads[t].pc.call].outcome;
      outcome.Some? && Told(cfg, acts + [Wake(t)], Step(cfg, s, Wake(t)), t, outcome.value)
  {
    hide Joined, Signalled, KeyOf;
    var a, c := Wake(t), s.threads[t].pc.call;
    assert ThreadDue(cfg, acts, s, t) && CallDue(cfg, acts, s.calls[c]);
    assert SingleFlight.ThreadOk(cfg, s, t) && SingleFlight.CallOk(cfg, s, c);
    hide SingleFlight.Inv, AllDue, SingleFlight.CallAt, SingleFlight.Finished;
    StepKeeps(cfg, s, a);
    hide Step;
    NowTold(cfg, acts, Step(cfg, s, a), t, s.calls[c].owner, s.calls[c].outcome.value);
  }

  lemma NowTold(cfg: Config, acts: seq<Action>, s: State, t: nat, u: nat, o: Outcome)
    requires t != u && t in s.threads && u in s.threads && KeyOf(cfg, s.threads[u].req) == KeyOf(cfg, s.threads[t].req)
    requires Joined(acts, t, u) && Signalled(cfg, acts, u, o)
    ensures Told(cfg, acts + [Wake(t)], s, t, o)
  {
    hide Joined, Signalled, KeyOf;
    var more := acts + [Wake(t)];
    JoinedStays(acts, Wake(t), t, u);
    assert more[|acts|] == Wake(t) && more[..|acts|] == acts;
    assert ToldBy(cfg, more, s, t, u, o);
  }

  lemma LeaderMoveIsDue(cfg: Config, acts: seq<Action>, s: State, a: Action)
    requires Enabled(cfg, s, a) && (a.SetResult? || a.Signal? || a.RemoveEntry?) && PcDue(cfg, acts, s, a.t, s.threads[a.t].pc)
    ensures var s' := Step(cfg, s, a); PcDue(cfg, acts + [a], s', a.t, s'.threads[a.t].pc)
  {
    var pc := s.threads[a.t].pc;
    LeaderDueStays(cfg, acts, a, a.t, pc.outcome, pc.how);
    hide UpstreamGave, StaleGave, KeyOf;
  }

  lemma ArriverStarts(cfg: Config, s: State, t: nat, req: Request)
    requires Enabled(cfg, s, Arrive(t, req))
    ensures var s' := Step(cfg, s, Arrive(t, req)); t in s'.threads && s'.threads[t].pc == Start
  {
  }

  lemma MoverIsDue(cfg: Config, acts: seq<Action>, s: State, a: Action)
    requires Runs(cfg, INIT, acts) && s == After(cfg, INIT, acts) && SingleFlight.Inv(cfg, s) && AllDue(cfg, acts, s)
    requires Enabled(cfg, s, a) && !a.StreamCompletes?
    ensures var s' := Step(cfg, s, a); a.t in s'.threads && PcDue(cfg, acts + [a], s', a.t, s'.threads[a.t].pc)
  {
    if a.Arrive? {
      assert PcDue(cfg, acts + [a], Step(cfg, s, a), a.t, Start);
    } else {
      assert ThreadDue(cfg, acts, s, a.t);
      MovesOne(cfg, s, a);
    }
    hide AllDue, SingleFlight.Inv, Runs, After, Step, PcDue, Enabled;
    match a
    case Arrive(t, req) => ArriverStarts(cfg, s, t, req);
    case Bypass(t, reply) => BypassIsDue(cfg, acts, s, t, reply);
    case Lookup(t, q) => LookupIsDue(cfg, acts, s, t, q);
    case EnterFlight(t) => EnterIsDue(cfg, acts, s, t);
    case CallUpstream(t, reply) => UpstreamIsDue(cfg, acts, s, t, reply);
    case Record(t, id, saveOk) => RecordIsDue(cfg, acts, s, t, id, saveOk);
    case ServeStale(t, q) => ServeStaleIsDue(cfg, acts, s, t, q);
    case SetResult(_) => LeaderMoveIsDue(cfg, acts, s, a);
    case Signal(_) => LeaderMoveIsDue(cfg, acts, s, a);
    case RemoveEntry(_) => LeaderMoveIsDue(cfg, acts, s, a);
    case Wake(t) => WakeIsDue(cfg, acts, s, t);
    case WakeStale(t, q) => WakeStaleIsDue(cfg, acts, s, t, q);
    case RequeryStore(t, q) => RequeryIsDue(cfg, acts, s, t, q);
  }

  // ----- every run -----

  predicate ChangesCalls(a: Action) { a.EnterFlight? || a.CallUpstream? || a.SetResult? || a.Signal? }

  lemma OtherCallsStay(cfg: Config, s: State, a: Action)
    requires Enabled(cfg, s, a) && !ChangesCalls(a)
    ensures Step(cfg, s, a).calls == s.calls
  {
    hide KeyOf, QueryOk, RawTape, Oversize, Finish, StaleOutcome;
  }

  /** An old call keeps its owner, and reaches zero, with its outcome, only by its owner's signal. */
  ghost predicate SameCall(s: State, a: Action, c: nat, call: Call, call': Call) {
    call'.owner == call.owner &&
    (call'.counter == 0 ==>
      (call.counter == 0 && call'.outcome == call.outcome) || (a.Signal? && a.t in s.threads && s.threads[a.t].pc.Signalling? && s.threads[a.t].pc.call == c))
  }

  lemma OwnersStay(cfg: Config, s: State, a: Action, c: nat)
    requires SingleFlight.Inv(cfg, s) && Enabled(cfg, s, a) && ChangesCalls(a) && c < |Step(cfg, s, a).calls|
    ensures var call' := Step(cfg, s, a).calls[c];
      if c < |s.calls| then SameCall(s, a, c, s.calls[c], call')
      else a.EnterFlight? && call'.owner == a.t && call'.counter == 1
  {
    assert SingleFlight.ThreadOk(cfg, s, a.t);
    hide SingleFlight.Inv;
    if a.SetResult? || a.Signal? {
      hide SingleFlight.EntryOk, KeyOf;
    } else {
      JoinersStay(cfg, s, a, c);
      hide Step;
    }
  }

  lemma JoinersStay(cfg: Config, s: State, a: Action, c: nat)
    requires Enabled(cfg, s, a) && (a.EnterFlight? || a.CallUpstream?) && c < |Step(cfg, s, a).calls|
    ensures var call' := Step(cfg, s, a).calls[c];
      if c < |s.calls| then SameCall(s, a, c, s.calls[c], call')
      else a.EnterFlight? && call'.owner == a.t && call'.counter == 1
  {
    hide KeyOf, NextPc, RawTape, Streaming;
  }

  lemma SignalIsDue(cfg: Config, acts: seq<Action>, s: State, t: nat)
    requires SingleFlight.Inv(cfg, s) && AllDue(cfg, acts, s) && Enabled(cfg, s, Signal(t))
    ensures var s', c := Step(cfg, s, Signal(t)), s.threads[t].pc.call; CallDue(cfg, acts + [Signal(t)], s'.calls[c])
  {
    hide KeyOf, UpstreamGave, StaleGave;
    var a, pc := Signal(t), s.threads[t].pc;
    assert SingleFlight.ThreadOk(cfg, s, t) && ThreadDue(cfg, acts, s, t) && CallDue(cfg, acts, s.calls[pc.call]);
    var more := acts + [a];
    assert more[|acts|] == a && more[..|acts|] == acts;
    assert LeaderGot(cfg, acts, t, pc.outcome);
    assert Signalled(cfg, more, t, pc.outcome);
  }

  lemma CallsStayDue(cfg: Config, acts: seq<Action>, s: State, a: Action, c: nat)
    requires SingleFlight.Inv(cfg, s) && AllDue(cfg, acts, s) && Enabled(cfg, s, a) && c < |Step(cfg, s, a).calls|
    ensures CallDue(cfg, acts + [a], Step(cfg, s, a).calls[c])
  {
    assert a in acts + [a];
    if c < |s.calls| {
      assert CallDue(cfg, acts, s.calls[c]);
      CallDueStays(cfg, acts, a, s.calls[c]);
    }
    if !ChangesCalls(a) {
      OtherCallsStay(cfg, s, a);
    } else if a.Signal? && s.threads[a.t].pc.call == c {
      SignalIsDue(cfg, acts, s, a.t);
    } else {
      OwnersStay(cfg, s, a, c);
      hide Step, SingleFlight.Inv, AllDue, Signalled;
    }
  }

  lemma StepStaysDue(cfg: Config, acts: seq<Action>, s: State, a: Action)
    requires Runs(cfg, INIT, acts) && s == After(cfg, INIT, acts) && SingleFlight.Inv(cfg, s) && AllDue(cfg, acts, s)
    requires Enabled(cfg, s, a)
    ensures AllDue(cfg, acts + [a], Step(cfg, s, a))
  {
    hide Step, Enabled, PcDue, SingleFlight.Inv, Runs, After;
    var s', more := Step(cfg, s, a), acts + [a];
    StepKeeps(cfg, s, a);
    MovesOne(cfg, s, a);
    if !a.StreamCompletes? {
      MoverIsDue(cfg, acts, s, a);
      RemovedIsDone(cfg, acts, s, a);
    }
    forall t | t in s'.threads ensures ThreadDue(cfg, more, s', t) {
      hide Keeps;
      if a.StreamCompletes? || t != a.t {
        assert ThreadDue(cfg, acts, s, t);
        PcDueStays(cfg, acts, s, s', a, t, s.threads[t].pc);
      }
    }
    forall c: nat | c < |s'.calls| ensures CallDue(cfg, more, s'.calls[c]) { CallsStayDue(cfg, acts, s, a, c); }
  }

  /** A leader that has removed its entry is done. */
  lemma RemovedIsDone(cfg: Config, acts: seq<Action>, s: State, a: Action)
    requires AllDue(cfg, acts, s) && Enabled(cfg, s, a) && !a.StreamCompletes?
    ensures a.t in Step(cfg, s, a).threads && (RemoveEntry(a.t) in acts + [a] ==> Step(cfg, s, a).threads[a.t].pc.Done?)
  {
    hide PcDue, KeyOf;
    if !a.Arrive? { assert ThreadDue(cfg, acts, s, a.t); }
  }

  lemma NothingIsDue(cfg: Config)
    ensures AllDue(cfg, [], INIT) && SingleFlight.Inv(cfg, INIT)
  {
  }

  lemma {:induction false} RunIsDue(cfg: Config, acts: seq<Action>)
    requires Runs(cfg, INIT, acts)
    ensures AllDue(cfg, acts, After(cfg, INIT, acts)) && SingleFlight.Inv(cfg, After(cfg, INIT, acts))
    decreases |acts|
  {
    NothingIsDue(cfg);
    SingleFlight.RunKeepsInv(cfg, INIT, acts);
    if acts != [] {
      hide Runs, After, AllDue, SingleFlight.Inv, Enabled, Step;
      var n := |acts| - 1;
      assert acts == acts[..n] + [acts[n]];
      LastAction(cfg, INIT, acts[..n], acts[n]);
      RunIsDue(cfg, acts[..n]);
      StepStaysDue(cfg, acts[..n], After(cfg, INIT, acts[..n]), acts[n]);
    }
  }

  lemma {:induction false} LastAction(cfg: Config, s: State, acts: seq<Action>, a: Action)
    requires Runs(cfg, s, acts + [a])
    ensures Runs(cfg, s, acts) && Enabled(cfg, After(cfg, s, acts), a)
    ensures After(cfg, s, acts + [a]) == Step(cfg, After(cfg, s, acts), a)
    decreases |acts|
  {
    hide Enabled, Step;
    var more := acts + [a];
    if acts == [] {
      assert more[0] == a && more[1..] == [];
    } else {
      assert more[0] == acts[0] && more[1..] == acts[1..] + [a];
      LastAction(cfg, Step(cfg, s, acts[0]), acts[1..], a);
    }
  }

  // ----- the statements -----

  /** In every run every answer given is one that was due: a hit is the response of the
      tape picked on arrival; a miss or a bypass is what upstream said to this very call; a
      stale answer is what the query after upstream's failure picked, or the failure; a
      shared one is what a leader with the request's key got, from upstream or stale, or,
      behind a stream, the response of the tape picked then. */
  lemma AnswersAreDue(cfg: Config, acts: seq<Action>, t: nat)
    requires Runs(cfg, INIT, acts) && t in After(cfg, INIT, acts).threads && After(cfg, INIT, acts).threads[t].pc.Done?
    ensures var s := After(cfg, INIT, acts); Due(cfg, acts, s, t, s.threads[t].pc.outcome, s.threads[t].pc.how)
  {
    RunIsDue(cfg, acts);
    assert ThreadDue(cfg, acts, After(cfg, INIT, acts), t);
  }

  /** An outcome on its way to the caller, or there. */
  predicate OnItsWay(pc: Pc, o: Outcome, how: How) {
    match pc
    case Publishing(_, p, h) => p == o && h == how
    case Signalling(_, p, h) => p == o && h == how
    case Removing(_, p, h) => p == o && h == how
    case Done(p, h) => p == o && h == how
    case Recording(_, resp) => Got(resp) == o && how == Miss
    case _ => false
  }

  lemma {:induction false} StaysOnItsWay(cfg: Config, s: State, more: seq<Action>, t: nat, o: Outcome, how: How)
    requires Runs(cfg, s, more) && t in s.threads && OnItsWay(s.threads[t].pc, o, how)
    ensures t in After(cfg, s, more).threads && OnItsWay(After(cfg, s, more).threads[t].pc, o, how)
    decreases |more|
  {
    if more != [] {
      MoveKeepsWay(cfg, s, more[0], t, o, how);
      hide Enabled, Step, OnItsWay;
      StaysOnItsWay(cfg, Step(cfg, s, more[0]), more[1..], t, o, how);
    }
  }

  lemma MoveKeepsWay(cfg: Config, s: State, a: Action, t: nat, o: Outcome, how: How)
    requires Enabled(cfg, s, a) && t in s.threads && OnItsWay(s.threads[t].pc, o, how)
    ensures t in Step(cfg, s, a).threads && OnItsWay(Step(cfg, s, a).threads[t].pc, o, how)
  {
    MovesOne(cfg, s, a);
    if Mover(a) != Some(t) {
      hide Step, Enabled, OnItsWay;
    } else {
      hide KeyOf, RawTape, OneMoved;
    }
  }

  /** A caller whose call upstream was answered gets that answer, whatever happens to the
      recording, and nothing else. */
  lemma UpstreamsAnswerIsGiven(cfg: Config, s: State, t: nat, resp: Response, readOk: bool, more: seq<Action>)
    requires Enabled(cfg, s, CallUpstream(t, Reply(resp, readOk)))
    requires Runs(cfg, Step(cfg, s, CallUpstream(t, Reply(resp, readOk))), more)
    ensures var s' := After(cfg, Step(cfg, s, CallUpstream(t, Reply(resp, readOk))), more);
      t in s'.threads && (s'.threads[t].pc.Done? ==> s'.threads[t].pc == Done(Got(resp), Miss))
  {
    var s1 := Step(cfg, s, CallUpstream(t, Reply(resp, readOk)));
    assert OnItsWay(s1.threads[t].pc, Got(resp), Miss);
    StaysOnItsWay(cfg, s1, more, t, Got(resp), Miss);
  }

  /** The moves that are left to a thread with an outcome. */
  function WayHome(t: nat, pc: Pc): seq<Action> {
    match pc
    case Recording(lead, resp) => [Record(t, "", false)] + if lead.Some? then [SetResult(t), Signal(t), RemoveEntry(t)] else []
    case Publishing(_, _, _) => [SetResult(t), Signal(t), RemoveEntry(t)]
    case Signalling(_, _, _) => [Signal(t), RemoveEntry(t)]
    case Removing(_, _, _) => [RemoveEntry(t)]
    case _ => []
  }

  /** And it can always get there by its own moves, at most four. */
  lemma {:induction false} OutcomeCanArrive(cfg: Config, s: State, t: nat, o: Outcome, how: How)
    requires t in s.threads && OnItsWay(s.threads[t].pc, o, how)
    requires SingleFlight.Lead(s.threads[t].pc).Some? ==> SingleFlight.Lead(s.threads[t].pc).value < |s.calls|
    ensures var more := WayHome(t, s.threads[t].pc);
      |more| <= 4 && Runs(cfg, s, more) && t in After(cfg, s, more).threads &&
      After(cfg, s, more).threads[t].pc == Done(o, how)
    decreases |WayHome(t, s.threads[t].pc)|
  {
    var more := WayHome(t, s.threads[t].pc);
    if more != [] {
      NextMoveHome(cfg, s, t, o, how);
      hide Enabled, Step, OnItsWay, WayHome, SingleFlight.Lead;
      OutcomeCanArrive(cfg, Step(cfg, s, more[0]), t, o, how);
    }
  }

  lemma NextMoveHome(cfg: Config, s: State, t: nat, o: Outcome, how: How)
    requires t in s.threads && OnItsWay(s.threads[t].pc, o, how) && WayHome(t, s.threads[t].pc) != []
    requires SingleFlight.Lead(s.threads[t].pc).Some? ==> SingleFlight.Lead(s.threads[t].pc).value < |s.calls|
    ensures |WayHome(t, s.threads[t].pc)| <= 4 && Enabled(cfg, s, WayHome(t, s.threads[t].pc)[0])
    ensures var more := WayHome(t, s.threads[t].pc);
      var s1 := Step(cfg, s, more[0]);
      t in s1.threads && OnItsWay(s1.threads[t].pc, o, how) && WayHome(t, s1.threads[t].pc) == more[1..] &&
      (SingleFlight.Lead(s1.threads[t].pc).Some? ==> SingleFlight.Lead(s1.threads[t].pc).value < |s1.calls|)
  {
    if s.threads[t].pc.Recording? {
      RecordsOnTheWay(cfg, s, t);
    } else {
      LeadsOnTheWay(cfg, s, t);
    }
    hide Enabled, Step;
  }

  lemma RecordsOnTheWay(cfg: Config, s: State, t: nat)
    requires t in s.threads && s.threads[t].pc.Recording?
    ensures var a, s1 := Record(t, "", false), Step(cfg, s, Record(t, "", false));
      Enabled(cfg, s, a) && s1.calls == s.calls && t in s1.threads &&
      s1.threads[t].pc == Finish(s.threads[t].pc.lead, Got(s.threads[t].pc.resp), Miss)
  {
  }

  lemma LeadsOnTheWay(cfg: Config, s: State, t: nat)
    requires t in s.threads && (s.threads[t].pc.Publishing? || s.threads[t].pc.Signalling? || s.threads[t].pc.Removing?)
    requires s.threads[t].pc.call < |s.calls|
    ensures var pc := s.threads[t].pc;
      var a := if pc.Publishing? then SetResult(t) else if pc.Signalling? then Signal(t) else RemoveEntry(t);
      Enabled(cfg, s, a) &&
      var s1 := Step(cfg, s, a);
      |s1.calls| == |s.calls| && t in s1.threads &&
      s1.threads[t].pc == (if pc.Publishing? then Signalling(pc.call, pc.outcome, pc.how)
                           else if pc.Signalling? then Removing(pc.call, pc.outcome, pc.how) else Done(pc.outcome, pc.how))
  {
    hide KeyOf;
  }

  /** With no stale fallback a failed call upstream is a failure. */
  lemma UpstreamsFailureIsGiven(cfg: Config, s: State, t: nat, more: seq<Action>)
    requires Enabled(cfg, s, CallUpstream(t, TransportError)) && !cfg.staleFallback
    requires Runs(cfg, Step(cfg, s, CallUpstream(t, TransportError)), more)
    ensures var s' := After(cfg, Step(cfg, s, CallUpstream(t, TransportError)), more);
      t in s'.threads && (s'.threads[t].pc.Done? ==> s'.threads[t].pc == Done(Failed, Miss))
  {
    var s1 := Step(cfg, s, CallUpstream(t, TransportError));
    assert OnItsWay(s1.threads[t].pc, Failed, Miss);
    StaysOnItsWay(cfg, s1, more, t, Failed, Miss);
  }

  /** What a query picks is what the caller gets: on arrival, when upstream or the leader
      failed, and behind a stream. */
  lemma PickedTapeIsGiven(cfg: Config, s: State, a: Action, k: nat, more: seq<Action>)
    requires (a.Lookup? && !cfg.lookupDisabled) || a.ServeStale? || a.WakeStale? || a.RequeryStore?
    requires Enabled(cfg, s, a) && a.q == Picked(Some(k)) && Runs(cfg, Step(cfg, s, a), more)
    ensures k < |s.store| && a.t in After(cfg, Step(cfg, s, a), more).threads
    ensures var pc := After(cfg, Step(cfg, s, a), more).threads[a.t].pc;
      pc.Done? ==> pc == Done(Got(s.store[k].response), if a.Lookup? then Hit else if a.RequeryStore? then Shared else Stale)
  {
    var o, how := Got(s.store[k].response), if a.Lookup? then Hit else if a.RequeryStore? then Shared else Stale;
    assert OnItsWay(Step(cfg, s, a).threads[a.t].pc, o, how);
    StaysOnItsWay(cfg, Step(cfg, s, a), more, a.t, o, how);
  }

  /** A caller is told of a failure only when upstream failed: its own call, or that of a
      leader with its key; and with the stale fallback only when the query gave nothing. */
  lemma FailureIsUpstreams(cfg: Config, acts: seq<Action>, t: nat)
    requires Runs(cfg, INIT, acts) && t in After(cfg, INIT, acts).threads && After(cfg, INIT, acts).threads[t].pc.Done?
    requires After(cfg, INIT, acts).threads[t].pc.outcome == Failed
    ensures Bypass(t, TransportError) in acts || UpstreamFailed(cfg, acts, After(cfg, INIT, acts), t)
    ensures cfg.staleFallback && Bypass(t, TransportError) !in acts ==> NothingPicked(acts, t)
  {
    AnswersAreDue(cfg, acts, t);
    var s := After(cfg, INIT, acts);
    hide Runs, After, KeyOf, Due;
    DueFailure(cfg, acts, s, t, s.threads[t].pc.how);
  }

  /** Upstream failed, to this request or to one with its key. */
  ghost predicate UpstreamFailed(cfg: Config, acts: seq<Action>, s: State, t: nat) {
    t in s.threads && exists u: nat ::
      CallUpstream(u, TransportError) in acts && u in s.threads && KeyOf(cfg, s.threads[u].req) == KeyOf(cfg, s.threads[t].req)
  }

  ghost predicate NothingPicked(acts: seq<Action>, t: nat) {
    exists q: Query :: !(q.Picked? && q.pick.Some?) && (ServeStale(t, q) in acts || WakeStale(t, q) in acts)
  }

  lemma DueFailure(cfg: Config, acts: seq<Action>, s: State, t: nat, how: How)
    requires t in s.threads && Due(cfg, acts, s, t, Failed, how)
    ensures Bypass(t, TransportError) in acts || UpstreamFailed(cfg, acts, s, t)
    ensures cfg.staleFallback && Bypass(t, TransportError) !in acts ==> NothingPicked(acts, t)
  {
    hide Told, KeyOf;
    if Told(cfg, acts, s, t, Failed) { ToldOfFailure(cfg, acts, s, t); }
    if CallUpstream(t, TransportError) in acts { assert UpstreamFailed(cfg, acts, s, t); }
    hide UpstreamFailed;
  }

  lemma ToldOfFailure(cfg: Config, acts: seq<Action>, s: State, t: nat)
    requires Told(cfg, acts, s, t, Failed)
    ensures UpstreamFailed(cfg, acts, s, t)
  {
    hide KeyOf, Joined, Signalled;
    var u: nat :| ToldBy(cfg, acts, s, t, u, Failed);
    var w: nat :| w < |acts| && acts[w] == Wake(t) && Signalled(cfg, acts[..w], u, Failed);
    SignalledFailure(cfg, acts[..w], u);
    assert CallUpstream(u, TransportError) in acts;
  }

  lemma SignalledFailure(cfg: Config, acts: seq<Action>, u: nat)
    requires Signalled(cfg, acts, u, Failed)
    ensures CallUpstream(u, TransportError) in acts
  {
    var g: nat :| g < |acts| && acts[g] == Signal(u) && LeaderGot(cfg, acts[..g], u, Failed);
    assert CallUpstream(u, TransportError) in acts[..g];
  }
}
