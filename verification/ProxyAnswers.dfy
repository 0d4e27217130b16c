/** Who is answered what by the proxy, told from the actions of a run alone. */
module ProxyAnswers {
  import opened Options
  import opened Tapes
  import CachingTransport
  import opened Proxy

  function OutcomeOf(reply: Reply): Outcome {
    match reply
    case Resp(resp, _) => Got(resp)
    case TransportError => Failed
  }

  // ----- what an outcome can come from -----

  ghost predicate UpstreamGave(acts: seq<Action>, t: nat, o: Outcome) {
    exists reply: Reply :: InnerReply(t, reply) in acts && o == OutcomeOf(reply)
  }

  function Flown(acts: seq<Action>): nat {
    if acts == [] then 0 else Flown(acts[..|acts| - 1]) + if acts[|acts| - 1].Lead? then 1 else 0
  }

  /** The thread that started the flight: they are numbered in order. */
  ghost predicate LedBy(acts: seq<Action>, f: nat, u: nat) {
    exists i: nat :: i < |acts| && acts[i] == Lead(u) && Flown(acts[..i]) == f
  }

  /** `u` got this outcome from upstream and published it. */
  ghost predicate Published(acts: seq<Action>, u: nat, o: Outcome) {
    Publish(u) in acts && UpstreamGave(acts, u, o)
  }

  /** `t` joined the flight that `u` led, with its key, and woke up behind its outcome. */
  ghost predicate ToldBy(cfg: Config, acts: seq<Action>, s: State, t: nat, f: nat, u: nat, w: nat, o: Outcome) {
    Join(t, f) in acts && LedBy(acts, f, u) && w < |acts| && acts[w] == Wake(t) && Published(acts[..w], u, o) &&
    t in s.threads && u in s.threads &&
    CachingTransport.KeyOf(cfg.ct, s.threads[u].req) == CachingTransport.KeyOf(cfg.ct, s.threads[t].req)
  }

  ghost predicate Told(cfg: Config, acts: seq<Action>, s: State, t: nat, o: Outcome) {
    exists f: nat, u: nat, w: nat :: ToldBy(cfg, acts, s, t, f, u, w, o)
  }

  ghost predicate ToldStream(cfg: Config, acts: seq<Action>, s: State, t: nat) {
    exists r: Response :: r.sse && Told(cfg, acts, s, t, Got(r))
  }

  /** The tape that stood at this place of a tier when the `i`th action picked it. */
  ghost predicate PickedAt(cfg: Config, l2: seq<Entry>, acts: seq<Action>, i: nat, second: bool, pick: nat, tape: Tape) {
    i <= |acts| && Runs(cfg, Init(l2), acts[..i]) &&
    var s := After(cfg, Init(l2), acts[..i]);
    var tier := if second then s.l2 else s.l1;
    pick < |tier| && tape == tier[pick].tape
  }

  ghost predicate RequeryGave(cfg: Config, l2: seq<Entry>, acts: seq<Action>, s: State, t: nat, o: Outcome) {
    ToldStream(cfg, acts, s, t) && o.Got? &&
    exists i: nat, k: nat, tape: Tape ::
      i < |acts| && acts[i] == RequeryL2(t, Picked(Some(k))) && PickedAt(cfg, l2, acts, i, true, k, tape) && o.resp == tape.response
  }

  /** What the caching transport inside returns to the proxy. */
  ghost predicate OutcomeDue(cfg: Config, l2: seq<Entry>, acts: seq<Action>, s: State, t: nat, o: Outcome) {
    UpstreamGave(acts, t, o) || (Told(cfg, acts, s, t, o) && !(o.Got? && o.resp.sse)) || RequeryGave(cfg, l2, acts, s, t, o)
  }

  /** An outcome the fallback is for. */
  predicate FallsBack(cfg: Config, o: Outcome) { if o.Got? then cfg.isFallback(o.resp) else cfg.fallbackOnError }

  predicate Missed(q: Query) { !(q.Picked? && q.pick.Some?) }

  ghost predicate MissedL1(acts: seq<Action>, t: nat) { exists q: Query :: LookL1(t, q) in acts && Missed(q) }

  ghost predicate MissedL2(acts: seq<Action>, t: nat) { exists q: Query :: LookL2(t, q) in acts && Missed(q) }

  ghost predicate FoundIn(cfg: Config, l2: seq<Entry>, acts: seq<Action>, t: nat, second: bool, tape: Tape) {
    exists i: nat, k: nat ::
      i < |acts| && acts[i] == (if second then LookL2(t, Picked(Some(k))) else LookL1(t, Picked(Some(k)))) &&
      PickedAt(cfg, l2, acts, i, second, k, tape)
  }

  ghost predicate FallbackDue(cfg: Config, l2: seq<Entry>, acts: seq<Action>, s: State, t: nat, o: Outcome) {
    OutcomeDue(cfg, l2, acts, s, t, o) && FallsBack(cfg, o)
  }

  ghost predicate SomeFallbackDue(cfg: Config, l2: seq<Entry>, acts: seq<Action>, s: State, t: nat) {
    exists o: Outcome :: FallbackDue(cfg, l2, acts, s, t, o)
  }

  /** Where an answer comes from. */
  ghost predicate AnswerDue(cfg: Config, l2: seq<Entry>, acts: seq<Action>, s: State, t: nat, a: Answer) {
    match a
    case Live(r) => OutcomeDue(cfg, l2, acts, s, t, Got(r)) && !FallsBack(cfg, Got(r))
    case Cached(tape) =>
      SomeFallbackDue(cfg, l2, acts, s, t) &&
      (FoundIn(cfg, l2, acts, t, false, tape) || (MissedL1(acts, t) && FoundIn(cfg, l2, acts, t, true, tape)))
    case Original(o) =>
      OutcomeDue(cfg, l2, acts, s, t, o) &&
      (if FallsBack(cfg, o) then MissedL1(acts, t) && MissedL2(acts, t) else o.Failed?)
  }

  // ----- the invariant -----

  /** `t` leads the flight, for its own request. */
  ghost predicate Leads(acts: seq<Action>, s: State, t: nat, f: nat) {
    LedBy(acts, f, t) && f < |s.flights| && t in s.threads && s.flights[f].req == s.threads[t].req
  }

  ghost predicate LeadOk(acts: seq<Action>, s: State, t: nat, lead: Option<nat>) { lead.Some? ==> Leads(acts, s, t, lead.value) }

  ghost predicate PcDue(cfg: Config, l2: seq<Entry>, acts: seq<Action>, s: State, t: nat, pc: Pc) {
    match pc
    case Enter => true
    case Waiting(f) => f < |s.flights| && Join(t, f) in acts &&
      t in s.threads && CachingTransport.KeyOf(cfg.ct, s.flights[f].req) == CachingTransport.KeyOf(cfg.ct, s.threads[t].req)
    case Requery => ToldStream(cfg, acts, s, t)
    case AtInner(lead, _) => LeadOk(acts, s, t, lead)
    case SavingL1(lead, _, src) => LeadOk(acts, s, t, lead) && UpstreamGave(acts, t, Got(src.resp))
    case ToL2(lead, _, src, _) => LeadOk(acts, s, t, lead) && UpstreamGave(acts, t, Got(src.resp))
    case SavingL2(lead, src) => LeadOk(acts, s, t, lead) && UpstreamGave(acts, t, Got(src.resp))
    case Publishing(f, o) => Leads(acts, s, t, f) && UpstreamGave(acts, t, o)
    case Deciding(o) => OutcomeDue(cfg, l2, acts, s, t, o)
    case FallbackL1(o) => FallbackDue(cfg, l2, acts, s, t, o)
    case FallbackL2(o) => FallbackDue(cfg, l2, acts, s, t, o) && MissedL1(acts, t)
    case Done(a) => AnswerDue(cfg, l2, acts, s, t, a)
  }

  ghost predicate FlightDue(acts: seq<Action>, s: State, f: nat)
    requires f < |s.flights|
  {
    exists u: nat :: Leads(acts, s, u, f) && (s.flights[f].outcome.Some? ==> Published(acts, u, s.flights[f].outcome.value))
  }

  ghost predicate AllDue(cfg: Config, l2: seq<Entry>, acts: seq<Action>, s: State) {
    (forall t :: t in s.threads ==> PcDue(cfg, l2, acts, s, t, s.threads[t].pc)) &&
    (forall f: nat :: f < |s.flights| ==> FlightDue(acts, s, f)) && |s.flights| == Flown(acts)
  }

  // ----- one more action -----

  /** Threads and flights keep their requests. */
  ghost predicate Keeps(s: State, s': State) {
    (forall t :: t in s.threads ==> t in s'.threads && s'.threads[t].req == s.threads[t].req) &&
    |s.flights| <= |s'.flights| && forall f: nat :: f < |s.flights| ==> s'.flights[f].req == s.flights[f].req
  }

  /** Only the mover changes its place, and nobody its request. */
  ghost predicate OneMoved(s: State, s': State, a: Action) {
    if a.StreamL1? || a.StreamL2? then
      s'.threads == s.threads
    else
      a.t in s'.threads && s'.threads == s.threads[a.t := s'.threads[a.t]] &&
      (a.t in s.threads ==> s'.threads[a.t].req == s.threads[a.t].req)
  }

  lemma MovesOne(cfg: Config, s: State, a: Action)
    requires Enabled(cfg, s, a)
    ensures OneMoved(s, Step(cfg, s, a), a)
  {
    hide AfterInner, AfterWake, AfterRequery, AfterDecide, AfterLook, Return, Raw, LookupOk, RequeryOk;
  }

  lemma StepKeeps(cfg: Config, s: State, a: Action)
    requires Enabled(cfg, s, a)
    ensures Keeps(s, Step(cfg, s, a))
  {
    MovesOne(cfg, s, a);
    FlightsKeep(cfg, s, a);
    hide Step, Enabled;
  }

  lemma FlightsKeep(cfg: Config, s: State, a: Action)
    requires Enabled(cfg, s, a)
    ensures |s.flights| <= |Step(cfg, s, a).flights|
    ensures forall f: nat :: f < |s.flights| ==> Step(cfg, s, a).flights[f].req == s.flights[f].req
  {
    hide AfterInner, AfterWake, AfterRequery, AfterDecide, AfterLook, Return, Raw, LookupOk, RequeryOk;
  }

  lemma UpstreamStays(acts: seq<Action>, a: Action, t: nat, o: Outcome)
    requires UpstreamGave(acts, t, o)
    ensures UpstreamGave(acts + [a], t, o)
  {
    hide OutcomeOf;
    assert forall b :: b in acts ==> b in acts + [a];
  }

  lemma LedByStays(acts: seq<Action>, a: Action, f: nat, u: nat)
    requires LedBy(acts, f, u)
    ensures LedBy(acts + [a], f, u)
  {
    var i: nat :| i < |acts| && acts[i] == Lead(u) && Flown(acts[..i]) == f;
    assert (acts + [a])[i] == acts[i] && (acts + [a])[..i] == acts[..i];
  }

  lemma LeadStays(acts: seq<Action>, s: State, s': State, a: Action, t: nat, lead: Option<nat>)
    requires LeadOk(acts, s, t, lead) && Keeps(s, s')
    ensures LeadOk(acts + [a], s', t, lead)
  {
    hide LedBy;
    if lead.Some? { LedByStays(acts, a, lead.value, t); }
  }

  lemma ToldStays(cfg: Config, acts: seq<Action>, s: State, s': State, a: Action, t: nat, o: Outcome)
    requires Told(cfg, acts, s, t, o) && Keeps(s, s')
    ensures Told(cfg, acts + [a], s', t, o)
  {
    hide LedBy, Published, CachingTransport.KeyOf;
    var f: nat, u: nat, w: nat :| ToldBy(cfg, acts, s, t, f, u, w, o);
    var more := acts + [a];
    LedByStays(acts, a, f, u);
    assert Join(t, f) in more && more[w] == acts[w] && more[..w] == acts[..w];
    assert ToldBy(cfg, more, s', t, f, u, w, o);
  }

  lemma ToldStreamStays(cfg: Config, acts: seq<Action>, s: State, s': State, a: Action, t: nat)
    requires ToldStream(cfg, acts, s, t) && Keeps(s, s')
    ensures ToldStream(cfg, acts + [a], s', t)
  {
    hide Told;
    var r: Response :| r.sse && Told(cfg, acts, s, t, Got(r));
    ToldStays(cfg, acts, s, s', a, t, Got(r));
  }

  lemma PickedStays(cfg: Config, l2: seq<Entry>, acts: seq<Action>, a: Action, i: nat, second: bool, pick: nat, tape: Tape)
    requires PickedAt(cfg, l2, acts, i, second, pick, tape)
    ensures PickedAt(cfg, l2, acts + [a], i, second, pick, tape)
  {
    assert (acts + [a])[..i] == acts[..i];
  }

  lemma RequeryStays(cfg: Config, l2: seq<Entry>, acts: seq<Action>, s: State, s': State, a: Action, t: nat, o: Outcome)
    requires RequeryGave(cfg, l2, acts, s, t, o) && Keeps(s, s')
    ensures RequeryGave(cfg, l2, acts + [a], s', t, o)
  {
    hide ToldStream, PickedAt;
    var i: nat, k: nat, tape: Tape :|
      i < |acts| && acts[i] == RequeryL2(t, Picked(Some(k))) && PickedAt(cfg, l2, acts, i, true, k, tape) && o.resp == tape.response;
    PickedStays(cfg, l2, acts, a, i, true, k, tape);
    ToldStreamStays(cfg, acts, s, s', a, t);
    assert (acts + [a])[i] == acts[i];
  }

  lemma OutcomeStays(cfg: Config, l2: seq<Entry>, acts: seq<Action>, s: State, s': State, a: Action, t: nat, o: Outcome)
    requires OutcomeDue(cfg, l2, acts, s, t, o) && Keeps(s, s')
    ensures OutcomeDue(cfg, l2, acts + [a], s', t, o)
  {
    hide UpstreamGave, Told, RequeryGave, Keeps;
    if UpstreamGave(acts, t, o) {
      UpstreamStays(acts, a, t, o);
    } else if RequeryGave(cfg, l2, acts, s, t, o) {
      RequeryStays(cfg, l2, acts, s, s', a, t, o);
    } else {
      ToldStays(cfg, acts, s, s', a, t, o);
    }
  }

  lemma MissesStay(acts: seq<Action>, a: Action, t: nat)
    ensures MissedL1(acts, t) ==> MissedL1(acts + [a], t)
    ensures MissedL2(acts, t) ==> MissedL2(acts + [a], t)
  {
    hide Missed;
    assert forall b :: b in acts ==> b in acts + [a];
  }

  lemma FoundStays(cfg: Config, l2: seq<Entry>, acts: seq<Action>, a: Action, t: nat, second: bool, tape: Tape)
    requires FoundIn(cfg, l2, acts, t, second, tape)
    ensures FoundIn(cfg, l2, acts + [a], t, second, tape)
  {
    hide PickedAt;
    var i: nat, k: nat :|
      i < |acts| && acts[i] == (if second then LookL2(t, Picked(Some(k))) else LookL1(t, Picked(Some(k)))) &&
      PickedAt(cfg, l2, acts, i, second, k, tape);
    PickedStays(cfg, l2, acts, a, i, second, k, tape);
    assert (acts + [a])[i] == acts[i];
  }

  lemma FallbackStays(cfg: Config, l2: seq<Entry>, acts: seq<Action>, s: State, s': State, a: Action, t: nat)
    requires SomeFallbackDue(cfg, l2, acts, s, t) && Keeps(s, s')
    ensures SomeFallbackDue(cfg, l2, acts + [a], s', t)
  {
    hide OutcomeDue, Keeps;
    var o: Outcome :| FallbackDue(cfg, l2, acts, s, t, o);
    OutcomeStays(cfg, l2, acts, s, s', a, t, o);
    assert FallbackDue(cfg, l2, acts + [a], s', t, o);
  }

  lemma AnswerStays(cfg: Config, l2: seq<Entry>, acts: seq<Action>, s: State, s': State, a: Action, t: nat, answer: Answer)
    requires AnswerDue(cfg, l2, acts, s, t, answer) && Keeps(s, s')
    ensures AnswerDue(cfg, l2, acts + [a], s', t, answer)
  {
    hide OutcomeDue, MissedL1, MissedL2, FoundIn, SomeFallbackDue, Keeps;
    MissesStay(acts, a, t);
    match answer
    case Live(r) => OutcomeStays(cfg, l2, acts, s, s', a, t, Got(r));
    case Cached(tape) =>
      FallbackStays(cfg, l2, acts, s, s', a, t);
      if FoundIn(cfg, l2, acts, t, false, tape) {
        FoundStays(cfg, l2, acts, a, t, false, tape);
      } else {
        FoundStays(cfg, l2, acts, a, t, true, tape);
      }
    case Original(o) => OutcomeStays(cfg, l2, acts, s, s', a, t, o);
  }

  lemma PcDueStays(cfg: Config, l2: seq<Entry>, acts: seq<Action>, s: State, s': State, a: Action, t: nat, pc: Pc)
    requires PcDue(cfg, l2, acts, s, t, pc) && Keeps(s, s')
    ensures PcDue(cfg, l2, acts + [a], s', t, pc)
  {
    hide OutcomeDue, AnswerDue, MissedL1, MissedL2, UpstreamGave, ToldStream, LedBy, CachingTransport.KeyOf;
    MissesStay(acts, a, t);
    match pc
    case Requery => ToldStreamStays(cfg, acts, s, s', a, t);
    case AtInner(lead, _) => LeadStays(acts, s, s', a, t, lead);
    case SavingL1(lead, _, src) => LeadStays(acts, s, s', a, t, lead); UpstreamStays(acts, a, t, Got(src.resp));
    case ToL2(lead, _, src, _) => LeadStays(acts, s, s', a, t, lead); UpstreamStays(acts, a, t, Got(src.resp));
    case SavingL2(lead, src) => LeadStays(acts, s, s', a, t, lead); UpstreamStays(acts, a, t, Got(src.resp));
    case Publishing(f, o) => LeadStays(acts, s, s', a, t, Some(f)); UpstreamStays(acts, a, t, o);
    case Deciding(o) => OutcomeStays(cfg, l2, acts, s, s', a, t, o);
    case FallbackL1(o) => OutcomeStays(cfg, l2, acts, s, s', a, t, o);
    case FallbackL2(o) => OutcomeStays(cfg, l2, acts, s, s', a, t, o);
    case Done(answer) => AnswerStays(cfg, l2, acts, s, s', a, t, answer);
    case _ =>
  }

  // ----- what each action makes of the thread that takes it -----

  lemma NowPicked(cfg: Config, l2: seq<Entry>, acts: seq<Action>, s: State, a: Action, second: bool, pick: nat)
    requires Runs(cfg, Init(l2), acts) && s == After(cfg, Init(l2), acts) && pick < |if second then s.l2 else s.l1|
    ensures (acts + [a])[|acts|] == a
    ensures PickedAt(cfg, l2, acts + [a], |acts|, second, pick, (if second then s.l2 else s.l1)[pick].tape)
  {
    assert (acts + [a])[..|acts|] == acts;
  }

  lemma InnerIsDue(cfg: Config, l2: seq<Entry>, acts: seq<Action>, s: State, t: nat, reply: Reply)
    requires Enabled(cfg, s, InnerReply(t, reply)) && PcDue(cfg, l2, acts, s, t, s.threads[t].pc)
    ensures var s' := Step(cfg, s, InnerReply(t, reply)); PcDue(cfg, l2, acts + [InnerReply(t, reply)], s', t, s'.threads[t].pc)
  {
    var a := InnerReply(t, reply);
    StepKeeps(cfg, s, a);
    LeadStays(acts, s, Step(cfg, s, a), a, t, s.threads[t].pc.lead);
    assert a in acts + [a];
    assert UpstreamGave(acts + [a], t, OutcomeOf(reply));
    hide UpstreamGave, Leads, Told, RequeryGave, Keeps;
  }

  /** The moves that carry an answer of upstream's on. */
  lemma CarryIsDue(cfg: Config, l2: seq<Entry>, acts: seq<Action>, s: State, a: Action)
    requires Enabled(cfg, s, a) && (a.SaveL1? || a.PassOn? || a.SaveL2?) && PcDue(cfg, l2, acts, s, a.t, s.threads[a.t].pc)
    ensures var s' := Step(cfg, s, a); PcDue(cfg, l2, acts + [a], s', a.t, s'.threads[a.t].pc)
  {
    hide UpstreamGave, Leads, Told, RequeryGave, Raw, Keeps;
    var pc := s.threads[a.t].pc;
    StepKeeps(cfg, s, a);
    LeadStays(acts, s, Step(cfg, s, a), a, a.t, pc.lead);
    UpstreamStays(acts, a, a.t, Got(pc.src.resp));
  }

  lemma RequeryIsDue(cfg: Config, l2: seq<Entry>, acts: seq<Action>, s: State, t: nat, q: Query)
    requires Runs(cfg, Init(l2), acts) && s == After(cfg, Init(l2), acts)
    requires Enabled(cfg, s, RequeryL2(t, q)) && PcDue(cfg, l2, acts, s, t, s.threads[t].pc)
    ensures var s' := Step(cfg, s, RequeryL2(t, q)); PcDue(cfg, l2, acts + [RequeryL2(t, q)], s', t, s'.threads[t].pc)
  {
    if Missed(q) {
      hide *;
      StreamWaiterIsDue(cfg, l2, acts, s, t, q);
    } else {
      RequeryHitIsDue(cfg, l2, acts, s, t, q);
    }
  }

  lemma StreamWaiterIsDue(cfg: Config, l2: seq<Entry>, acts: seq<Action>, s: State, t: nat, q: Query)
    requires Enabled(cfg, s, RequeryL2(t, q)) && Missed(q)
    ensures var s' := Step(cfg, s, RequeryL2(t, q)); PcDue(cfg, l2, acts + [RequeryL2(t, q)], s', t, s'.threads[t].pc)
  {
    hide CachingTransport.Matches, OutcomeDue, Leads;
  }

  lemma RequeryHitIsDue(cfg: Config, l2: seq<Entry>, acts: seq<Action>, s: State, t: nat, q: Query)
    requires Runs(cfg, Init(l2), acts) && s == After(cfg, Init(l2), acts) && !Missed(q)
    requires Enabled(cfg, s, RequeryL2(t, q)) && PcDue(cfg, l2, acts, s, t, s.threads[t].pc)
    ensures var s' := Step(cfg, s, RequeryL2(t, q)); PcDue(cfg, l2, acts + [RequeryL2(t, q)], s', t, s'.threads[t].pc)
  {
    hide ToldStream, PickedAt, Keeps, Runs, After, UpstreamGave, Told, CachingTransport.Matches;
    var a := RequeryL2(t, q);
    var s' := Step(cfg, s, a);
    StepKeeps(cfg, s, a);
    ToldStreamStays(cfg, acts, s, s', a, t);
    NowPicked(cfg, l2, acts, s, a, true, q.pick.value);
    NowRequeried(cfg, l2, acts + [a], s', t, |acts|, q.pick.value, s.l2[q.pick.value].tape);
    hide RequeryGave;
  }

  lemma NowRequeried(cfg: Config, l2: seq<Entry>, more: seq<Action>, s: State, t: nat, i: nat, k: nat, tape: Tape)
    requires ToldStream(cfg, more, s, t) && i < |more| && more[i] == RequeryL2(t, Picked(Some(k)))
    requires PickedAt(cfg, l2, more, i, true, k, tape)
    ensures RequeryGave(cfg, l2, more, s, t, Got(tape.response))
  {
  }

  lemma DecideIsDue(cfg: Config, l2: seq<Entry>, acts: seq<Action>, s: State, t: nat)
    requires Enabled(cfg, s, Decide(t)) && PcDue(cfg, l2, acts, s, t, s.threads[t].pc)
    ensures var s' := Step(cfg, s, Decide(t)); PcDue(cfg, l2, acts + [Decide(t)], s', t, s'.threads[t].pc)
  {
    hide OutcomeDue, Keeps, MissedL1, MissedL2;
    StepKeeps(cfg, s, Decide(t));
    OutcomeStays(cfg, l2, acts, s, Step(cfg, s, Decide(t)), Decide(t), t, s.threads[t].pc.outcome);
  }

  lemma LookL1IsDue(cfg: Config, l2: seq<Entry>, acts: seq<Action>, s: State, t: nat, q: Query)
    requires Runs(cfg, Init(l2), acts) && s == After(cfg, Init(l2), acts)
    requires Enabled(cfg, s, LookL1(t, q)) && PcDue(cfg, l2, acts, s, t, s.threads[t].pc)
    ensures var s' := Step(cfg, s, LookL1(t, q)); PcDue(cfg, l2, acts + [LookL1(t, q)], s', t, s'.threads[t].pc)
  {
    hide OutcomeDue, PickedAt, Keeps, Runs, After;
    var a, o := LookL1(t, q), s.threads[t].pc.outcome;
    var s', more := Step(cfg, s, a), acts + [a];
    StepKeeps(cfg, s, a);
    OutcomeStays(cfg, l2, acts, s, s', a, t, o);
    assert FallbackDue(cfg, l2, more, s', t, o) && a in more;
    hide FallbackDue;
    if Missed(q) {
      assert MissedL1(more, t);
    } else {
      NowPicked(cfg, l2, acts, s, a, false, q.pick.value);
      assert FoundIn(cfg, l2, more, t, false, s.l1[q.pick.value].tape);
    }
    hide FoundIn, MissedL1;
  }

  lemma LookL2IsDue(cfg: Config, l2: seq<Entry>, acts: seq<Action>, s: State, t: nat, q: Query)
    requires Runs(cfg, Init(l2), acts) && s == After(cfg, Init(l2), acts)
    requires Enabled(cfg, s, LookL2(t, q)) && PcDue(cfg, l2, acts, s, t, s.threads[t].pc)
    ensures var s' := Step(cfg, s, LookL2(t, q)); PcDue(cfg, l2, acts + [LookL2(t, q)], s', t, s'.threads[t].pc)
  {
    hide OutcomeDue, PickedAt, Keeps, Runs, After, MissedL1;
    var a, o := LookL2(t, q), s.threads[t].pc.outcome;
    var s', more := Step(cfg, s, a), acts + [a];
    StepKeeps(cfg, s, a);
    OutcomeStays(cfg, l2, acts, s, s', a, t, o);
    MissesStay(acts, a, t);
    assert FallbackDue(cfg, l2, more, s', t, o) && a in more;
    assert SomeFallbackDue(cfg, l2, more, s', t);
    hide SomeFallbackDue;
    if Missed(q) {
      assert MissedL2(more, t);
    } else {
      NowPicked(cfg, l2, acts, s, a, true, q.pick.value);
      assert FoundIn(cfg, l2, more, t, true, s.l2[q.pick.value].tape);
    }
    hide FoundIn, MissedL2;
  }

  lemma WakeIsTold(cfg: Config, l2: seq<Entry>, acts: seq<Action>, s: State, t: nat)
    requires AllDue(cfg, l2, acts, s) && Enabled(cfg, s, Wake(t))
    ensures Told(cfg, acts + [Wake(t)], Step(cfg, s, Wake(t)), t, s.flights[s.threads[t].pc.flight].outcome.value)
  {
    var a, f := Wake(t), s.threads[t].pc.flight;
    var s', more := Step(cfg, s, a), acts + [a];
    StepKeeps(cfg, s, a);
    hide CachingTransport.KeyOf, LedBy, Published;
    assert PcDue(cfg, l2, acts, s, t, s.threads[t].pc) && FlightDue(acts, s, f);
    hide AllDue, Step;
    var u: nat :| Leads(acts, s, u, f) && (s.flights[f].outcome.Some? ==> Published(acts, u, s.flights[f].outcome.value));
    LedByStays(acts, a, f, u);
    assert Join(t, f) in more && more[|acts|] == a && more[..|acts|] == acts;
    assert ToldBy(cfg, more, s', t, f, u, |acts|, s.flights[f].outcome.value);
  }

  lemma WakeIsDue(cfg: Config, l2: seq<Entry>, acts: seq<Action>, s: State, t: nat)
    requires AllDue(cfg, l2, acts, s) && Enabled(cfg, s, Wake(t))
    ensures var s' := Step(cfg, s, Wake(t)); PcDue(cfg, l2, acts + [Wake(t)], s', t, s'.threads[t].pc)
  {
    WakeIsTold(cfg, l2, acts, s, t);
    hide AllDue, Told, UpstreamGave, RequeryGave;
    var o, s' := s.flights[s.threads[t].pc.flight].outcome.value, Step(cfg, s, Wake(t));
    if o.Got? && o.resp.sse { assert ToldStream(cfg, acts + [Wake(t)], s', t); }
  }

  lemma LeadIsDue(cfg: Config, l2: seq<Entry>, acts: seq<Action>, s: State, t: nat)
    requires AllDue(cfg, l2, acts, s) && Enabled(cfg, s, Lead(t))
    ensures Leads(acts + [Lead(t)], Step(cfg, s, Lead(t)), t, |s.flights|)
  {
    assert (acts + [Lead(t)])[|acts|] == Lead(t) && (acts + [Lead(t)])[..|acts|] == acts;
  }

  /** A leader that publishes has its outcome from upstream. */
  lemma PublishIsDue(cfg: Config, l2: seq<Entry>, acts: seq<Action>, s: State, t: nat)
    requires Enabled(cfg, s, Publish(t)) && PcDue(cfg, l2, acts, s, t, s.threads[t].pc)
    ensures var s' := Step(cfg, s, Publish(t)); PcDue(cfg, l2, acts + [Publish(t)], s', t, s'.threads[t].pc)
    ensures var s', f := Step(cfg, s, Publish(t)), s.threads[t].pc.flight;
      f < |s'.flights| && FlightDue(acts + [Publish(t)], s', f)
  {
    hide UpstreamGave, LedBy, Told, RequeryGave;
    var a, pc := Publish(t), s.threads[t].pc;
    StepKeeps(cfg, s, a);
    UpstreamStays(acts, a, t, pc.outcome);
    LeadStays(acts, s, Step(cfg, s, a), a, t, Some(pc.flight));
    PublishSets(cfg, s, t);
    hide Step, Enabled, Keeps;
    NowPublished(acts + [a], Step(cfg, s, Publish(t)), pc.flight, t, pc.outcome);
  }

  lemma PublishSets(cfg: Config, s: State, t: nat)
    requires Enabled(cfg, s, Publish(t))
    ensures var s', pc := Step(cfg, s, Publish(t)), s.threads[t].pc;
      t in s'.threads && s'.threads[t].pc == Deciding(pc.outcome) &&
      (pc.flight < |s.flights| ==> pc.flight < |s'.flights| && s'.flights[pc.flight].outcome == Some(pc.outcome))
  {
  }

  lemma NowPublished(more: seq<Action>, s: State, f: nat, t: nat, o: Outcome)
    requires Leads(more, s, t, f) && s.flights[f].outcome == Some(o) && UpstreamGave(more, t, o) && Publish(t) in more
    ensures FlightDue(more, s, f)
  {
    hide LedBy, UpstreamGave;
    assert Published(more, t, o);
  }

  lemma MoverIsDue(cfg: Config, l2: seq<Entry>, acts: seq<Action>, s: State, a: Action)
    requires Runs(cfg, Init(l2), acts) && s == After(cfg, Init(l2), acts) && AllDue(cfg, l2, acts, s)
    requires Enabled(cfg, s, a) && !a.StreamL1? && !a.StreamL2?
    ensures var s' := Step(cfg, s, a); a.t in s'.threads && PcDue(cfg, l2, acts + [a], s', a.t, s'.threads[a.t].pc)
  {
    if !a.Arrive? { assert PcDue(cfg, l2, acts, s, a.t, s.threads[a.t].pc); }
    hide AllDue, Runs, After, CachingTransport.KeyOf;
    match a
    case Lead(t) => LeadIsDue(cfg, l2, acts, s, t);
    case Join(t, f) => assert a in acts + [a];
    case InnerReply(t, reply) => InnerIsDue(cfg, l2, acts, s, t, reply);
    case SaveL1(_, _, _) => CarryIsDue(cfg, l2, acts, s, a);
    case PassOn(_) => CarryIsDue(cfg, l2, acts, s, a);
    case SaveL2(_, _, _) => CarryIsDue(cfg, l2, acts, s, a);
    case Publish(t) => PublishIsDue(cfg, l2, acts, s, t);
    case Wake(t) => WakeIsDue(cfg, l2, acts, s, t);
    case RequeryL2(t, q) => RequeryIsDue(cfg, l2, acts, s, t, q);
    case Decide(t) => DecideIsDue(cfg, l2, acts, s, t);
    case LookL1(t, q) => LookL1IsDue(cfg, l2, acts, s, t, q);
    case LookL2(t, q) => LookL2IsDue(cfg, l2, acts, s, t, q);
    case _ =>
  }

  lemma FlightStaysDue(acts: seq<Action>, s: State, s': State, a: Action, f: nat)
    requires f < |s.flights| && FlightDue(acts, s, f) && Keeps(s, s') && s'.flights[f] == s.flights[f]
    ensures FlightDue(acts + [a], s', f)
  {
    hide LedBy, UpstreamGave;
    var u: nat :| Leads(acts, s, u, f) && (s.flights[f].outcome.Some? ==> Published(acts, u, s.flights[f].outcome.value));
    LedByStays(acts, a, f, u);
    if s.flights[f].outcome.Some? {
      UpstreamStays(acts, a, u, s.flights[f].outcome.value);
      assert Publish(u) in acts + [a];
    }
    assert Leads(acts + [a], s', u, f);
  }

  /** Flights change only by a new one and by publishing. */
  lemma FlightsChange(cfg: Config, s: State, a: Action)
    requires Enabled(cfg, s, a)
    ensures var s' := Step(cfg, s, a);
      s'.flights == (match a
        case Lead(t) => s.flights + [Flight(s.threads[t].req, None)]
        case Publish(t) =>
          var f := s.threads[t].pc.flight;
          if f < |s.flights| then s.flights[f := s.flights[f].(outcome := Some(s.threads[t].pc.outcome))] else s.flights
        case _ => s.flights)
  {
    hide AfterInner, AfterWake, AfterRequery, AfterDecide, AfterLook, Return, Raw, LookupOk, RequeryOk;
  }

  lemma ThreadsStayDue(cfg: Config, l2: seq<Entry>, acts: seq<Action>, s: State, a: Action)
    requires Runs(cfg, Init(l2), acts) && s == After(cfg, Init(l2), acts) && AllDue(cfg, l2, acts, s) && Enabled(cfg, s, a)
    ensures var s' := Step(cfg, s, a); forall t :: t in s'.threads ==> PcDue(cfg, l2, acts + [a], s', t, s'.threads[t].pc)
  {
    var s' := Step(cfg, s, a);
    StepKeeps(cfg, s, a);
    MovesOne(cfg, s, a);
    if !a.StreamL1? && !a.StreamL2? { MoverIsDue(cfg, l2, acts, s, a); }
    hide Step, Enabled, PcDue, Keeps, Runs, After;
    forall t | t in s'.threads ensures PcDue(cfg, l2, acts + [a], s', t, s'.threads[t].pc) {
      if a.StreamL1? || a.StreamL2? || t != a.t { PcDueStays(cfg, l2, acts, s, s', a, t, s.threads[t].pc); }
    }
  }

  lemma FlightsStayDue(cfg: Config, l2: seq<Entry>, acts: seq<Action>, s: State, a: Action)
    requires AllDue(cfg, l2, acts, s) && Enabled(cfg, s, a)
    ensures var s' := Step(cfg, s, a);
      (forall f: nat :: f < |s'.flights| ==> FlightDue(acts + [a], s', f)) && |s'.flights| == Flown(acts + [a])
  {
    var s', more := Step(cfg, s, a), acts + [a];
    StepKeeps(cfg, s, a);
    FlightsChange(cfg, s, a);
    assert more[..|more| - 1] == acts;
    if a.Lead? { LeadIsDue(cfg, l2, acts, s, a.t); }
    if a.Publish? { PublishIsDue(cfg, l2, acts, s, a.t); }
    hide Step, Enabled, PcDue, Keeps, Leads, Published;
    forall f: nat | f < |s'.flights| ensures FlightDue(more, s', f) {
      if f < |s.flights| && s'.flights[f] == s.flights[f] {
        assert FlightDue(acts, s, f);
        FlightStaysDue(acts, s, s', a, f);
      }
    }
  }

  lemma StepStaysDue(cfg: Config, l2: seq<Entry>, acts: seq<Action>, s: State, a: Action)
    requires Runs(cfg, Init(l2), acts) && s == After(cfg, Init(l2), acts) && AllDue(cfg, l2, acts, s) && Enabled(cfg, s, a)
    ensures AllDue(cfg, l2, acts + [a], Step(cfg, s, a))
  {
    ThreadsStayDue(cfg, l2, acts, s, a);
    FlightsStayDue(cfg, l2, acts, s, a);
    hide Step, Enabled, PcDue, FlightDue, Runs, After;
  }

  lemma {:induction false} LastAction(cfg: Config, s: State, acts: seq<Action>, a: Action)
    requires Runs(cfg, s, acts + [a])
    ensures Runs(cfg, s, acts) && Enabled(cfg, After(cfg, s, acts), a)
    ensures After(cfg, s, acts + [a]) == Step(cfg, After(cfg, s, acts), a)
    decreases |acts|
  {
    hide Enabled, Step;
    var more := acts + [a];
    if acts == [] {
      assert more[0] == a && more[1..] == [];
    } else {
      assert more[0] == acts[0] && more[1..] == acts[1..] + [a];
      LastAction(cfg, Step(cfg, s, acts[0]), acts[1..], a);
    }
  }

  lemma NothingIsDue(cfg: Config, l2: seq<Entry>)
    ensures AllDue(cfg, l2, [], Init(l2))
  {
  }

  lemma {:induction false} RunIsDue(cfg: Config, l2: seq<Entry>, acts: seq<Action>)
    requires Runs(cfg, Init(l2), acts)
    ensures AllDue(cfg, l2, acts, After(cfg, Init(l2), acts))
    decreases |acts|
  {
    NothingIsDue(cfg, l2);
    if acts != [] {
      hide Runs, After, AllDue, Enabled, Step;
      var n := |acts| - 1;
      assert acts == acts[..n] + [acts[n]];
      LastAction(cfg, Init(l2), acts[..n], acts[n]);
      RunIsDue(cfg, l2, acts[..n]);
      StepStaysDue(cfg, l2, acts[..n], After(cfg, Init(l2), acts[..n]), acts[n]);
    }
  }

  // ----- the statements -----

  /** In every run every answer given is one that was due: a live one is what upstream said
      to this call, to the leader of the flight it joined, or, behind a stream, the tape
      picked in the second tier, and does not call for the fallback; a cached one is a
      tape found in the first tier, or after a miss there in the second, when the outcome
      called for the fallback; and the original outcome is returned only if it does not,
      being a failure, or nothing was found in either tier. */
  lemma AnswersAreDue(cfg: Config, l2: seq<Entry>, acts: seq<Action>, t: nat)
    requires Runs(cfg, Init(l2), acts) && t in After(cfg, Init(l2), acts).threads && After(cfg, Init(l2), acts).threads[t].pc.Done?
    ensures var s := After(cfg, Init(l2), acts); AnswerDue(cfg, l2, acts, s, t, s.threads[t].pc.answer)
  {
    RunIsDue(cfg, l2, acts);
    var s := After(cfg, Init(l2), acts);
    assert PcDue(cfg, l2, acts, s, t, s.threads[t].pc);
  }

  /** What may become of an outcome: it decides alone whether the answer is live. */
  predicate Decides(cfg: Config, o: Outcome, a: Answer) {
    if FallsBack(cfg, o) then a.Cached? || a == Original(o)
    else a == (if o.Got? then Live(o.resp) else Original(Failed))
  }

  predicate OnItsWay(cfg: Config, pc: Pc, o: Outcome) {
    match pc
    case SavingL1(_, _, src) => Got(src.resp) == o
    case ToL2(_, _, src, _) => Got(src.resp) == o
    case SavingL2(_, src) => Got(src.resp) == o
    case Publishing(_, p) => p == o
    case Deciding(p) => p == o
    case FallbackL1(p) => p == o && FallsBack(cfg, o)
    case FallbackL2(p) => p == o && FallsBack(cfg, o)
    case Done(a) => Decides(cfg, o, a)
    case _ => false
  }

  lemma MoveKeepsWay(cfg: Config, s: State, a: Action, t: nat, o: Outcome)
    requires Enabled(cfg, s, a) && t in s.threads && OnItsWay(cfg, s.threads[t].pc, o)
    ensures t in Step(cfg, s, a).threads && OnItsWay(cfg, Step(cfg, s, a).threads[t].pc, o)
  {
    MovesOne(cfg, s, a);
    if a.StreamL1? || a.StreamL2? || a.t != t {
      hide Step, Enabled, OnItsWay;
    } else {
      hide Raw, LookupOk, RequeryOk, OneMoved;
    }
  }

  lemma {:induction false} StaysOnItsWay(cfg: Config, s: State, more: seq<Action>, t: nat, o: Outcome)
    requires Runs(cfg, s, more) && t in s.threads && OnItsWay(cfg, s.threads[t].pc, o)
    ensures t in After(cfg, s, more).threads && OnItsWay(cfg, After(cfg, s, more).threads[t].pc, o)
    decreases |more|
  {
    if more != [] {
      MoveKeepsWay(cfg, s, more[0], t, o);
      hide Enabled, Step, OnItsWay;
      StaysOnItsWay(cfg, Step(cfg, s, more[0]), more[1..], t, o);
    }
  }

  /** What upstream says to a call decides its answer, whatever the recordings do: a
      response that does not call for the fallback is passed on live, a failure that does
      not is returned, and anything else is answered from the tiers or returned. */
  lemma UpstreamsReplyDecides(cfg: Config, s: State, t: nat, reply: Reply, more: seq<Action>)
    requires Enabled(cfg, s, InnerReply(t, reply)) && Runs(cfg, Step(cfg, s, InnerReply(t, reply)), more)
    ensures var s' := After(cfg, Step(cfg, s, InnerReply(t, reply)), more);
      t in s'.threads && (s'.threads[t].pc.Done? ==> Decides(cfg, OutcomeOf(reply), s'.threads[t].pc.answer))
  {
    var s1 := Step(cfg, s, InnerReply(t, reply));
    assert OnItsWay(cfg, s1.threads[t].pc, OutcomeOf(reply));
    StaysOnItsWay(cfg, s1, more, t, OutcomeOf(reply));
  }

  /** So does a flight's outcome for those who joined it, streams excepted. */
  lemma FlightsOutcomeDecides(cfg: Config, s: State, t: nat, more: seq<Action>)
    requires Enabled(cfg, s, Wake(t)) && Runs(cfg, Step(cfg, s, Wake(t)), more)
    requires var o := s.flights[s.threads[t].pc.flight].outcome.value; o.Got? ==> !o.resp.sse
    ensures var s' := After(cfg, Step(cfg, s, Wake(t)), more);
      t in s'.threads && (s'.threads[t].pc.Done? ==> Decides(cfg, s.flights[s.threads[t].pc.flight].outcome.value, s'.threads[t].pc.answer))
  {
    var o, s1 := s.flights[s.threads[t].pc.flight].outcome.value, Step(cfg, s, Wake(t));
    assert OnItsWay(cfg, s1.threads[t].pc, o);
    StaysOnItsWay(cfg, s1, more, t, o);
  }

  /** Behind a stream a waiter that finds no tape goes upstream itself. */
  lemma StreamWaiterGoesUpstream(cfg: Config, s: State, t: nat, q: Query, reply: Reply)
    requires Enabled(cfg, s, RequeryL2(t, q)) && Missed(q)
    ensures Enabled(cfg, Step(cfg, s, RequeryL2(t, q)), InnerReply(t, reply))
  {
  }
}
