/** What the proxy's two tiers hold, told from the actions of a run alone. */
module ProxyTapes {
  import opened Options
  import opened Tapes
  import CachingTransport
  import opened Proxy
  import opened ProxyAnswers

  /** A body over the limit, where there is one. */
  predicate Large(cfg: Config, req: Request) { cfg.ct.maxBodySize > 0 && |req.body| > cfg.ct.maxBodySize }

  /** The recording of an exchange, field by field. */
  function Recording(cfg: Config, id: string, src: Source): Tape {
    Tape(id := id, route := cfg.ct.route, verb := src.req.verb, path := src.req.path, reqBody := src.req.body,
         bodyHash := cfg.ct.hash(src.req.body), response := src.resp, exemplar := false, urlPattern := "")
  }

  /** An answer upstream gave to a thread. */
  ghost predicate ExchangeOf(acts: seq<Action>, s: State, u: nat, src: Source) {
    InnerReply(u, Resp(src.resp, src.whole)) in acts && u in s.threads && s.threads[u].req == src.req
  }

  ghost predicate Exchanged(acts: seq<Action>, s: State, src: Source) { exists u: nat :: ExchangeOf(acts, s, u, src) }

  /** What the first tier keeps of: no fallback, and whole bodies or streams. */
  ghost predicate FirstKeeps(cfg: Config, acts: seq<Action>, s: State, src: Source) {
    Exchanged(acts, s, src) && !cfg.isFallback(src.resp) && (src.resp.sse || src.whole)
  }

  /** What the second tier keeps of: streams and what the filter lets through, of requests
      that are not too large. */
  ghost predicate SecondKeeps(cfg: Config, acts: seq<Action>, s: State, src: Source) {
    Exchanged(acts, s, src) && !Large(cfg, src.req) && (src.resp.sse || cfg.ct.cacheFilter(src.resp))
  }

  ghost predicate L1Entry(cfg: Config, acts: seq<Action>, s: State, e: Entry) {
    FirstKeeps(cfg, acts, s, e.src) && e.tape == Recording(cfg, e.id, e.src)
  }

  ghost predicate L2Entry(cfg: Config, acts: seq<Action>, s: State, e: Entry) {
    SecondKeeps(cfg, acts, s, e.src) && e.tape == cfg.ct.sanitize(Recording(cfg, e.id, e.src))
  }

  function SavesTo(acts: seq<Action>, second: bool): nat {
    if acts == [] then 0
    else
      var a := acts[|acts| - 1];
      SavesTo(acts[..|acts| - 1], second) +
      if second then (if (a.SaveL2? && a.ok) || a.StreamL2? then 1 else 0)
      else (if (a.SaveL1? && a.ok) || a.StreamL1? then 1 else 0)
  }

  // ----- the invariant -----

  ghost predicate PcOk(cfg: Config, acts: seq<Action>, s: State, t: nat, pc: Pc) {
    t in s.threads &&
    match pc
    case Waiting(_) => !Large(cfg, s.threads[t].req)
    case Requery => !Large(cfg, s.threads[t].req)
    case AtInner(_, bypass) => !bypass ==> !Large(cfg, s.threads[t].req)
    case SavingL1(_, bypass, src) =>
      ExchangeOf(acts, s, t, src) && !cfg.isFallback(src.resp) && src.whole && !src.resp.sse && (!bypass ==> !Large(cfg, src.req))
    case ToL2(_, bypass, src, _) => ExchangeOf(acts, s, t, src) && (!bypass ==> !Large(cfg, src.req))
    case SavingL2(_, src) => ExchangeOf(acts, s, t, src) && !Large(cfg, src.req) && cfg.ct.cacheFilter(src.resp)
    case _ => true
  }

  ghost predicate ThreadsOk(cfg: Config, acts: seq<Action>, s: State) {
    forall t :: t in s.threads ==> PcOk(cfg, acts, s, t, s.threads[t].pc)
  }

  ghost predicate TiersOk(cfg: Config, l2: seq<Entry>, acts: seq<Action>, s: State) {
    |s.l1| == SavesTo(acts, false) && |s.l2| == |l2| + SavesTo(acts, true) && l2 <= s.l2 &&
    (forall i :: 0 <= i < |s.l1| ==> L1Entry(cfg, acts, s, s.l1[i])) &&
    (forall i :: |l2| <= i < |s.l2| ==> L2Entry(cfg, acts, s, s.l2[i])) &&
    (forall i :: 0 <= i < |s.l1Streams| ==> FirstKeeps(cfg, acts, s, s.l1Streams[i])) &&
    (forall i :: 0 <= i < |s.l2Streams| ==> SecondKeeps(cfg, acts, s, s.l2Streams[i]))
  }

  lemma ExchangeStays(acts: seq<Action>, a: Action, s: State, s': State, src: Source)
    requires Exchanged(acts, s, src) && Keeps(s, s')
    ensures Exchanged(acts + [a], s', src)
  {
    var u: nat :| ExchangeOf(acts, s, u, src);
    assert forall b :: b in acts ==> b in acts + [a];
    assert ExchangeOf(acts + [a], s', u, src);
  }

  lemma PcStays(cfg: Config, acts: seq<Action>, a: Action, s: State, s': State, t: nat, pc: Pc)
    requires PcOk(cfg, acts, s, t, pc) && Keeps(s, s')
    ensures PcOk(cfg, acts + [a], s', t, pc)
  {
    assert forall b :: b in acts ==> b in acts + [a];
  }

  lemma MoverIsOk(cfg: Config, acts: seq<Action>, s: State, a: Action)
    requires Enabled(cfg, s, a) && !a.StreamL1? && !a.StreamL2? && (!a.Arrive? ==> PcOk(cfg, acts, s, a.t, s.threads[a.t].pc))
    ensures var s' := Step(cfg, s, a); a.t in s'.threads && PcOk(cfg, acts + [a], s', a.t, s'.threads[a.t].pc)
  {
    hide CachingTransport.KeyOf, Raw, LookupOk, RequeryOk;
    assert a in acts + [a] && forall b :: b in acts ==> b in acts + [a];
  }

  /** What an action adds to the tiers. */
  lemma TiersGrowBy(cfg: Config, s: State, a: Action)
    requires Enabled(cfg, s, a)
    ensures var s' := Step(cfg, s, a);
      s'.l1 == s.l1 + (match a
        case SaveL1(t, id, true) => [Entry(id, s.threads[t].pc.src, Recording(cfg, id, s.threads[t].pc.src))]
        case StreamL1(i, id) => [Entry(id, s.l1Streams[i], Recording(cfg, id, s.l1Streams[i]))]
        case _ => []) &&
      s'.l2 == s.l2 + (match a
        case SaveL2(t, id, true) => [Entry(id, s.threads[t].pc.src, cfg.ct.sanitize(Recording(cfg, id, s.threads[t].pc.src)))]
        case StreamL2(i, id) => [Entry(id, s.l2Streams[i], cfg.ct.sanitize(Recording(cfg, id, s.l2Streams[i])))]
        case _ => [])
  {
    hide CachingTransport.KeyOf, LookupOk, RequeryOk, AfterInner, AfterWake, AfterRequery, AfterDecide, AfterLook, Return;
  }

  lemma StreamsGrowBy(cfg: Config, s: State, a: Action)
    requires Enabled(cfg, s, a)
    ensures var s' := Step(cfg, s, a);
      s'.l1Streams == s.l1Streams +
        (if a.InnerReply? && a.reply.Resp? && a.reply.resp.sse && !cfg.isFallback(a.reply.resp)
         then [Source(s.threads[a.t].req, a.reply.resp, a.reply.whole)] else []) &&
      s'.l2Streams == s.l2Streams +
        (if a.PassOn? && !s.threads[a.t].pc.bypass && s.threads[a.t].pc.src.resp.sse then [s.threads[a.t].pc.src] else [])
  {
    hide CachingTransport.KeyOf, LookupOk, RequeryOk, Raw, AfterInner, AfterWake, AfterRequery, AfterDecide, AfterLook, Return;
  }

  lemma FirstStays(cfg: Config, acts: seq<Action>, a: Action, s: State, s': State, src: Source)
    requires FirstKeeps(cfg, acts, s, src) && Keeps(s, s')
    ensures FirstKeeps(cfg, acts + [a], s', src)
  {
    ExchangeStays(acts, a, s, s', src);
  }

  lemma SecondStays(cfg: Config, acts: seq<Action>, a: Action, s: State, s': State, src: Source)
    requires SecondKeeps(cfg, acts, s, src) && Keeps(s, s')
    ensures SecondKeeps(cfg, acts + [a], s', src)
  {
    ExchangeStays(acts, a, s, s', src);
  }

  lemma NowExchanged(acts: seq<Action>, s: State, t: nat, src: Source)
    requires ExchangeOf(acts, s, t, src)
    ensures Exchanged(acts, s, src)
  {
  }

  lemma StepKeepsTiers(cfg: Config, l2: seq<Entry>, acts: seq<Action>, s: State, a: Action)
    requires TiersOk(cfg, l2, acts, s) && ThreadsOk(cfg, acts, s) && Enabled(cfg, s, a)
    ensures TiersOk(cfg, l2, acts + [a], Step(cfg, s, a))
  {
    var s', more := Step(cfg, s, a), acts + [a];
    StepKeeps(cfg, s, a);
    TiersGrowBy(cfg, s, a);
    StreamsGrowBy(cfg, s, a);
    assert more[..|more| - 1] == acts;
    if a.SaveL1? || a.SaveL2? || a.PassOn? || a.InnerReply? {
      assert PcOk(cfg, acts, s, a.t, s.threads[a.t].pc);
      MoverHasExchange(cfg, acts, s, a);
    }
    EntriesStayOk(cfg, l2, acts, s, a);
    hide Step, Enabled, ThreadsOk, PcOk, Exchanged, Keeps, Recording, L1Entry, L2Entry;
    forall i | 0 <= i < |s'.l1Streams| ensures FirstKeeps(cfg, more, s', s'.l1Streams[i]) {
      if i < |s.l1Streams| { FirstStays(cfg, acts, a, s, s', s.l1Streams[i]); }
    }
    forall i | 0 <= i < |s'.l2Streams| ensures SecondKeeps(cfg, more, s', s'.l2Streams[i]) {
      if i < |s.l2Streams| { SecondStays(cfg, acts, a, s, s', s.l2Streams[i]); }
    }
  }

  lemma EntriesStayOk(cfg: Config, l2: seq<Entry>, acts: seq<Action>, s: State, a: Action)
    requires TiersOk(cfg, l2, acts, s) && ThreadsOk(cfg, acts, s) && Enabled(cfg, s, a)
    ensures var s' := Step(cfg, s, a);
      (forall i :: 0 <= i < |s'.l1| ==> L1Entry(cfg, acts + [a], s', s'.l1[i])) &&
      (forall i :: |l2| <= i < |s'.l2| ==> L2Entry(cfg, acts + [a], s', s'.l2[i]))
  {
    var s', more := Step(cfg, s, a), acts + [a];
    StepKeeps(cfg, s, a);
    TiersGrowBy(cfg, s, a);
    if a.SaveL1? || a.SaveL2? {
      assert PcOk(cfg, acts, s, a.t, s.threads[a.t].pc);
      MoverHasExchange(cfg, acts, s, a);
    }
    hide Step, Enabled, ThreadsOk, PcOk, Exchanged, Keeps, Recording;
    forall i | 0 <= i < |s'.l1| ensures L1Entry(cfg, more, s', s'.l1[i]) {
      if i < |s.l1| || a.StreamL1? { FirstStays(cfg, acts, a, s, s', s'.l1[i].src); }
    }
    forall i | |l2| <= i < |s'.l2| ensures L2Entry(cfg, more, s', s'.l2[i]) {
      if i < |s.l2| || a.StreamL2? { SecondStays(cfg, acts, a, s, s', s'.l2[i].src); }
    }
  }

  lemma MoverHasExchange(cfg: Config, acts: seq<Action>, s: State, a: Action)
    requires Enabled(cfg, s, a) && (a.SaveL1? || a.SaveL2? || a.PassOn? || a.InnerReply?) && PcOk(cfg, acts, s, a.t, s.threads[a.t].pc)
    ensures a.InnerReply? && a.reply.Resp? ==>
      Exchanged(acts + [a], Step(cfg, s, a), Source(s.threads[a.t].req, a.reply.resp, a.reply.whole))
    ensures !a.InnerReply? ==> Exchanged(acts + [a], Step(cfg, s, a), s.threads[a.t].pc.src)
  {
    StepKeeps(cfg, s, a);
    hide Step;
    assert a in acts + [a];
    if a.InnerReply? {
      if a.reply.Resp? { NowExchanged(acts + [a], Step(cfg, s, a), a.t, Source(s.threads[a.t].req, a.reply.resp, a.reply.whole)); }
    } else {
      NowExchanged(acts, s, a.t, s.threads[a.t].pc.src);
      ExchangeStays(acts, a, s, Step(cfg, s, a), s.threads[a.t].pc.src);
    }
  }

  lemma StepKeepsThreads(cfg: Config, acts: seq<Action>, s: State, a: Action)
    requires ThreadsOk(cfg, acts, s) && Enabled(cfg, s, a)
    ensures ThreadsOk(cfg, acts + [a], Step(cfg, s, a))
  {
    var s' := Step(cfg, s, a);
    StepKeeps(cfg, s, a);
    MovesOne(cfg, s, a);
    if !a.StreamL1? && !a.StreamL2? { MoverIsOk(cfg, acts, s, a); }
    hide Step, Enabled, PcOk, Keeps;
    forall t | t in s'.threads ensures PcOk(cfg, acts + [a], s', t, s'.threads[t].pc) {
      if a.StreamL1? || a.StreamL2? || t != a.t { PcStays(cfg, acts, a, s, s', t, s.threads[t].pc); }
    }
  }

  lemma NothingKept(cfg: Config, l2: seq<Entry>)
    ensures ThreadsOk(cfg, [], Init(l2)) && TiersOk(cfg, l2, [], Init(l2))
  {
  }

  lemma {:induction false} RunKeepsTiers(cfg: Config, l2: seq<Entry>, acts: seq<Action>)
    requires Runs(cfg, Init(l2), acts)
    ensures ThreadsOk(cfg, acts, After(cfg, Init(l2), acts)) && TiersOk(cfg, l2, acts, After(cfg, Init(l2), acts))
    decreases |acts|
  {
    NothingKept(cfg, l2);
    if acts != [] {
      hide Runs, After, ThreadsOk, TiersOk, Enabled, Step;
      var n := |acts| - 1;
      assert acts == acts[..n] + [acts[n]];
      LastAction(cfg, Init(l2), acts[..n], acts[n]);
      RunKeepsTiers(cfg, l2, acts[..n]);
      StepKeepsTiers(cfg, l2, acts[..n], After(cfg, Init(l2), acts[..n]), acts[n]);
      StepKeepsThreads(cfg, acts[..n], After(cfg, Init(l2), acts[..n]), acts[n]);
    }
  }

  // ----- the statement -----

  /** In every run each successful save, and nothing else, adds one tape to its tier, behind
      those that were there: to the first the recording of an exchange as it was, to the
      second the sanitizer's output on one, of a request that is not too large. */
  lemma TiersHoldWhatWasSaved(cfg: Config, l2: seq<Entry>, acts: seq<Action>)
    requires Runs(cfg, Init(l2), acts)
    ensures var s := After(cfg, Init(l2), acts);
      |s.l1| == SavesTo(acts, false) && (forall i :: 0 <= i < |s.l1| ==> L1Entry(cfg, acts, s, s.l1[i]))
    ensures var s := After(cfg, Init(l2), acts);
      l2 <= s.l2 && |s.l2| == |l2| + SavesTo(acts, true) && (forall i :: |l2| <= i < |s.l2| ==> L2Entry(cfg, acts, s, s.l2[i]))
  {
    RunKeepsTiers(cfg, l2, acts);
  }
}
