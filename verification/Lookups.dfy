/** The lookups of the two state machines are what the default matchers compute,
    and the proxy's fallback as a whole. */
module Lookups {
  import opened Options
  import opened Tapes
  import opened Matcher
  import CachingTransport
  import Proxy

  const PROXY_CRITERIA: seq<Criterion> := [METHOD, PATH]

  function TapesOf(entries: seq<Proxy.Entry>): (ts: seq<Tape>)
    ensures |ts| == |entries|
    ensures forall i :: 0 <= i < |ts| ==> ts[i] == entries[i].tape
  {
    seq(|entries|, i requires 0 <= i < |entries| => entries[i].tape)
  }

  /** What the default matcher answers is a lookup the caching transport's machine
      allows. */
  lemma CachingLookup(cfg: CachingTransport.Config, s: CachingTransport.State, req: Request)
    ensures CachingTransport.QueryOk(cfg, s, req,
      CachingTransport.Picked(Match(req, s.store, [METHOD, PATH, BodyHashCriterion(cfg.hash)])))
  {
    DefaultMatchAgrees(req, s.store, cfg.hash);
  }

  /** The same for the proxy's fallback. */
  lemma ProxyLookup(req: Request, entries: seq<Proxy.Entry>)
    ensures Proxy.LookupOk(req, entries, Proxy.Picked(Match(req, TapesOf(entries), PROXY_CRITERIA)))
  {
    ProxyMatchAgrees(req, TapesOf(entries));
    assert forall i :: 0 <= i < |entries| ==> TapesOf(entries)[i] in TapesOf(entries);
  }

  /** And for the second tier's lookup behind a stream. */
  lemma RequeryLookup(cfg: Proxy.Config, req: Request, entries: seq<Proxy.Entry>)
    ensures Proxy.RequeryOk(cfg, req, entries,
      Proxy.Picked(Match(req, TapesOf(entries), [METHOD, PATH, BodyHashCriterion(cfg.ct.hash)])))
  {
    DefaultMatchAgrees(req, TapesOf(entries), cfg.ct.hash);
    assert forall i :: 0 <= i < |entries| ==> TapesOf(entries)[i] in TapesOf(entries);
  }

  /** A lookup may fail, pick any tape that agrees with the request in what is compared, or
      pick none if no tape does; nothing else. */
  lemma AllowedLookups(cfg: Proxy.Config, s: CachingTransport.State, req: Request, entries: seq<Proxy.Entry>, i: nat)
    ensures CachingTransport.QueryOk(cfg.ct, s, req, CachingTransport.ListFailed)
    ensures CachingTransport.QueryOk(cfg.ct, s, req, CachingTransport.Picked(Some(i))) <==>
      i < |s.store| && s.store[i].verb == req.verb && s.store[i].path == req.path && s.store[i].bodyHash == cfg.ct.hash(req.body)
    ensures CachingTransport.QueryOk(cfg.ct, s, req, CachingTransport.Picked(None)) <==>
      forall t :: t in s.store ==> t.verb != req.verb || t.path != req.path || t.bodyHash != cfg.ct.hash(req.body)
    ensures Proxy.LookupOk(req, entries, Proxy.ListFailed) && Proxy.RequeryOk(cfg, req, entries, Proxy.ListFailed)
    ensures Proxy.LookupOk(req, entries, Proxy.Picked(Some(i))) <==>
      i < |entries| && entries[i].tape.verb == req.verb && entries[i].tape.path == req.path
    ensures Proxy.RequeryOk(cfg, req, entries, Proxy.Picked(Some(i))) <==>
      Proxy.LookupOk(req, entries, Proxy.Picked(Some(i))) && entries[i].tape.bodyHash == cfg.ct.hash(req.body)
    ensures Proxy.LookupOk(req, entries, Proxy.Picked(None)) <==>
      forall e :: e in entries ==> e.tape.verb != req.verb || e.tape.path != req.path
    ensures Proxy.RequeryOk(cfg, req, entries, Proxy.Picked(None)) <==>
      forall e :: e in entries ==> e.tape.verb != req.verb || e.tape.path != req.path || e.tape.bodyHash != cfg.ct.hash(req.body)
  {
    assert forall k :: 0 <= k < |entries| ==> entries[k] in entries;
  }

  ghost predicate FirstOnRoute(req: Request, ts: seq<Tape>, i: nat) {
    i < |ts| && Proxy.SameRoute(req, ts[i]) && forall j :: 0 <= j < i ==> !Proxy.SameRoute(req, ts[j])
  }

  lemma RouteTotal(req: Request, t: Tape)
    ensures Total(req, t, PROXY_CRITERIA) == if Proxy.SameRoute(req, t) then Some(3) else None
  {
    assert PROXY_CRITERIA[1..] == [PATH] && PROXY_CRITERIA[1..][1..] == [];
    assert METHOD.score(req, t) == (if req.verb == t.verb then 1 else 0);
    assert PATH.score(req, t) == (if req.path == t.path then 2 else 0);
    assert Total(req, t, [PATH]) == if req.path == t.path then Some(2) else None;
  }

  /** All matching tapes score alike, so the matcher picks the first of them. */
  lemma ProxyMatchIsFirst(req: Request, ts: seq<Tape>)
    ensures match Match(req, ts, PROXY_CRITERIA)
      case None => forall j :: 0 <= j < |ts| ==> !Proxy.SameRoute(req, ts[j])
      case Some(i) => FirstOnRoute(req, ts, i)
  {
    hide Total;
    forall t ensures Total(req, t, PROXY_CRITERIA) == if Proxy.SameRoute(req, t) then Some(3) else None { RouteTotal(req, t); }
    MatchIsFirstBest(req, ts, PROXY_CRITERIA);
  }

  /** A tier as the fallback sees it; None when its listing fails. */
  type Tier = Option<seq<Tape>>

  ghost predicate AnswersFrom(req: Request, tier: Tier, tape: Tape) {
    tier.Some? && exists i: nat :: FirstOnRoute(req, tier.value, i) && tier.value[i] == tape
  }

  ghost predicate Empty(req: Request, tier: Tier) {
    tier.Some? ==> forall j :: 0 <= j < |tier.value| ==> !Proxy.SameRoute(req, tier.value[j])
  }

  method MatchFromStore(req: Request, tier: Tier) returns (tape: Option<Tape>)
    ensures tape.Some? ==> AnswersFrom(req, tier, tape.value)
    ensures tape.None? ==> Empty(req, tier)
  {
    if tier.None? {
      return None;
    }
    var m := CompositeMatch(req, tier.value, PROXY_CRITERIA);
    ProxyMatchIsFirst(req, tier.value);
    if m.None? {
      return None;
    }
    return Some(tier.value[m.value]);
  }

  /** The fallback answers with the first matching tape of the first tier, else with
      the first of the second, else with what it was called for. */
  method Fallback(req: Request, l1: Tier, l2: Tier, original: Proxy.Outcome) returns (a: Proxy.Answer)
    ensures match a
      case Cached(tape) => AnswersFrom(req, l1, tape) || (Empty(req, l1) && AnswersFrom(req, l2, tape))
      case Original(o) => o == original && Empty(req, l1) && Empty(req, l2)
      case Live(_) => false
  {
    var tape := MatchFromStore(req, l1);
    if tape.Some? {
      return Proxy.Cached(tape.value);
    }
    tape := MatchFromStore(req, l2);
    if tape.Some? {
      return Proxy.Cached(tape.value);
    }
    return Proxy.Original(original);
  }
}
