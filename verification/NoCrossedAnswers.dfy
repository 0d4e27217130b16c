/** No crossed answers: when every answer a caller gets was given by upstream to a
    request with the same method, path and body hash, exactly. */
module NoCrossedAnswers {
  import opened Tapes
  import opened CachingTransport
  import opened CacheKeys
  import opened Provenance
  import opened CrossingRuns

  // ----- the statements -----

  /** In every run with these requests, every answer given was upstream's to a
      request with the same method, path and body hash. */
  ghost predicate NeverCrosses(cfg: Config, reqs: iset<Request>) {
    forall acts: seq<Action>, t: nat ::
      Runs(cfg, INIT, acts) && ArrivalsIn(acts, reqs) && t in After(cfg, INIT, acts).threads ==>
        var s := After(cfg, INIT, acts);
        s.threads[t].pc.Done? ==> OutcomeTraced(cfg, s.log, s.threads[t].req, s.threads[t].pc.outcome)
  }

  lemma DistinctTapesAndKeysNeverCross(cfg: Config, reqs: iset<Request>)
    requires Distinguishes(cfg, reqs)
    ensures NeverCrosses(cfg, reqs)
  {
    forall acts: seq<Action>, t: nat |
      Runs(cfg, INIT, acts) && ArrivalsIn(acts, reqs) && t in After(cfg, INIT, acts).threads && After(cfg, INIT, acts).threads[t].pc.Done?
      ensures var s := After(cfg, INIT, acts); OutcomeTraced(cfg, s.log, s.threads[t].req, s.threads[t].pc.outcome)
    {
      RunKeepsProvenance(cfg, reqs, INIT, acts);
      assert ThreadTraced(cfg, reqs, After(cfg, INIT, acts), t);
    }
  }

  lemma CrossingIsNotNever(cfg: Config, reqs: iset<Request>)
    requires Crosses(cfg, reqs)
    ensures !NeverCrosses(cfg, reqs)
  {
    hide Runs, After, OutcomeTraced, ArrivalsIn;
    var acts: seq<Action>, s: State, t: nat :| Reached(cfg, reqs, acts, s) && t in s.threads && s.threads[t].pc.Done? &&
      !OutcomeTraced(cfg, s.log, s.threads[t].req, s.threads[t].pc.outcome);
  }

  /** Answers are never crossed, in any interleaving and under any configuration and
      sanitizer, if and only if the single-flight key tells the requests apart, where
      there is single-flight, and the tape saved of one request matches no other
      request it could be served to. */
  lemma NeverCrossesIffDistinguishes(cfg: Config, reqs: iset<Request>)
    ensures NeverCrosses(cfg, reqs) <==> Distinguishes(cfg, reqs)
  {
    hide NeverCrosses, Crosses, KeyOf, Oversize, SameCacheKey, CanGet;
    if Distinguishes(cfg, reqs) {
      DistinctTapesAndKeysNeverCross(cfg, reqs);
    } else if cfg.singleFlight && !KeysDistinguish(cfg, reqs) {
      var a, b :| Cacheable(cfg, reqs, a) && Cacheable(cfg, reqs, b) && KeyOf(cfg, a) == KeyOf(cfg, b) && !SameCacheKey(cfg, a, b);
      ClashingKeysCross(cfg, reqs, a, b);
      CrossingIsNotNever(cfg, reqs);
    } else {
      var a, b, id, resp :| Cacheable(cfg, reqs, a) && Cacheable(cfg, reqs, b) && Recordable(cfg, resp) &&
        CanGet(cfg, reqs, b, cfg.sanitize(RawTape(cfg, id, a, resp))) && !SameCacheKey(cfg, a, b);
      ConfusedTapesCross(cfg, reqs, a, b, id, resp);
      CrossingIsNotNever(cfg, reqs);
    }
  }

  // ----- sanitizers that keep what the matcher compares -----

  ghost predicate KeepsCacheKey(cfg: Config) {
    forall t: Tape ::
      cfg.sanitize(t).verb == t.verb && cfg.sanitize(t).path == t.path && cfg.sanitize(t).bodyHash == t.bodyHash
  }

  lemma KeptKeysDistinguishTapes(cfg: Config, reqs: iset<Request>)
    requires KeepsCacheKey(cfg)
    ensures TapesDistinguish(cfg, reqs)
  {
    hide Served, Oversize;
  }

  /** With such a sanitizer the store is never to blame: answers are never crossed if
      and only if there is no single-flight or its key tells the requests apart. */
  lemma NeverCrossesIffKeysDistinguish(cfg: Config, reqs: iset<Request>)
    requires KeepsCacheKey(cfg)
    ensures NeverCrosses(cfg, reqs) <==> !cfg.singleFlight || KeysDistinguish(cfg, reqs)
  {
    hide NeverCrosses, KeysDistinguish, TapesDistinguish, KeepsCacheKey;
    KeptKeysDistinguishTapes(cfg, reqs);
    NeverCrossesIffDistinguishes(cfg, reqs);
  }

  // ----- sanitizers that redact request bodies -----

  /** A sanitizer that redacts or fakes request bodies: a body that changes takes its
      hash along. What it does to the response and the rest of the tape is open. */
  ghost predicate RedactsBodies(cfg: Config, redact: string -> string) {
    forall t: Tape :: var r := cfg.sanitize(t);
      r.verb == t.verb && r.path == t.path &&
      r.bodyHash == if redact(t.reqBody) != t.reqBody then cfg.hash(redact(t.reqBody)) else t.bodyHash
  }

  /** No request's body hashes like what redaction makes of another's, unless the two
      hash alike anyway. */
  ghost predicate RedactionsDistinguish(cfg: Config, redact: string -> string, reqs: iset<Request>) {
    forall a, b :: Cacheable(cfg, reqs, a) && Cacheable(cfg, reqs, b) && a.verb == b.verb && a.path == b.path &&
                   redact(a.body) != a.body && cfg.hash(redact(a.body)) == cfg.hash(b.body)
      ==> SameCacheKey(cfg, a, b)
  }

  /** With body redaction, lookups on arrival and a filter that lets something through,
      answers are never crossed if and only if keys and redactions tell requests apart. */
  lemma RedactionNeverCrossesIff(cfg: Config, redact: string -> string, reqs: iset<Request>, some: Response)
    requires RedactsBodies(cfg, redact) && !cfg.lookupDisabled && Recordable(cfg, some)
    ensures NeverCrosses(cfg, reqs) <==>
      (cfg.singleFlight ==> KeysDistinguish(cfg, reqs)) && RedactionsDistinguish(cfg, redact, reqs)
  {
    NeverCrossesIffDistinguishes(cfg, reqs);
    hide NeverCrosses, KeysDistinguish, Oversize;
    if TapesDistinguish(cfg, reqs) {
      forall a, b | Cacheable(cfg, reqs, a) && Cacheable(cfg, reqs, b) && a.verb == b.verb && a.path == b.path &&
        redact(a.body) != a.body && cfg.hash(redact(a.body)) == cfg.hash(b.body)
        ensures SameCacheKey(cfg, a, b)
      {
        assert CanGet(cfg, reqs, b, cfg.sanitize(RawTape(cfg, "", a, some)));
      }
    }
  }

  /** Two ordinary requests, one whose body is redacted and one whose body is what
      redaction makes of it: the second is answered with the first's response,
      although their keys differ. */
  lemma RedactedBodiesCross(cfg: Config, redact: string -> string, body: string, resp: Response)
    requires RedactsBodies(cfg, redact) && !cfg.lookupDisabled && Recordable(cfg, resp)
    requires cfg.hash(redact(body)) != cfg.hash(body) && HashIsPlain(cfg)
    requires cfg.maxBodySize > 0 ==> |body| <= cfg.maxBodySize && |redact(body)| <= cfg.maxBodySize
    ensures var a, b := Request("POST", "/login", body, ""), Request("POST", "/login", redact(body), "");
      KeysDistinguish(cfg, iset{a, b}) && !NeverCrosses(cfg, iset{a, b})
  {
    var a, b := Request("POST", "/login", body, ""), Request("POST", "/login", redact(body), "");
    var reqs := iset{a, b};
    RootedKeysDistinguish(cfg, reqs);
    assert Cacheable(cfg, reqs, a) && Cacheable(cfg, reqs, b) && !SameCacheKey(cfg, a, b);
    var tape := cfg.sanitize(RawTape(cfg, "", a, resp));
    assert Matches(cfg, b, tape);
    hide RawTape, Matches, KeysDistinguish, NeverCrosses, Crosses;
    assert CanGet(cfg, reqs, b, tape);
    ConfusedTapesCross(cfg, reqs, a, b, "", resp);
    CrossingIsNotNever(cfg, reqs);
  }

  // ----- bars in methods -----

  /** With a bar in a verb and an unrooted path two requests can share a key. */
  lemma BarsClash(cfg: Config, body: string)
    requires cfg.singleFlight && (cfg.maxBodySize > 0 ==> |body| <= cfg.maxBodySize)
    ensures var a, b := Request("PUT|x", "y", body, ""), Request("PUT", "x|y", body, "");
      KeyOf(cfg, a) == KeyOf(cfg, b) && !NeverCrosses(cfg, iset{a, b})
  {
    var a, b := Request("PUT|x", "y", body, ""), Request("PUT", "x|y", body, "");
    assert a.verb + "|" + a.path == b.verb + "|" + b.path;
    hide NeverCrosses, Crosses;
    ClashingKeysCross(cfg, iset{a, b}, a, b);
    CrossingIsNotNever(cfg, iset{a, b});
  }

  /** With the identity sanitizer a caller gets exactly a response of upstream's. */
  lemma AnswersAreUpstreams(cfg: Config, acts: seq<Action>, t: nat)
    requires (forall tape :: cfg.sanitize(tape) == tape) && HashIsPlain(cfg) && Runs(cfg, INIT, acts)
    requires forall i :: 0 <= i < |acts| && acts[i].Arrive? ==> BarFree(acts[i].req)
    requires t in After(cfg, INIT, acts).threads
    ensures var s := After(cfg, INIT, acts);
      s.threads[t].pc.Done? && s.threads[t].pc.outcome.Got? ==>
        exists e :: e in s.log && SameCacheKey(cfg, e.req, s.threads[t].req) && e.resp == s.threads[t].pc.outcome.resp
  {
    var reqs := iset r: Request | BarFree(r);
    BarFreeKeysDistinguish(cfg, reqs);
    KeptKeysDistinguishTapes(cfg, reqs);
    RunKeepsProvenance(cfg, reqs, INIT, acts);
    var s := After(cfg, INIT, acts);
    assert ThreadTraced(cfg, reqs, s, t);
    if s.threads[t].pc.Done? && s.threads[t].pc.outcome.Got? {
      var resp := s.threads[t].pc.outcome.resp;
      var i: nat :| i < |s.log| && SameCacheKey(cfg, s.log[i].req, s.threads[t].req) && Delivers(cfg, s.log[i], resp);
      assert s.log[i] in s.log && s.log[i].resp == resp;
    }
  }
}
