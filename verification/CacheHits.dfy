/** The cache caches: which later requests a saved tape answers, exactly. */
module CacheHits {
  import opened Options
  import opened Tapes
  import opened CachingTransport
  import opened CacheKeys
  import opened Provenance
  import opened CrossingRuns
  import opened NoCrossedAnswers

  /** Once the tape of this exchange has been saved, in whatever run, every lookup a
      request `b` makes on arrival is a hit, as long as the listing works. */
  ghost predicate AlwaysHits(cfg: Config, a: Request, id: string, resp: Response, b: Request) {
    forall acts: seq<Action>, save: Action, more: seq<Action>, t: nat, pick: Option<nat> ::
      Runs(cfg, INIT, acts) && Saves(cfg, After(cfg, INIT, acts), save, a, id, resp) &&
      Runs(cfg, Step(cfg, After(cfg, INIT, acts), save), more) ==>
        HitsAt(cfg, After(cfg, Step(cfg, After(cfg, INIT, acts), save), more), t, b, pick)
  }

  predicate HitsAt(cfg: Config, s: State, t: nat, b: Request, pick: Option<nat>) {
    t in s.threads && s.threads[t].req == b && Enabled(cfg, s, Lookup(t, Picked(pick))) ==>
      var pc := Step(cfg, s, Lookup(t, Picked(pick))).threads[t].pc; pc.Done? && pc.how.Hit?
  }

  lemma StoreGrows(cfg: Config, s: State, a: Action)
    requires Enabled(cfg, s, a)
    ensures s.store <= Step(cfg, s, a).store
  {
    hide KeyOf, QueryOk, NextPc, RawTape;
  }

  lemma {:induction false} TapeStays(cfg: Config, s: State, acts: seq<Action>, tape: Tape)
    requires Runs(cfg, s, acts) && tape in s.store
    ensures tape in After(cfg, s, acts).store
    decreases |acts|
  {
    if acts != [] {
      hide Enabled, Step;
      StoreGrows(cfg, s, acts[0]);
      TapeStays(cfg, Step(cfg, s, acts[0]), acts[1..], tape);
    }
  }

  lemma SaveStores(cfg: Config, s: State, save: Action, a: Request, id: string, resp: Response)
    requires Saves(cfg, s, save, a, id, resp)
    ensures cfg.sanitize(RawTape(cfg, id, a, resp)) in Step(cfg, s, save).store
  {
    var tape, store := cfg.sanitize(RawTape(cfg, id, a, resp)), Step(cfg, s, save).store;
    assert store[|store| - 1] == tape;
  }

  lemma MatchingTapeHits(cfg: Config, s: State, t: nat, b: Request, pick: Option<nat>, tape: Tape)
    requires tape in s.store && Matches(cfg, b, tape) && !cfg.lookupDisabled
    ensures HitsAt(cfg, s, t, b, pick)
  {
    hide Matches;
  }

  lemma LoneTapeMisses(cfg: Config, s: State, b: Request)
    requires |s.store| == 1 && !Matches(cfg, b, s.store[0]) && !Oversize(cfg, b) && 1 !in s.threads
    ensures Runs(cfg, s, [Arrive(1, b)]) && !HitsAt(cfg, After(cfg, s, [Arrive(1, b)]), 1, b, None)
  {
    hide Matches, Oversize;
    var arrive := Arrive(1, b);
    assert [arrive][1..] == [];
    var s1 := Step(cfg, s, arrive);
    assert After(cfg, s, [arrive]) == s1;
    assert forall x :: x in s1.store ==> x == s.store[0];
    assert Enabled(cfg, s1, Lookup(1, Picked(None)));
  }

  /** A saved tape answers all later requests `b`, in every run, if and only if what
      the sanitizer made of it matches `b`. */
  lemma AlwaysHitsIffMatches(cfg: Config, a: Request, id: string, resp: Response, b: Request)
    requires !cfg.lookupDisabled && !Oversize(cfg, a) && !Oversize(cfg, b) && Recordable(cfg, resp)
    ensures AlwaysHits(cfg, a, id, resp, b) <==> Matches(cfg, b, cfg.sanitize(RawTape(cfg, id, a, resp)))
  {
    hide Runs, After, HitsAt, Matches, RawTape, Oversize, Step, Enabled, KeyOf;
    var tape := cfg.sanitize(RawTape(cfg, id, a, resp));
    if Matches(cfg, b, tape) {
      forall acts: seq<Action>, save: Action, more: seq<Action>, t: nat, pick: Option<nat> |
        Runs(cfg, INIT, acts) && Saves(cfg, After(cfg, INIT, acts), save, a, id, resp) &&
        Runs(cfg, Step(cfg, After(cfg, INIT, acts), save), more)
        ensures HitsAt(cfg, After(cfg, Step(cfg, After(cfg, INIT, acts), save), more), t, b, pick)
      {
        var s := After(cfg, INIT, acts);
        SaveStores(cfg, s, save, a, id, resp);
        TapeStays(cfg, Step(cfg, s, save), more, tape);
        MatchingTapeHits(cfg, After(cfg, Step(cfg, s, save), more), t, b, pick, tape);
      }
    } else {
      var acts, s, save := AboutToSave(cfg, iset{a}, a, id, resp);
      LoneTapeMisses(cfg, Step(cfg, s, save), b);
    }
  }

  /** A sanitizer that keeps method, path and body hash keeps the promise of a cache:
      once an exchange is saved, every later request with its method, path and body
      hash is a hit. */
  lemma KeptKeysAlwaysHit(cfg: Config, a: Request, id: string, resp: Response, b: Request)
    requires KeepsCacheKey(cfg) && !cfg.lookupDisabled && Recordable(cfg, resp)
    requires !Oversize(cfg, a) && !Oversize(cfg, b) && SameCacheKey(cfg, a, b)
    ensures AlwaysHits(cfg, a, id, resp, b)
  {
    hide AlwaysHits;
    AlwaysHitsIffMatches(cfg, a, id, resp, b);
  }

  /** With body redaction a request is answered from its own tape if and only if
      redaction leaves the hash of its body alone. */
  lemma RedactedRequestHitsIff(cfg: Config, redact: string -> string, a: Request, id: string, resp: Response)
    requires RedactsBodies(cfg, redact) && !cfg.lookupDisabled && Recordable(cfg, resp) && !Oversize(cfg, a)
    ensures AlwaysHits(cfg, a, id, resp, a) <==> cfg.hash(redact(a.body)) == cfg.hash(a.body)
  {
    hide AlwaysHits;
    AlwaysHitsIffMatches(cfg, a, id, resp, a);
  }
}
