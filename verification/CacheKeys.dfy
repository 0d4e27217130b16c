/** Which requests the single-flight key tells apart. */
module CacheKeys {
  import opened Tapes
  import opened CachingTransport

  /** What the default matcher compares. */
  predicate SameCacheKey(cfg: Config, a: Request, b: Request) {
    a.verb == b.verb && a.path == b.path && cfg.hash(a.body) == cfg.hash(b.body)
  }

  /** One of the requests, with a body small enough to get past the size test. */
  predicate Cacheable(cfg: Config, reqs: iset<Request>, req: Request) { req in reqs && !Oversize(cfg, req) }

  /** The single-flight key tells requests of different method, path or body hash
      apart. */
  ghost predicate KeysDistinguish(cfg: Config, reqs: iset<Request>) {
    forall a, b :: Cacheable(cfg, reqs, a) && Cacheable(cfg, reqs, b) && KeyOf(cfg, a) == KeyOf(cfg, b) ==>
      SameCacheKey(cfg, a, b)
  }

  predicate BarFree(req: Request) { '|' !in req.verb }

  /** An ordinary request: an HTTP method token never has a slash, and the path of
      an absolute URL is empty or starts with one. Bars are allowed. */
  predicate Rooted(req: Request) { '/' !in req.verb && (req.path == "" || req.path[0] == '/') }

  ghost predicate HashIsPlain(cfg: Config) { forall b: string :: '|' !in cfg.hash(b) }

  lemma CutFirst(a: string, x: string, b: string, y: string)
    requires a + "|" + x == b + "|" + y && '|' !in a && '|' !in b
    ensures a == b && x == y
  {
    var s := a + "|" + x;
    assert s[|a|] == '|' && s[|b|] == '|';
    assert forall i :: 0 <= i < |a| ==> s[i] == a[i];
    assert forall i :: 0 <= i < |b| ==> s[i] == b[i];
    assert |a| == |b|;
    assert a == s[..|a|] && b == s[..|b|];
    assert x == s[|a| + 1..] && y == s[|b| + 1..];
  }

  lemma CutLast(x: string, a: string, y: string, b: string)
    requires x + "|" + a == y + "|" + b && '|' !in a && '|' !in b
    ensures a == b && x == y
  {
    var s := x + "|" + a;
    assert s[|x|] == '|' && s[|y|] == '|';
    assert forall i :: |x| < i < |s| ==> s[i] == a[i - |x| - 1];
    assert forall i :: |y| < i < |s| ==> s[i] == b[i - |y| - 1];
    assert |x| == |y|;
    assert x == s[..|x|] && y == s[..|y|];
    assert a == s[|x| + 1..] && b == s[|y| + 1..];
  }

  lemma KeyParts(cfg: Config, a: Request, b: Request)
    requires HashIsPlain(cfg) && KeyOf(cfg, a) == KeyOf(cfg, b)
    ensures cfg.hash(a.body) == cfg.hash(b.body) && a.verb + "|" + a.path == b.verb + "|" + b.path
  {
    CutLast(a.verb + "|" + a.path, cfg.hash(a.body), b.verb + "|" + b.path, cfg.hash(b.body));
  }

  lemma BarFreeKeysDistinguish(cfg: Config, reqs: iset<Request>)
    requires HashIsPlain(cfg) && forall r :: r in reqs ==> BarFree(r)
    ensures KeysDistinguish(cfg, reqs)
  {
    forall a, b | a in reqs && b in reqs && KeyOf(cfg, a) == KeyOf(cfg, b) ensures SameCacheKey(cfg, a, b) {
      KeyParts(cfg, a, b);
      CutFirst(a.verb, a.path, b.verb, b.path);
    }
  }

  /** The verb of a rooted request ends right before the bar that is last or has the
      first slash behind it. */
  lemma RootedVerb(a: Request, b: Request)
    requires Rooted(a) && Rooted(b) && a.verb + "|" + a.path == b.verb + "|" + b.path
    ensures |a.verb| >= |b.verb|
  {
    var s := a.verb + "|" + a.path;
    assert s[|b.verb|] == '|';
    assert forall i :: 0 <= i < |b.verb| ==> s[i] == b.verb[i];
    assert forall i :: 0 <= i < |s| - |a.verb| - 1 ==> s[|a.verb| + 1 + i] == a.path[i];
  }

  /** Ordinary requests with one key have one method, path and body hash. */
  lemma RootedKeyIsInjective(cfg: Config, a: Request, b: Request)
    requires HashIsPlain(cfg) && Rooted(a) && Rooted(b) && KeyOf(cfg, a) == KeyOf(cfg, b)
    ensures SameCacheKey(cfg, a, b)
  {
    KeyParts(cfg, a, b);
    RootedVerb(a, b);
    RootedVerb(b, a);
    var s := a.verb + "|" + a.path;
    assert a.verb == s[..|a.verb|] && b.verb == s[..|b.verb|];
    assert a.path == s[|a.verb| + 1..] && b.path == s[|b.verb| + 1..];
  }

  lemma RootedKeysDistinguish(cfg: Config, reqs: iset<Request>)
    requires HashIsPlain(cfg) && forall r :: r in reqs ==> Rooted(r)
    ensures KeysDistinguish(cfg, reqs)
  {
    forall a, b | a in reqs && b in reqs && KeyOf(cfg, a) == KeyOf(cfg, b) ensures SameCacheKey(cfg, a, b) {
      RootedKeyIsInjective(cfg, a, b);
    }
  }
}
