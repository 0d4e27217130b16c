/** Scoring and selection of tapes (matcher.go). */
module Matcher {
  import opened Options
  import opened Tapes

  /** One matching dimension; `pathLike` marks the path criteria the exemplar
      phase replaces by the exemplar's own pattern. */
  datatype Criterion = Criterion(pathLike: bool, score: (Request, Tape) -> int)

  const METHOD := Criterion(false, (r: Request, t: Tape) => if r.verb == t.verb then 1 else 0)
  const PATH := Criterion(true, (r: Request, t: Tape) => if r.path == t.path then 2 else 0)

  function BodyHashCriterion(hash: string -> string): Criterion {
    Criterion(false, (r: Request, t: Tape) => if hash(r.body) == t.bodyHash then 8 else 0)
  }

  /** The sum of the scores, or None when some criterion scores 0. */
  function Total(req: Request, t: Tape, criteria: seq<Criterion>): Option<int> {
    if criteria == [] then Some(0)
    else if criteria[0].score(req, t) == 0 then None
    else
      match Total(req, t, criteria[1..])
      case None => None
      case Some(n) => Some(criteria[0].score(req, t) + n)
  }

  method ScoreAll(req: Request, t: Tape, criteria: seq<Criterion>) returns (r: Option<int>)
    ensures r == Total(req, t, criteria)
  {
    var total, eliminated := 0, false;
    assert criteria[0..] == criteria;
    for i := 0 to |criteria|
      invariant Total(req, t, criteria) ==
        match Total(req, t, criteria[i..]) case None => None case Some(n) => Some(total + n)
    {
      assert criteria[i..][1..] == criteria[i + 1..];
      var score := criteria[i].score(req, t);
      if score == 0 {
        return None;
      }
      total := total + score;
    }
    return Some(total);
  }

  /** The scan over the candidates from `i` on, with the best one so far. */
  function Scan(req: Request, ts: seq<Tape>, criteria: seq<Criterion>, i: nat, bestScore: int, best: Option<nat>): Option<nat>
    requires i <= |ts|
    decreases |ts| - i
  {
    if i == |ts| then best
    else
      var total := Total(req, ts[i], criteria);
      if total.Some? && total.value > bestScore then Scan(req, ts, criteria, i + 1, total.value, Some(i))
      else Scan(req, ts, criteria, i + 1, bestScore, best)
  }

  /** Index of the candidate the composite matcher picks. */
  function Match(req: Request, ts: seq<Tape>, criteria: seq<Criterion>): Option<nat> {
    Scan(req, ts, criteria, 0, 0, None)
  }

  method CompositeMatch(req: Request, candidates: seq<Tape>, criteria: seq<Criterion>) returns (r: Option<nat>)
    ensures r == Match(req, candidates, criteria)
  {
    var bestScore, bestIdx: Option<nat> := 0, None;
    for i := 0 to |candidates|
      invariant Match(req, candidates, criteria) == Scan(req, candidates, criteria, i, bestScore, bestIdx)
    {
      var total := ScoreAll(req, candidates[i], criteria);
      if total.Some? && total.value > bestScore {
        bestScore, bestIdx := total.value, Some(i);
      }
    }
    return bestIdx;
  }

  // ----- what is selected -----

  predicate Survives(req: Request, t: Tape, criteria: seq<Criterion>) {
    Total(req, t, criteria).Some?
  }

  /** A candidate is eliminated exactly when some criterion scores it 0. */
  lemma {:induction false} SurvivesIffNoZero(req: Request, t: Tape, criteria: seq<Criterion>)
    ensures Survives(req, t, criteria) <==> forall c :: c in criteria ==> c.score(req, t) != 0
  {
    if criteria != [] {
      assert criteria[0] in criteria;
      SurvivesIffNoZero(req, t, criteria[1..]);
      assert forall c :: c in criteria <==> c == criteria[0] || c in criteria[1..];
    }
  }

  /** `i` is the first candidate with the greatest total among the survivors. */
  ghost predicate FirstBest(req: Request, ts: seq<Tape>, criteria: seq<Criterion>, i: nat) {
    i < |ts| && Survives(req, ts[i], criteria) &&
    var n := Total(req, ts[i], criteria).value;
    forall j :: 0 <= j < |ts| && Survives(req, ts[j], criteria) ==>
      var m := Total(req, ts[j], criteria).value;
      m <= n && (j < i ==> m < n)
  }

  ghost predicate BestSoFar(req: Request, ts: seq<Tape>, criteria: seq<Criterion>, i: nat, bestScore: int, best: Option<nat>)
    requires i <= |ts|
  {
    match best
    case None => bestScore == 0 &&
      forall j :: 0 <= j < i && Survives(req, ts[j], criteria) ==> Total(req, ts[j], criteria).value <= 0
    case Some(b) =>
      bestScore > 0 && b < i && FirstBest(req, ts[..i], criteria, b) && Total(req, ts[b], criteria) == Some(bestScore)
  }

  lemma {:induction false} ScanFindsBest(req: Request, ts: seq<Tape>, criteria: seq<Criterion>, i: nat, bestScore: int, best: Option<nat>) returns (n: int)
    requires i <= |ts| && BestSoFar(req, ts, criteria, i, bestScore, best)
    ensures BestSoFar(req, ts, criteria, |ts|, n, Scan(req, ts, criteria, i, bestScore, best))
    decreases |ts| - i
  {
    if i == |ts| {
      n := bestScore;
    } else {
      var total := Total(req, ts[i], criteria);
      assert ts[..i + 1] == ts[..i] + [ts[i]];
      if total.Some? && total.value > bestScore {
        assert FirstBest(req, ts[..i + 1], criteria, i);
        n := ScanFindsBest(req, ts, criteria, i + 1, total.value, Some(i));
      } else {
        if best.Some? {
          assert FirstBest(req, ts[..i + 1], criteria, best.value);
        }
        n := ScanFindsBest(req, ts, criteria, i + 1, bestScore, best);
      }
    }
  }

  /** The composite matcher returns the first survivor of greatest total, provided
      that total is positive, and nothing otherwise. */
  lemma MatchIsFirstBest(req: Request, ts: seq<Tape>, criteria: seq<Criterion>)
    ensures match Match(req, ts, criteria)
      case None => forall j :: 0 <= j < |ts| && Survives(req, ts[j], criteria) ==> Total(req, ts[j], criteria).value <= 0
      case Some(i) => FirstBest(req, ts, criteria, i) && Total(req, ts[i], criteria).value > 0
  {
    var n := ScanFindsBest(req, ts, criteria, 0, 0, None);
    assert ts[..|ts|] == ts;
  }

  ghost predicate NonNegative(criteria: seq<Criterion>) {
    forall c, r, t :: c in criteria ==> c.score(r, t) >= 0
  }

  lemma {:induction false} TotalIsPositive(req: Request, t: Tape, criteria: seq<Criterion>)
    requires NonNegative(criteria) && Survives(req, t, criteria)
    ensures Total(req, t, criteria).value >= |criteria|
  {
    if criteria != [] {
      assert criteria[0] in criteria;
      assert NonNegative(criteria[1..]);
      TotalIsPositive(req, t, criteria[1..]);
    }
  }

  /** With criteria that never score below 0, and at least one of them, the matcher
      answers exactly when some candidate survives, with the first best survivor. */
  lemma MatchAmongNonNegative(req: Request, ts: seq<Tape>, criteria: seq<Criterion>)
    requires criteria != [] && NonNegative(criteria)
    ensures match Match(req, ts, criteria)
      case None => forall j :: 0 <= j < |ts| ==> !Survives(req, ts[j], criteria)
      case Some(i) => FirstBest(req, ts, criteria, i)
  {
    MatchIsFirstBest(req, ts, criteria);
    forall j | 0 <= j < |ts| && Survives(req, ts[j], criteria)
      ensures Total(req, ts[j], criteria).value > 0
    {
      TotalIsPositive(req, ts[j], criteria);
    }
  }

  /** A matcher without criteria matches nothing. */
  lemma NoCriteriaNoMatch(req: Request, ts: seq<Tape>)
    ensures Match(req, ts, []) == None
  {
    MatchIsFirstBest(req, ts, []);
  }

  /** What the default caching matcher's answer has in common with the request. */
  lemma DefaultMatchAgrees(req: Request, ts: seq<Tape>, hash: string -> string)
    ensures var m := Match(req, ts, [METHOD, PATH, BodyHashCriterion(hash)]);
      if m.Some? then
        m.value < |ts| && ts[m.value].verb == req.verb && ts[m.value].path == req.path && ts[m.value].bodyHash == hash(req.body)
      else forall t :: t in ts ==> !(t.verb == req.verb && t.path == req.path && t.bodyHash == hash(req.body))
  {
    var cs := [METHOD, PATH, BodyHashCriterion(hash)];
    assert forall c :: c in cs <==> c == METHOD || c == PATH || c == BodyHashCriterion(hash);
    MatchAmongNonNegative(req, ts, cs);
    forall t ensures Survives(req, t, cs) <==> t.verb == req.verb && t.path == req.path && t.bodyHash == hash(req.body) {
      SurvivesIffNoZero(req, t, cs);
      assert METHOD in cs && PATH in cs && BodyHashCriterion(hash) in cs;
    }
  }

  /** The same for the proxy's default matcher: method and path. */
  lemma ProxyMatchAgrees(req: Request, ts: seq<Tape>)
    ensures var m := Match(req, ts, [METHOD, PATH]);
      if m.Some? then m.value < |ts| && ts[m.value].verb == req.verb && ts[m.value].path == req.path
      else forall t :: t in ts ==> !(t.verb == req.verb && t.path == req.path)
  {
    var cs := [METHOD, PATH];
    assert forall c :: c in cs <==> c == METHOD || c == PATH;
    MatchAmongNonNegative(req, ts, cs);
    forall t ensures Survives(req, t, cs) <==> t.verb == req.verb && t.path == req.path {
      SurvivesIffNoZero(req, t, cs);
      assert METHOD in cs && PATH in cs;
    }
  }
}
