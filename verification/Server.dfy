/** The replay server's choice of a tape, in two phases (server.go). */
module Server {
  import opened Options
  import opened Tapes
  import opened Matcher

  type Params = map<string, string>

  /** Compiles an exemplar's URL pattern, None when it is malformed, to a test on request
      paths that yields the captured path parameters. */
  type PatternCompiler = string -> Option<string -> Option<Params>>

  /** What the exemplar's pattern captures from the request's path, if it matches. */
  function Captured(compile: PatternCompiler, req: Request, t: Tape): Option<Params> {
    match compile(t.urlPattern)
    case None => None
    case Some(capture) => capture(req.path)
  }

  function PatternScore(compile: PatternCompiler): (Request, Tape) -> int {
    (r: Request, t: Tape) => if Captured(compile, r, t).Some? then 3 else 0
  }

  function PatternCriterion(compile: PatternCompiler): Criterion { Criterion(true, PatternScore(compile)) }

  function OtherCriteria(criteria: seq<Criterion>): seq<Criterion> {
    if criteria == [] then []
    else (if criteria[0].pathLike then [] else [criteria[0]]) + OtherCriteria(criteria[1..])
  }

  /** The criteria an exemplar must meet: its own pattern in place of the path
      criteria, and the rest of the server's. */
  function ExemplarCriteria(criteria: seq<Criterion>, compile: PatternCompiler): seq<Criterion> {
    [PatternCriterion(compile)] + OtherCriteria(criteria)
  }

  /** The exemplar loop: unlike the composite matcher it starts without a best
      score, so its first survivor is taken whatever it totals. */
  function ExemplarScan(req: Request, ts: seq<Tape>, criteria: seq<Criterion>, i: nat, best: Option<(nat, int)>): Option<nat>
    requires i <= |ts|
    decreases |ts| - i
  {
    if i == |ts| then (match best case None => None case Some(b) => Some(b.0))
    else
      var total := Total(req, ts[i], criteria);
      if total.Some? && (best.None? || total.value > best.value.1) then
        ExemplarScan(req, ts, criteria, i + 1, Some((i, total.value)))
      else ExemplarScan(req, ts, criteria, i + 1, best)
  }

  function ExemplarMatch(req: Request, ts: seq<Tape>, criteria: seq<Criterion>, compile: PatternCompiler): Option<nat> {
    ExemplarScan(req, ts, ExemplarCriteria(criteria, compile), 0, None)
  }

  method ExtractOthers(criteria: seq<Criterion>) returns (others: seq<Criterion>)
    ensures others == OtherCriteria(criteria)
  {
    others := [];
    for i := 0 to |criteria|
      invariant others == OtherCriteria(criteria[..i])
    {
      OthersSnoc(criteria, i);
      if !criteria[i].pathLike { others := others + [criteria[i]]; }
    }
    assert criteria[..|criteria|] == criteria;
  }

  lemma {:induction false} OthersConcat(a: seq<Criterion>, b: seq<Criterion>)
    ensures OtherCriteria(a + b) == OtherCriteria(a) + OtherCriteria(b)
  {
    if a == [] {
      assert a + b == b;
    } else {
      assert (a + b)[1..] == a[1..] + b;
      OthersConcat(a[1..], b);
    }
  }

  lemma OthersSnoc(criteria: seq<Criterion>, i: nat)
    requires i < |criteria|
    ensures OtherCriteria(criteria[..i + 1]) ==
      OtherCriteria(criteria[..i]) + if criteria[i].pathLike then [] else [criteria[i]]
  {
    assert criteria[..i + 1] == criteria[..i] + [criteria[i]];
    OthersConcat(criteria[..i], [criteria[i]]);
    assert [criteria[i]][1..] == [];
  }

  /** The picked exemplar, with the parameters its own pattern captures. */
  method MatchExemplar(req: Request, exemplars: seq<Tape>, criteria: seq<Criterion>, compile: PatternCompiler)
    returns (r: Option<nat>, params: Option<Params>)
    ensures r == ExemplarMatch(req, exemplars, criteria, compile)
    ensures r.Some? ==> r.value < |exemplars| && params.Some? && params == Captured(compile, req, exemplars[r.value])
    ensures r.None? ==> params == None
  {
    var otherCriteria := ExtractOthers(criteria);
    ghost var cs := ExemplarCriteria(criteria, compile);
    assert cs[1..] == otherCriteria;
    var best: Option<(nat, int)> := None;
    params := None;
    for i := 0 to |exemplars|
      invariant best.Some? ==> best.value.0 < i && params.Some? && params == Captured(compile, req, exemplars[best.value.0])
      invariant best.None? ==> params == None
      invariant ExemplarMatch(req, exemplars, criteria, compile) == ExemplarScan(req, exemplars, cs, i, best)
    {
      var pattern := compile(exemplars[i].urlPattern);
      var captured := match pattern case None => None case Some(capture) => capture(req.path);
      if captured.Some? {
        var rest := ScoreAll(req, exemplars[i], otherCriteria);
        if rest.Some? {
          var totalScore := 3 + rest.value;
          if best.None? || totalScore > best.value.1 || (totalScore == best.value.1 && i < best.value.0) {
            best, params := Some((i, totalScore)), captured;
          }
        }
      }
    }
    r := match best case None => None case Some(b) => Some(b.0);
  }

  ghost predicate ExemplarSoFar(req: Request, ts: seq<Tape>, criteria: seq<Criterion>, i: nat, best: Option<(nat, int)>)
    requires i <= |ts|
  {
    match best
    case None => forall j :: 0 <= j < i ==> !Survives(req, ts[j], criteria)
    case Some(b) => b.0 < i && FirstBest(req, ts[..i], criteria, b.0) && Total(req, ts[b.0], criteria) == Some(b.1)
  }

  lemma {:induction false} ExemplarScanFindsBest(req: Request, ts: seq<Tape>, criteria: seq<Criterion>, i: nat, best: Option<(nat, int)>)
    requires i <= |ts| && ExemplarSoFar(req, ts, criteria, i, best)
    ensures match ExemplarScan(req, ts, criteria, i, best)
      case None => forall j :: 0 <= j < |ts| ==> !Survives(req, ts[j], criteria)
      case Some(b) => FirstBest(req, ts, criteria, b)
    decreases |ts| - i
  {
    if i == |ts| {
      assert ts[..|ts|] == ts;
    } else {
      var total := Total(req, ts[i], criteria);
      assert ts[..i + 1] == ts[..i] + [ts[i]];
      if total.Some? && (best.None? || total.value > best.value.1) {
        assert FirstBest(req, ts[..i + 1], criteria, i);
        ExemplarScanFindsBest(req, ts, criteria, i + 1, Some((i, total.value)));
      } else {
        if best.Some? { assert FirstBest(req, ts[..i + 1], criteria, best.value.0); }
        ExemplarScanFindsBest(req, ts, criteria, i + 1, best);
      }
    }
  }

  lemma FirstBestIsUnique(req: Request, ts: seq<Tape>, criteria: seq<Criterion>, a: nat, b: nat)
    requires FirstBest(req, ts, criteria, a) && FirstBest(req, ts, criteria, b)
    ensures a == b
  {
  }

  /** The exemplar phase picks what the composite matcher would with the exemplar's
      pattern in place of the path criteria, exactly when some survivor totals
      above zero or none survives. */
  lemma ExemplarMatchIsCompositeMatch(req: Request, ts: seq<Tape>, criteria: seq<Criterion>, compile: PatternCompiler)
    ensures var cs := ExemplarCriteria(criteria, compile);
      ExemplarMatch(req, ts, criteria, compile) == Match(req, ts, cs) <==>
        ((forall j :: 0 <= j < |ts| ==> !Survives(req, ts[j], cs)) ||
         exists j :: 0 <= j < |ts| && Survives(req, ts[j], cs) && Total(req, ts[j], cs).value > 0)
  {
    var cs := ExemplarCriteria(criteria, compile);
    ExemplarScanFindsBest(req, ts, cs, 0, None);
    MatchIsFirstBest(req, ts, cs);
    var e, m := ExemplarMatch(req, ts, criteria, compile), Match(req, ts, cs);
    if e.Some? && m.Some? { FirstBestIsUnique(req, ts, cs, e.value, m.value); }
  }

  lemma {:induction false} OthersAreMembers(criteria: seq<Criterion>)
    ensures forall c :: c in OtherCriteria(criteria) <==> c in criteria && !c.pathLike
  {
    if criteria != [] { OthersAreMembers(criteria[1..]); }
  }

  /** With criteria that never score below 0 the two always agree. */
  lemma NonNegativeExemplarMatch(req: Request, ts: seq<Tape>, criteria: seq<Criterion>, compile: PatternCompiler)
    requires NonNegative(criteria)
    ensures ExemplarMatch(req, ts, criteria, compile) == Match(req, ts, ExemplarCriteria(criteria, compile))
  {
    var cs := ExemplarCriteria(criteria, compile);
    OthersAreMembers(criteria);
    assert NonNegative(cs) by {
      forall c, r, t | c in cs ensures c.score(r, t) >= 0 {
        assert c == PatternCriterion(compile) || c in OtherCriteria(criteria);
      }
    }
    ExemplarMatchIsCompositeMatch(req, ts, criteria, compile);
    if j :| 0 <= j < |ts| && Survives(req, ts[j], cs) {
      TotalIsPositive(req, ts[j], cs);
    }
  }

  /** A criterion that is never met with approval: one exemplar whose pattern accepts
      the request is picked by the exemplar phase, and by the composite matcher not. */
  lemma DisapprovedExemplar(req: Request, t: Tape) returns (criteria: seq<Criterion>, compile: PatternCompiler)
    ensures ExemplarMatch(req, [t], criteria, compile) == Some(0)
    ensures Match(req, [t], ExemplarCriteria(criteria, compile)) == None
  {
    var never := Criterion(false, (r: Request, u: Tape) => -4);
    criteria := [never];
    compile := (pattern: string) => Some((path: string) => Some(map[]));
    var cs := ExemplarCriteria(criteria, compile);
    assert OtherCriteria([never]) == [never] by { assert [never][1..] == []; }
    assert cs[1..] == [never];
    assert Total(req, t, [never]) == Some(-4) by { assert [never][1..] == []; }
    assert Total(req, t, cs) == Some(-1);
    assert Survives(req, [t][0], cs);
    ExemplarScanFindsBest(req, [t], cs, 0, None);
    MatchIsFirstBest(req, [t], cs);
  }

  // ----- the two phases -----

  function Partition(ts: seq<Tape>, exemplar: bool): seq<Tape> {
    if ts == [] then []
    else (if ts[0].exemplar == exemplar then [ts[0]] else []) + Partition(ts[1..], exemplar)
  }

  function Pick(ts: seq<Tape>, i: Option<nat>): Option<Tape> {
    if i.Some? && i.value < |ts| then Some(ts[i.value]) else None
  }

  /** The server's matcher: a composite one, or any other, which lends the exemplar
      phase no criteria. */
  datatype Selector = Composite(criteria: seq<Criterion>) | Other(pick: (Request, seq<Tape>) -> Option<nat>)

  function CriteriaOf(m: Selector): seq<Criterion> {
    match m
    case Composite(criteria) => criteria
    case Other(_) => []
  }

  function ExactMatch(req: Request, ts: seq<Tape>, m: Selector): Option<nat> {
    match m
    case Composite(criteria) => Match(req, ts, criteria)
    case Other(pick) => pick(req, ts)
  }

  function Select(req: Request, tapes: seq<Tape>, m: Selector, synthesis: bool, compile: PatternCompiler): Option<Tape> {
    var exact := Pick(Partition(tapes, false), ExactMatch(req, Partition(tapes, false), m));
    if exact.Some? || !synthesis then exact
    else Pick(Partition(tapes, true), ExemplarMatch(req, Partition(tapes, true), CriteriaOf(m), compile))
  }

  lemma {:induction false} PartitionConcat(a: seq<Tape>, b: seq<Tape>, exemplar: bool)
    ensures Partition(a + b, exemplar) == Partition(a, exemplar) + Partition(b, exemplar)
  {
    if a == [] {
      assert a + b == b;
    } else {
      assert (a + b)[1..] == a[1..] + b;
      PartitionConcat(a[1..], b, exemplar);
    }
  }

  lemma PartitionSnoc(ts: seq<Tape>, i: nat, exemplar: bool)
    requires i < |ts|
    ensures Partition(ts[..i + 1], exemplar) ==
      Partition(ts[..i], exemplar) + if ts[i].exemplar == exemplar then [ts[i]] else []
  {
    assert ts[..i + 1] == ts[..i] + [ts[i]];
    PartitionConcat(ts[..i], [ts[i]], exemplar);
    assert [ts[i]][1..] == [];
  }

  lemma {:induction false} PartitionMembers(ts: seq<Tape>, exemplar: bool)
    ensures forall t :: t in Partition(ts, exemplar) <==> t in ts && t.exemplar == exemplar
  {
    if ts != [] { PartitionMembers(ts[1..], exemplar); }
  }

  /** The served tape, with the path parameters when it is an exemplar. */
  method ServeSelect(req: Request, tapes: seq<Tape>, matcher: Selector, synthesis: bool, compile: PatternCompiler)
    returns (tape: Option<Tape>, pathParams: Option<Params>)
    ensures tape == Select(req, tapes, matcher, synthesis, compile)
    ensures pathParams == if tape.Some? && tape.value.exemplar then Captured(compile, req, tape.value) else None
    ensures tape.Some? && tape.value.exemplar ==> pathParams.Some?
  {
    var exactTapes, exemplarTapes: seq<Tape> := [], [];
    for i := 0 to |tapes|
      invariant exactTapes == Partition(tapes[..i], false)
      invariant exemplarTapes == Partition(tapes[..i], true)
    {
      PartitionSnoc(tapes, i, false);
      PartitionSnoc(tapes, i, true);
      if tapes[i].exemplar {
        exemplarTapes := exemplarTapes + [tapes[i]];
      } else {
        exactTapes := exactTapes + [tapes[i]];
      }
    }
    assert tapes[..|tapes|] == tapes;
    PartitionMembers(tapes, false);
    PartitionMembers(tapes, true);
    var m: Option<nat>;
    match matcher {
      case Composite(criteria) => m := CompositeMatch(req, exactTapes, criteria);
      case Other(pick) => m := pick(req, exactTapes);
    }
    if m.Some? && m.value < |exactTapes| {
      return Some(exactTapes[m.value]), None;
    }
    if synthesis && |exemplarTapes| > 0 {
      var e, params := MatchExemplar(req, exemplarTapes, CriteriaOf(matcher), compile);
      if e.Some? {
        return Some(exemplarTapes[e.value]), params;
      }
    }
    return None, None;
  }

  lemma {:induction false} PartitionTwice(ts: seq<Tape>)
    ensures Partition(Partition(ts, false), false) == Partition(ts, false)
    ensures Partition(Partition(ts, false), true) == []
  {
    if ts != [] {
      PartitionTwice(ts[1..]);
      if !ts[0].exemplar {
        assert Partition(ts, false)[1..] == Partition(ts[1..], false);
      } else {
        assert Partition(ts, false) == Partition(ts[1..], false);
      }
    }
  }

  /** An exemplar is served only with synthesis on and only when no exact tape
      matches; whatever is served comes from the store. */
  lemma ExemplarsNeverOverride(req: Request, tapes: seq<Tape>, m: Selector, synthesis: bool, compile: PatternCompiler)
    ensures var r := Select(req, tapes, m, synthesis, compile);
      r.Some? ==>
        r.value in tapes &&
        (r.value.exemplar ==> synthesis && Pick(Partition(tapes, false), ExactMatch(req, Partition(tapes, false), m)) == None)
  {
    PartitionMembers(tapes, false);
    PartitionMembers(tapes, true);
  }

  /** With synthesis off exemplars might as well not be there. */
  lemma ExemplarsAreInert(req: Request, tapes: seq<Tape>, m: Selector, compile: PatternCompiler)
    ensures Select(req, tapes, m, false, compile) == Select(req, Partition(tapes, false), m, false, compile)
  {
    PartitionTwice(tapes);
  }
}
