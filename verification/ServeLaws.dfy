/** What is matched and what is served, in terms of the criteria's scores
    (matcher.go:722-774, server.go:423-443, 592-670). */
module ServeLaws {
  import opened Options
  import opened Tapes
  import opened Matcher
  import opened Server

  // ----- totals -----

  lemma {:induction false} TotalConcat(req: Request, t: Tape, a: seq<Criterion>, b: seq<Criterion>)
    ensures Total(req, t, a + b) ==
      match Total(req, t, a)
      case None => None
      case Some(x) => match Total(req, t, b) case None => None case Some(y) => Some(x + y)
    decreases |a|
  {
    if a == [] {
      assert a + b == b;
    } else {
      assert (a + b)[1..] == a[1..] + b;
      TotalConcat(req, t, a[1..], b);
    }
  }

  lemma TotalOfOne(req: Request, t: Tape, c: Criterion)
    ensures Total(req, t, [c]) == if c.score(req, t) == 0 then None else Some(c.score(req, t))
  {
    assert [c][1..] == [];
  }

  /** A total is the sum of all scores, none of them 0: of one criterion its score, and of
      two lists together the two sums. */
  lemma TotalIsSum(req: Request, t: Tape, a: seq<Criterion>, c: Criterion, b: seq<Criterion>)
    requires Survives(req, t, a + [c] + b)
    ensures c.score(req, t) != 0 && Survives(req, t, a) && Survives(req, t, b)
    ensures Total(req, t, a + [c] + b).value == Total(req, t, a).value + c.score(req, t) + Total(req, t, b).value
    ensures Total(req, t, []) == Some(0)
  {
    TotalConcat(req, t, a + [c], b);
    TotalConcat(req, t, a, [c]);
    TotalOfOne(req, t, c);
  }

  /** The default criteria: a tape with the request's method, path and body hash totals 11,
      any other is eliminated. */
  lemma DefaultTotal(req: Request, t: Tape, hash: string -> string)
    ensures Total(req, t, [METHOD, PATH, BodyHashCriterion(hash)]) ==
      if t.verb == req.verb && t.path == req.path && t.bodyHash == hash(req.body) then Some(11) else None
    ensures Total(req, t, [METHOD, PATH]) == if t.verb == req.verb && t.path == req.path then Some(3) else None
  {
    var h := BodyHashCriterion(hash);
    TotalConcat(req, t, [METHOD, PATH], [h]);
    TotalConcat(req, t, [METHOD], [PATH]);
    TotalOfOne(req, t, METHOD);
    TotalOfOne(req, t, PATH);
    TotalOfOne(req, t, h);
    assert [METHOD] + [PATH] == [METHOD, PATH] && [METHOD, PATH] + [h] == [METHOD, PATH, h];
  }

  /** Of the default criteria only the path's gives way to an exemplar's pattern. */
  lemma DefaultOtherCriteria(hash: string -> string)
    ensures OtherCriteria([METHOD, PATH, BodyHashCriterion(hash)]) == [METHOD, BodyHashCriterion(hash)]
  {
    var h := BodyHashCriterion(hash);
    assert [METHOD, PATH, h] == [METHOD] + [PATH] + [h];
    OthersConcat([METHOD] + [PATH], [h]);
    OthersConcat([METHOD], [PATH]);
    assert forall c: Criterion :: OtherCriteria([c]) == if c.pathLike then [] else [c] by {
      forall c: Criterion ensures OtherCriteria([c]) == if c.pathLike then [] else [c] { assert [c][1..] == []; }
    }
  }

  // ----- what is served -----

  /** A recorded tape the server's criteria let through with a positive total. */
  predicate Fits(req: Request, t: Tape, criteria: seq<Criterion>) {
    !t.exemplar && Survives(req, t, criteria) && Total(req, t, criteria).value > 0
  }

  /** An exemplar whose pattern accepts the path and that no other criterion rejects. */
  ghost predicate FitsAsExemplar(req: Request, t: Tape, criteria: seq<Criterion>, compile: PatternCompiler) {
    t.exemplar && Captured(compile, req, t).Some? && forall c :: c in criteria && !c.pathLike ==> c.score(req, t) != 0
  }

  lemma ExemplarSurvivesIff(req: Request, t: Tape, criteria: seq<Criterion>, compile: PatternCompiler)
    requires t.exemplar
    ensures Survives(req, t, ExemplarCriteria(criteria, compile)) <==> FitsAsExemplar(req, t, criteria, compile)
    ensures FitsAsExemplar(req, t, criteria, compile) ==>
      Survives(req, t, OtherCriteria(criteria)) &&
      Total(req, t, ExemplarCriteria(criteria, compile)).value == 3 + Total(req, t, OtherCriteria(criteria)).value
  {
    var first, others := PatternCriterion(compile), OtherCriteria(criteria);
    TotalConcat(req, t, [first], others);
    TotalOfOne(req, t, first);
    SurvivesIffNoZero(req, t, others);
    OthersAreMembers(criteria);
  }

  /** The better of two candidates: a greater total. */
  predicate AtLeast(req: Request, t: Tape, u: Tape, criteria: seq<Criterion>) {
    Survives(req, t, criteria) && Survives(req, u, criteria) && Total(req, t, criteria).value >= Total(req, u, criteria).value
  }

  lemma ExactIsServed(req: Request, tapes: seq<Tape>, criteria: seq<Criterion>)
    ensures var ts := Partition(tapes, false);
      match Pick(ts, Match(req, ts, criteria))
      case None => forall u :: u in tapes ==> !Fits(req, u, criteria)
      case Some(t) => t in tapes && Fits(req, t, criteria) && forall u :: u in tapes && Fits(req, u, criteria) ==> AtLeast(req, t, u, criteria)
  {
    var ts := Partition(tapes, false);
    PartitionMembers(tapes, false);
    MatchIsFirstBest(req, ts, criteria);
    hide Total;
    forall u | u in tapes && Fits(req, u, criteria) ensures u in ts { }
  }

  lemma ExemplarIsServed(req: Request, tapes: seq<Tape>, criteria: seq<Criterion>, compile: PatternCompiler)
    ensures var ts := Partition(tapes, true);
      match Pick(ts, ExemplarMatch(req, ts, criteria, compile))
      case None => forall u :: u in tapes ==> !FitsAsExemplar(req, u, criteria, compile)
      case Some(t) =>
        t in tapes && FitsAsExemplar(req, t, criteria, compile) &&
        forall u :: u in tapes && FitsAsExemplar(req, u, criteria, compile) ==> AtLeast(req, t, u, OtherCriteria(criteria))
  {
    var ts, cs := Partition(tapes, true), ExemplarCriteria(criteria, compile);
    PartitionMembers(tapes, true);
    ExemplarScanFindsBest(req, ts, cs, 0, None);
    hide Total, FitsAsExemplar, ExemplarCriteria, OtherCriteria;
    forall u | u in ts
      ensures Survives(req, u, cs) <==> FitsAsExemplar(req, u, criteria, compile)
      ensures Survives(req, u, cs) ==>
        Survives(req, u, OtherCriteria(criteria)) &&
        Total(req, u, cs).value == 3 + Total(req, u, OtherCriteria(criteria)).value
    {
      ExemplarSurvivesIff(req, u, criteria, compile);
    }
    forall u | u in tapes && FitsAsExemplar(req, u, criteria, compile) ensures u in ts { IsExemplar(req, u, criteria, compile); }
  }

  lemma IsExemplar(req: Request, t: Tape, criteria: seq<Criterion>, compile: PatternCompiler)
    requires FitsAsExemplar(req, t, criteria, compile)
    ensures t.exemplar
  {
  }

  /** A recorded tape that fits is served whenever there is one, the one of greatest total;
      otherwise, with synthesis on, an exemplar that fits, of greatest total over the
      criteria other than the path's; otherwise nothing. */
  lemma ServedIsBestFit(req: Request, tapes: seq<Tape>, criteria: seq<Criterion>, synthesis: bool, compile: PatternCompiler)
    ensures match Select(req, tapes, Composite(criteria), synthesis, compile)
      case None =>
        (forall u :: u in tapes ==> !Fits(req, u, criteria)) &&
        (synthesis ==> forall u :: u in tapes ==> !FitsAsExemplar(req, u, criteria, compile))
      case Some(t) =>
        t in tapes &&
        if t.exemplar then
          synthesis && (forall u :: u in tapes ==> !Fits(req, u, criteria)) && FitsAsExemplar(req, t, criteria, compile) &&
          forall u :: u in tapes && FitsAsExemplar(req, u, criteria, compile) ==> AtLeast(req, t, u, OtherCriteria(criteria))
        else
          Fits(req, t, criteria) && forall u :: u in tapes && Fits(req, u, criteria) ==> AtLeast(req, t, u, criteria)
  {
    ExactIsServed(req, tapes, criteria);
    ExemplarIsServed(req, tapes, criteria, compile);
    PartitionMembers(tapes, false);
    PartitionMembers(tapes, true);
    hide Partition, Match, ExemplarMatch, AtLeast;
  }
}
