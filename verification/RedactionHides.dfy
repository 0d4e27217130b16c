/** What redaction hides, exactly (sanitizer.go:253-336). */
module RedactionHides {
  import opened Options
  import opened JsonTree
  import opened PathPatterns
  import opened Sanitizer
  import opened Faker

  /** A listed path ends here, not in a wildcard. */
  predicate Listed(p: Path, ps: seq<Pattern>) {
    exists i :: 0 <= i < |ps| && ps[i] != [] && !ps[i][|ps[i]| - 1].wildcard && Matches(p, ps[i])
  }

  /** Both strings, both numbers, both booleans, or the same to look at. */
  predicate SameKind(a: Shape, b: Shape) {
    a == b || (a.Scalar? && b.Scalar? && ((a.v.Str? && b.v.Str?) || (a.v.Num? && b.v.Num?) || (a.v.Bool? && b.v.Bool?)))
  }

  /** The trees differ only in the values of strings, numbers and booleans, kind for kind,
      at listed locations. */
  ghost predicate DifferOnlyListed(j: Json, k: Json, ps: seq<Pattern>) {
    forall p: Path ::
      if Listed(p, ps) then SameKind(ShapeOf(At(j, p)), ShapeOf(At(k, p))) else ShapeOf(At(j, p)) == ShapeOf(At(k, p))
  }

  /** What there is to see of a value once it is redacted. */
  function Redacted(s: Shape): Shape {
    if s.Scalar? then
      match s.v
      case Str(_) => Scalar(Str("[REDACTED]"))
      case Num(_) => Scalar(Num(0.0))
      case Bool(_) => Scalar(Bool(false))
      case _ => s
    else s
  }

  lemma RedactedKinds(a: Shape, b: Shape)
    ensures Redacted(Redacted(a)) == Redacted(a)
    ensures Redacted(a) == Redacted(b) <==> SameKind(a, b)
  {
  }

  lemma RedactValueIsRedacted(v: Json)
    ensures ShapeOf(Some(RedactValue(v))) == Redacted(ShapeOf(Some(v)))
    ensures IsContainer(v) ==> RedactValue(v) == v
    ensures !IsContainer(v) ==> !IsContainer(RedactValue(v))
  {
  }

  /** One path, at one location. */
  lemma OnePathAt(j: Json, q: Pattern, p: Path)
    ensures ShapeOf(At(RewriteAt(j, q, RedactValue), p)) ==
      if Listed(p, [q]) then Redacted(ShapeOf(At(j, p))) else ShapeOf(At(j, p))
  {
    assert Listed(p, [q]) <==> q != [] && !EndsInWildcard(q) && Matches(p, q) by { assert [q][0] == q; }
    if q == [] {
    } else if EndsInWildcard(q) {
      WildcardLeafIsInert(j, q, RedactValue);
    } else if Matches(p, q) {
      RewriteInside(j, q, RedactValue, p);
      if At(j, p).Some? { RedactValueIsRedacted(At(j, p).value); }
    } else if Covers(q, p) {
      BelowPathAt(j, q, p);
    } else {
      RewriteOutside(j, q, RedactValue, p);
    }
  }

  /** Below a location the path matches nothing changes. */
  lemma BelowPathAt(j: Json, q: Pattern, p: Path)
    requires q != [] && !EndsInWildcard(q) && Covers(q, p) && !Matches(p, q)
    ensures ShapeOf(At(RewriteAt(j, q, RedactValue), p)) == ShapeOf(At(j, p))
  {
    CoversIffPrefixMatches(q, p);
    var i :| 0 <= i <= |p| && Matches(p[..i], q);
    var top, rest := p[..i], p[i..];
    assert p == top + rest;
    assert rest == [] ==> p == top;
    RewriteInside(j, q, RedactValue, top);
    AtConcat(j, top, rest);
    AtConcat(RewriteAt(j, q, RedactValue), top, rest);
    if At(j, top).Some? {
      RedactValueIsRedacted(At(j, top).value);
      assert Child(At(j, top).value, rest[0]).Some? ==> IsContainer(At(j, top).value);
    }
  }

  lemma ListedFirst(p: Path, ps: seq<Pattern>)
    requires ps != []
    ensures Listed(p, ps) <==> Listed(p, [ps[0]]) || Listed(p, ps[1..])
  {
    hide Matches;
    if Listed(p, ps) {
      var i :| 0 <= i < |ps| && ps[i] != [] && !ps[i][|ps[i]| - 1].wildcard && Matches(p, ps[i]);
      if i > 0 { assert ps[1..][i - 1] == ps[i]; } else { assert [ps[0]][0] == ps[0]; }
    }
    if Listed(p, ps[1..]) {
      var i :| 0 <= i < |ps[1..]| && ps[1..][i] != [] && !ps[1..][i][|ps[1..][i]| - 1].wildcard && Matches(p, ps[1..][i]);
      assert ps[i + 1] == ps[1..][i];
    }
  }

  /** All paths, at one location. */
  lemma {:induction false} AllPathsAt(j: Json, ps: seq<Pattern>, p: Path)
    ensures ShapeOf(At(RedactAll(j, ps), p)) == if Listed(p, ps) then Redacted(ShapeOf(At(j, p))) else ShapeOf(At(j, p))
    decreases |ps|
  {
    if ps != [] {
      hide At, ShapeOf, Redacted, Listed, RewriteAt;
      var j0 := RewriteAt(j, ps[0], RedactValue);
      OnePathAt(j, ps[0], p);
      AllPathsAt(j0, ps[1..], p);
      ListedFirst(p, ps);
      RedactedKinds(ShapeOf(At(j, p)), ShapeOf(At(j, p)));
      assert RedactAll(j, ps) == RedactAll(j0, ps[1..]);
    } else {
      assert !Listed(p, ps);
    }
  }

  // ----- the statements -----

  /** At a listed location a string has become "[REDACTED]", a number 0 and a boolean false;
      null, objects, arrays and what is not there look as before. */
  lemma ListedValuesAreRedacted(j: Json, ps: seq<Pattern>, p: Path)
    requires Listed(p, ps)
    ensures match At(j, p)
      case Some(Str(_)) => At(RedactAll(j, ps), p) == Some(Str("[REDACTED]"))
      case Some(Num(_)) => At(RedactAll(j, ps), p) == Some(Num(0.0))
      case Some(Bool(_)) => At(RedactAll(j, ps), p) == Some(Bool(false))
      case _ => ShapeOf(At(RedactAll(j, ps), p)) == ShapeOf(At(j, p))
  {
    AllPathsAt(j, ps, p);
  }

  /** Everywhere else the tree looks as before. */
  lemma OtherValuesStay(j: Json, ps: seq<Pattern>, p: Path)
    requires !Listed(p, ps)
    ensures ShapeOf(At(RedactAll(j, ps), p)) == ShapeOf(At(j, p))
  {
    AllPathsAt(j, ps, p);
  }

  /** Redaction makes two trees equal if and only if they differ only in the values of
      strings, numbers and booleans, kind for kind, at listed locations: of these it gives
      nothing away, and it hides nothing else. */
  lemma RedactionHidesExactly(j: Json, k: Json, ps: seq<Pattern>)
    ensures RedactAll(j, ps) == RedactAll(k, ps) <==> DifferOnlyListed(j, k, ps)
  {
    hide RedactAll, At, ShapeOf, Redacted, SameKind, Listed;
    forall p: Path
      ensures ShapeOf(At(RedactAll(j, ps), p)) == ShapeOf(At(RedactAll(k, ps), p)) <==>
        if Listed(p, ps) then SameKind(ShapeOf(At(j, p)), ShapeOf(At(k, p))) else ShapeOf(At(j, p)) == ShapeOf(At(k, p))
    {
      AllPathsAt(j, ps, p);
      AllPathsAt(k, ps, p);
      RedactedKinds(ShapeOf(At(j, p)), ShapeOf(At(k, p)));
    }
    if DifferOnlyListed(j, k, ps) { ShapesDetermineTree(RedactAll(j, ps), RedactAll(k, ps)); }
  }

  /** Leaf fakers: at a location the path ends at, each kind of leaf goes through its own
      function, and nothing else changes there. */
  lemma FakedLeaves(j: Json, q: Pattern, onStr: string -> string, onNum: real -> real, onBool: bool -> bool, p: Path)
    requires q != [] && !EndsInWildcard(q) && Matches(p, q)
    ensures var r := At(RewriteAt(j, q, LeafFaker(onStr, onNum, onBool)), p);
      match At(j, p)
      case Some(Str(s)) => r == Some(Str(onStr(s)))
      case Some(Num(n)) => r == Some(Num(onNum(n)))
      case Some(Bool(b)) => r == Some(Bool(onBool(b)))
      case _ => r == At(j, p)
  {
    RewriteInside(j, q, LeafFaker(onStr, onNum, onBool), p);
  }
}
