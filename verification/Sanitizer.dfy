/** Redaction and faking of JSON bodies (sanitizer.go, faker.go). The source has
    three copies of one traversal; here it is one function of the leaf rewriter. */
module Sanitizer {
  import opened Options
  import opened JsonTree
  import opened PathPatterns

  const REDACTED := "[REDACTED]"

  /** Type-aware redaction of one value. */
  function RedactValue(v: Json): Json {
    match v
    case Str(_) => Str(REDACTED)
    case Num(_) => Num(0.0)
    case Bool(_) => Bool(false)
    case _ => v
  }

  /** Rewrites the leaves the path reaches; anything that does not fit the path
      is left as it is. */
  function RewriteAt(j: Json, segs: Pattern, f: Json -> Json): Json
    decreases |segs|, 0
  {
    if segs == [] || !j.Obj? || segs[0].key !in j.fields then j
    else
      var key, val, rest := segs[0].key, j.fields[segs[0].key], segs[1..];
      if segs[0].wildcard then
        if !val.Arr? || rest == [] then j
        else Obj(j.fields[key := Arr(RewriteEach(val.elems, rest, f))])
      else if rest == [] then Obj(j.fields[key := f(val)])
      else Obj(j.fields[key := RewriteAt(val, rest, f)])
  }

  function RewriteEach(xs: seq<Json>, segs: Pattern, f: Json -> Json): (ys: seq<Json>)
    ensures |ys| == |xs|
    ensures forall i :: 0 <= i < |xs| ==> ys[i] == RewriteAt(xs[i], segs, f)
    decreases |segs|, |xs| + 1
  {
    if xs == [] then [] else [RewriteAt(xs[0], segs, f)] + RewriteEach(xs[1..], segs, f)
  }

  /** The traversal as the source runs it, with the loop over array elements. */
  method RewriteAtPath(data: Json, segments: Pattern, f: Json -> Json) returns (r: Json)
    ensures r == RewriteAt(data, segments, f)
    decreases |segments|
  {
    if |segments| == 0 || !data.Obj? || segments[0].key !in data.fields {
      return data;
    }
    var seg, rest, val := segments[0], segments[1..], data.fields[segments[0].key];
    if seg.wildcard {
      if !val.Arr? || |rest| == 0 {
        return data;
      }
      var arr := val.elems;
      for i := 0 to |arr|
        invariant |arr| == |val.elems|
        invariant forall k :: 0 <= k < i ==> arr[k] == RewriteAt(val.elems[k], rest, f)
        invariant forall k :: i <= k < |arr| ==> arr[k] == val.elems[k]
      {
        var elem := RewriteAtPath(arr[i], rest, f);
        arr := arr[i := elem];
      }
      assert arr == RewriteEach(val.elems, rest, f);
      return Obj(data.fields[seg.key := Arr(arr)]);
    }
    if |rest| == 0 {
      return Obj(data.fields[seg.key := f(val)]);
    }
    var inner := RewriteAtPath(val, rest, f);
    return Obj(data.fields[seg.key := inner]);
  }

  /** Which faker each path is given. */
  type Fakers = Pattern -> (Json -> Json)

  function RewriteAll(j: Json, paths: seq<Pattern>, fakers: Fakers): Json
    decreases |paths|
  {
    if paths == [] then j
    else RewriteAll(RewriteAt(j, paths[0], fakers(paths[0])), paths[1..], fakers)
  }

  function RedactAll(j: Json, paths: seq<Pattern>): Json {
    RewriteAll(j, paths, Redacting)
  }

  function Redacting(p: Pattern): Json -> Json { RedactValue }

  /** A body as the sanitizers see it: bytes that are not JSON stay as they are. */
  datatype Body = Bytes(raw: string) | Parsed(data: Json)

  method FakeBodyFields(body: Body, paths: seq<Pattern>, fakers: Fakers) returns (r: Body)
    ensures body.Bytes? ==> r == body
    ensures body.Parsed? ==> r == Parsed(RewriteAll(body.data, paths, fakers))
  {
    if body.Bytes? {
      return body;
    }
    var data := body.data;
    for i := 0 to |paths|
      invariant RewriteAll(body.data, paths, fakers) == RewriteAll(data, paths[i..], fakers)
    {
      data := RewriteAtPath(data, paths[i], fakers(paths[i]));
    }
    return Parsed(data);
  }

  // ----- what a rewrite does, location by location -----

  predicate EndsInWildcard(segs: Pattern) {
    segs != [] && segs[|segs| - 1].wildcard
  }

  /** A path that ends in a wildcard rewrites nothing. */
  lemma {:induction false} WildcardLeafIsInert(j: Json, segs: Pattern, f: Json -> Json)
    requires EndsInWildcard(segs)
    ensures RewriteAt(j, segs, f) == j
    decreases |segs|
  {
    if j.Obj? && segs[0].key in j.fields && |segs| > 1 {
      var val, rest := j.fields[segs[0].key], segs[1..];
      if !segs[0].wildcard {
        WildcardLeafIsInert(val, rest, f);
        assert j.fields[segs[0].key := val] == j.fields;
      } else if val.Arr? {
        forall i | 0 <= i < |val.elems| ensures RewriteAt(val.elems[i], rest, f) == val.elems[i] {
          WildcardLeafIsInert(val.elems[i], rest, f);
        }
        assert RewriteEach(val.elems, rest, f) == val.elems;
        assert j.fields[segs[0].key := val] == j.fields;
      }
    }
  }

  /** Outside the locations a path covers, the rewritten tree looks as before. */
  lemma {:induction false} RewriteOutside(j: Json, segs: Pattern, f: Json -> Json, p: Path)
    requires !Covers(segs, p)
    ensures ShapeOf(At(RewriteAt(j, segs, f), p)) == ShapeOf(At(j, p))
    decreases |segs|
  {
    if j.Obj? && segs[0].key in j.fields && p != [] && p[0] == Key(segs[0].key) {
      var val, rest := j.fields[segs[0].key], segs[1..];
      if !segs[0].wildcard {
        RewriteOutside(val, rest, f, p[1..]);
      } else if val.Arr? && rest != [] && |p| >= 2 {
        if p[1].Index? && p[1].index < |val.elems| {
          assert p[1..][1..] == p[2..];
          RewriteOutside(val.elems[p[1].index], rest, f, p[2..]);
        }
      }
    }
  }

  /** At the locations a path matches, the old value has been rewritten once. */
  lemma {:induction false} RewriteInside(j: Json, segs: Pattern, f: Json -> Json, p: Path)
    requires Matches(p, segs) && segs != [] && !EndsInWildcard(segs)
    ensures At(RewriteAt(j, segs, f), p) ==
      match At(j, p) case None => None case Some(v) => Some(f(v))
    decreases |segs|
  {
    if j.Obj? && segs[0].key in j.fields {
      var val, rest := j.fields[segs[0].key], segs[1..];
      if !segs[0].wildcard {
        if rest == [] {
          assert p[1..] == [];
        } else {
          RewriteInside(val, rest, f, p[1..]);
        }
      } else if val.Arr? && p[1].index < |val.elems| {
        assert p[1..][1..] == p[2..];
        RewriteInside(val.elems[p[1].index], rest, f, p[2..]);
      }
    }
  }

  // ----- order and repetition -----

  /** A rewriter that leaves objects and arrays alone and never makes one. */
  ghost predicate KeepsContainers(f: Json -> Json) {
    forall v :: if IsContainer(v) then f(v) == v else !IsContainer(f(v))
  }

  lemma {:induction false} RewriteKeepsKind(j: Json, segs: Pattern, f: Json -> Json)
    ensures var r := RewriteAt(j, segs, f);
      r.Obj? == j.Obj? && r.Arr? == j.Arr? && (!IsContainer(j) ==> r == j) && (j.Arr? ==> r == j)
  {
  }

  /** What a path does to the field its first segment names. */
  function RewriteChild(val: Json, segs: Pattern, f: Json -> Json): Json
    requires segs != []
  {
    var rest := segs[1..];
    if segs[0].wildcard then
      if !val.Arr? || rest == [] then val else Arr(RewriteEach(val.elems, rest, f))
    else if rest == [] then f(val)
    else RewriteAt(val, rest, f)
  }

  lemma RewriteIsFieldUpdate(j: Json, segs: Pattern, f: Json -> Json)
    requires segs != [] && j.Obj? && segs[0].key in j.fields
    ensures RewriteAt(j, segs, f) ==
      Obj(j.fields[segs[0].key := RewriteChild(j.fields[segs[0].key], segs, f)])
  {
    var val := j.fields[segs[0].key];
    assert j.fields[segs[0].key := val] == j.fields;
  }

  /** Two paths whose fakers keep containers may be applied in either order. */
  lemma {:induction false} RewriteCommutes(j: Json, a: Pattern, f: Json -> Json, b: Pattern, g: Json -> Json)
    requires KeepsContainers(f) && KeepsContainers(g)
    requires a == b ==> f == g
    ensures RewriteAt(RewriteAt(j, a, f), b, g) == RewriteAt(RewriteAt(j, b, g), a, f)
    decreases |a|, 1
  {
    if a != [] && b != [] && j.Obj? && a[0].key in j.fields && b[0].key in j.fields {
      var m, ka, kb := j.fields, a[0].key, b[0].key;
      RewriteIsFieldUpdate(j, a, f);
      RewriteIsFieldUpdate(j, b, g);
      RewriteIsFieldUpdate(RewriteAt(j, a, f), b, g);
      RewriteIsFieldUpdate(RewriteAt(j, b, g), a, f);
      if ka != kb {
        var x, y := RewriteChild(m[ka], a, f), RewriteChild(m[kb], b, g);
        var mx, my: map<string, Json> := m[ka := x], m[kb := y];
        assert mx[kb := y] == my[ka := x];
      } else {
        ChildRewritesCommute(m[ka], a, f, b, g);
        var x, y := RewriteChild(m[ka], a, f), RewriteChild(m[ka], b, g);
        var z := RewriteChild(x, b, g);
        var mx, my: map<string, Json> := m[ka := x], m[ka := y];
        assert mx[ka := z] == my[ka := z];
      }
    }
  }

  lemma {:induction false} ChildRewritesCommute(val: Json, a: Pattern, f: Json -> Json, b: Pattern, g: Json -> Json)
    requires KeepsContainers(f) && KeepsContainers(g)
    requires a == b ==> f == g
    requires a != [] && b != [] && a[0].key == b[0].key
    ensures RewriteChild(RewriteChild(val, a, f), b, g) == RewriteChild(RewriteChild(val, b, g), a, f)
    decreases |a|, 0
  {
    var ra, rb := a[1..], b[1..];
    assert a == [a[0]] + ra && b == [b[0]] + rb;
    RewriteKeepsKind(val, ra, f);
    RewriteKeepsKind(val, rb, g);
    if a[0].wildcard && b[0].wildcard {
      if val.Arr? && ra != [] && rb != [] {
        var xs, ys := RewriteEach(val.elems, ra, f), RewriteEach(val.elems, rb, g);
        forall i | 0 <= i < |val.elems|
          ensures RewriteAt(xs[i], rb, g) == RewriteAt(ys[i], ra, f)
        {
          RewriteCommutes(val.elems[i], ra, f, rb, g);
        }
        assert RewriteEach(xs, rb, g) == RewriteEach(ys, ra, f);
      }
    } else if !a[0].wildcard && !b[0].wildcard {
      if ra != [] && rb != [] {
        RewriteCommutes(val, ra, f, rb, g);
      } else if ra == [] && rb != [] {
        RewriteKeepsKind(f(val), rb, g);
      } else if ra != [] {
        RewriteKeepsKind(g(val), ra, f);
      }
    }
  }

  /** Applying the listed path at `i` first changes nothing. */
  lemma {:induction false} RewriteAllFrontload(j: Json, paths: seq<Pattern>, i: nat, fakers: Fakers)
    requires i < |paths|
    requires forall p :: KeepsContainers(fakers(p))
    ensures RewriteAll(j, paths, fakers) ==
      RewriteAll(RewriteAt(j, paths[i], fakers(paths[i])), paths[..i] + paths[i + 1..], fakers)
    decreases i
  {
    if i == 0 {
      assert paths[..0] + paths[1..] == paths[1..];
    } else {
      var first, p := paths[0], paths[i];
      var j0 := RewriteAt(j, first, fakers(first));
      RewriteAllFrontload(j0, paths[1..], i - 1, fakers);
      RewriteCommutes(j, first, fakers(first), p, fakers(p));
      var others := paths[..i] + paths[i + 1..];
      assert others[1..] == paths[1..][..i - 1] + paths[1..][i..];
    }
  }

  lemma FindInPermutation<T>(ps: seq<T>, qs: seq<T>) returns (i: nat)
    requires ps != [] && multiset(ps) == multiset(qs)
    ensures i < |qs| && qs[i] == ps[0]
    ensures multiset(ps[1..]) == multiset(qs[..i] + qs[i + 1..])
  {
    assert ps[0] in multiset(qs);
    i :| 0 <= i < |qs| && qs[i] == ps[0];
    var rest := qs[..i] + qs[i + 1..];
    assert qs == qs[..i] + ([qs[i]] + qs[i + 1..]);
    assert multiset(qs) == multiset(rest) + multiset{qs[i]};
    assert ps == [ps[0]] + ps[1..];
    assert multiset(ps) == multiset{ps[0]} + multiset(ps[1..]);
    assert multiset(ps[1..]) == multiset(ps) - multiset{ps[0]};
    assert multiset(rest) == multiset(qs) - multiset{ps[0]};
  }

  /** The order of the paths does not matter: any permutation of the list, each
      path keeping its own faker, gives the same tree. */
  lemma {:induction false} RewriteAllPermutes(j: Json, ps: seq<Pattern>, qs: seq<Pattern>, fakers: Fakers)
    requires multiset(ps) == multiset(qs)
    requires forall p :: KeepsContainers(fakers(p))
    ensures RewriteAll(j, ps, fakers) == RewriteAll(j, qs, fakers)
    decreases |ps|
  {
    if ps == [] {
      assert |qs| == |multiset(qs)| == |multiset(ps)| == 0;
    } else {
      var i := FindInPermutation(ps, qs);
      RewriteAllFrontload(j, qs, i, fakers);
      RewriteAllPermutes(RewriteAt(j, ps[0], fakers(ps[0])), ps[1..], qs[..i] + qs[i + 1..], fakers);
    }
  }

  // ----- redaction is order-free and idempotent -----

  lemma {:induction false} RedactTwice(j: Json, p: Pattern)
    ensures RewriteAt(RewriteAt(j, p, RedactValue), p, RedactValue) == RewriteAt(j, p, RedactValue)
    decreases |p|
  {
    if p != [] && j.Obj? && p[0].key in j.fields {
      var key, val, rest := p[0].key, j.fields[p[0].key], p[1..];
      RewriteIsFieldUpdate(j, p, RedactValue);
      var once := RewriteAt(j, p, RedactValue);
      RewriteIsFieldUpdate(once, p, RedactValue);
      if p[0].wildcard {
        if val.Arr? && rest != [] {
          var ys := RewriteEach(val.elems, rest, RedactValue);
          forall i | 0 <= i < |ys| ensures RewriteAt(ys[i], rest, RedactValue) == ys[i] {
            RedactTwice(val.elems[i], rest);
          }
          assert RewriteEach(ys, rest, RedactValue) == ys;
        }
      } else if rest != [] {
        RedactTwice(val, rest);
      }
      assert once.fields[key := once.fields[key]] == once.fields;
    }
  }

  /** Redacting a listed path once more is no change. */
  lemma {:induction false} RedactAbsorbs(j: Json, paths: seq<Pattern>, p: Pattern)
    requires p in paths
    ensures RewriteAt(RedactAll(j, paths), p, RedactValue) == RedactAll(j, paths)
    decreases |paths|
  {
    var j0 := RewriteAt(j, paths[0], RedactValue);
    if p in paths[1..] {
      RedactAbsorbs(j0, paths[1..], p);
    } else {
      RedactTwice(j, p);
      RedactAllAfter(j0, paths[1..], p);
    }
  }

  lemma {:induction false} RedactAllAfter(j: Json, paths: seq<Pattern>, p: Pattern)
    ensures RewriteAt(RedactAll(j, paths), p, RedactValue) == RedactAll(RewriteAt(j, p, RedactValue), paths)
    decreases |paths|
  {
    if paths != [] {
      RewriteCommutes(j, paths[0], RedactValue, p, RedactValue);
      RedactAllAfter(RewriteAt(j, paths[0], RedactValue), paths[1..], p);
    }
  }

  lemma {:induction false} RedactAllAbsorbs(j: Json, paths: seq<Pattern>, again: seq<Pattern>)
    requires forall p :: p in again ==> p in paths
    ensures RedactAll(RedactAll(j, paths), again) == RedactAll(j, paths)
    decreases |again|
  {
    if again != [] {
      assert again[0] in again;
      RedactAbsorbs(j, paths, again[0]);
      RedactAllAbsorbs(j, paths, again[1..]);
    }
  }

  lemma {:induction false} RedactAllCommutes(j: Json, ps: seq<Pattern>, qs: seq<Pattern>)
    ensures RedactAll(RedactAll(j, ps), qs) == RedactAll(RedactAll(j, qs), ps)
    decreases |ps|
  {
    if ps != [] {
      var j0 := RewriteAt(j, ps[0], RedactValue);
      RedactAllCommutes(j0, ps[1..], qs);
      RedactAllAfter(j, qs, ps[0]);
    }
  }

  /** Redaction depends only on the set of paths: permuting and repeating them
      gives the same tree. */
  lemma RedactionIsOrderFree(j: Json, ps: seq<Pattern>, qs: seq<Pattern>)
    requires forall p :: p in ps <==> p in qs
    ensures RedactAll(j, ps) == RedactAll(j, qs)
  {
    RedactAllAbsorbs(j, ps, qs);
    RedactAllAbsorbs(j, qs, ps);
    RedactAllCommutes(j, ps, qs);
  }

  /** Redacting twice is redacting once. */
  lemma RedactionIsIdempotent(j: Json, ps: seq<Pattern>)
    ensures RedactAll(RedactAll(j, ps), ps) == RedactAll(j, ps)
  {
    RedactAllAbsorbs(j, ps, ps);
  }

  /** Faking is not order-free once a fixed faker can plant a container: with
      `$.a` fixed to an object holding `b`, and `$.a.b` redacted, the two orders
      of the two paths differ. */
  lemma FixedContainerBreaksOrder() returns (j: Json, a: Pattern, b: Pattern, fakers: Fakers)
    ensures a != b && fakers(b) == RedactValue
    ensures fakers(a) == FixedFaker(Obj(map["b" := Str("x")]))
    ensures RewriteAll(j, [a, b], fakers) != RewriteAll(j, [b, a], fakers)
  {
    var planted, redacted := Obj(map["b" := Str("x")]), Obj(map["b" := Str(REDACTED)]);
    var sa, sb := Segment("a", false), Segment("b", false);
    a, b := [sa], [sa, sb];
    assert |a| != |b|;
    fakers := p => if |p| == 1 then FixedFaker(planted) else RedactValue;
    j := Obj(map["a" := Null]);
    assert b[1..] == [sb];
    assert RewriteAt(planted, [sb], RedactValue) == redacted;
    assert RewriteAt(Obj(map["a" := planted]), b, RedactValue) == Obj(map["a" := redacted]);
    assert RewriteAt(j, b, RedactValue) == j by {
      assert j.fields["a" := Null] == j.fields;
    }
    TwoPaths(j, a, b, fakers);
    TwoPaths(j, b, a, fakers);
    assert redacted.fields["b"] != planted.fields["b"];
    assert map["a" := redacted]["a"] != map["a" := planted]["a"];
  }

  lemma TwoPaths(j: Json, a: Pattern, b: Pattern, fakers: Fakers)
    ensures RewriteAll(j, [a, b], fakers) == RewriteAt(RewriteAt(j, a, fakers(a)), b, fakers(b))
  {
    assert [a, b][1..] == [b] && [b][1..] == [];
    assert RewriteAll(RewriteAt(j, a, fakers(a)), [b], fakers) == RewriteAt(RewriteAt(j, a, fakers(a)), b, fakers(b));
  }

  function FixedFaker(value: Json): Json -> Json { (_: Json) => value }
}
