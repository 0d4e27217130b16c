/** When the order of two faked paths matters, exactly (faker.go:449-516). */
module FakingOrder {
  import opened JsonTree
  import opened Sanitizer

  /** Path `a` ends, without a wildcard, at a key that `b` passes through or ends at. */
  predicate EndsOn(a: Pattern, b: Pattern) {
    a != [] && |a| <= |b| && a[..|a| - 1] == b[..|a| - 1] &&
    !a[|a| - 1].wildcard && b[|a| - 1].key == a[|a| - 1].key
  }

  /** The part of `b` from that key on. */
  function From(a: Pattern, b: Pattern): (r: Pattern)
    requires EndsOn(a, b)
    ensures r != [] && |r| <= |b|
  {
    b[|a| - 1..]
  }

  /** Both paths lose a first segment they share. */
  lemma EndsOnTails(a: Pattern, b: Pattern)
    requires |a| > 1 && |b| > 1
    ensures EndsOn(a, b) <==> a[0] == b[0] && EndsOn(a[1..], b[1..])
    ensures EndsOn(a, b) ==> From(a[1..], b[1..]) == From(a, b)
  {
    var ra, rb := a[1..], b[1..];
    if |a| <= |b| {
      assert a[..|a| - 1] == [a[0]] + ra[..|ra| - 1] && b[..|a| - 1] == [b[0]] + rb[..|ra| - 1];
      assert a[..|a| - 1][1..] == ra[..|ra| - 1] && b[..|a| - 1][1..] == rb[..|ra| - 1];
      assert a[..|a| - 1][0] == a[0] && b[..|a| - 1][0] == b[0];
      assert a[|a| - 1] == ra[|ra| - 1] && b[|a| - 1] == rb[|ra| - 1];
    }
  }

  /** The two paths give this tree in either order. */
  predicate OrdersAgree(j: Json, a: Pattern, f: Json -> Json, b: Pattern, g: Json -> Json) {
    RewriteAt(RewriteAt(j, a, f), b, g) == RewriteAt(RewriteAt(j, b, g), a, f)
  }

  // ----- a tree that holds a value at the end of a path -----

  /** The smallest tree in which the path reaches the value. */
  function Bearing(a: Pattern, v: Json): Json
    requires a != []
  {
    var inner := if |a| == 1 then v else Bearing(a[1..], v);
    Obj(map[a[0].key := if a[0].wildcard then Arr([inner]) else inner])
  }

  lemma {:induction false} BearingIsInjective(a: Pattern, v: Json, w: Json)
    requires a != [] && Bearing(a, v) == Bearing(a, w)
    ensures v == w
    decreases |a|
  {
    var key := a[0].key;
    assert Bearing(a, v).fields[key] == Bearing(a, w).fields[key];
    if |a| > 1 {
      if a[0].wildcard {
        assert Bearing(a, v).fields[key].elems[0] == Bearing(a, w).fields[key].elems[0];
      }
      BearingIsInjective(a[1..], v, w);
    } else if a[0].wildcard {
      assert Bearing(a, v).fields[key].elems[0] == Bearing(a, w).fields[key].elems[0];
    }
  }

  lemma RewriteSingle(x: Json, segs: Pattern, f: Json -> Json)
    ensures RewriteEach([x], segs, f) == [RewriteAt(x, segs, f)]
  {
  }

  /** Rewriting along `b` changes the borne value as `b` does from there on. */
  lemma {:induction false} RewriteOfBearing(a: Pattern, b: Pattern, g: Json -> Json, v: Json)
    requires EndsOn(a, b)
    ensures RewriteAt(Bearing(a, v), b, g) == Bearing(a, RewriteChild(v, From(a, b), g))
    decreases |a|
  {
    var j, key := Bearing(a, v), a[0].key;
    if |a| == 1 {
      assert From(a, b) == b;
      RewriteIsFieldUpdate(j, b, g);
      assert j.fields[key := RewriteChild(v, b, g)] == map[key := RewriteChild(v, b, g)];
    } else {
      EndsOnTails(a, b);
      hide EndsOn, RewriteAt;
      RewriteOfBearing(a[1..], b[1..], g, v);
      BearingStep(a, b, g, v, Bearing(a[1..], RewriteChild(v, From(a, b), g)));
    }
  }

  lemma BearingStep(a: Pattern, b: Pattern, g: Json -> Json, v: Json, inner: Json)
    requires |a| > 1 && |b| > 1 && a[0] == b[0] && RewriteAt(Bearing(a[1..], v), b[1..], g) == inner
    ensures RewriteAt(Bearing(a, v), b, g) == Obj(map[a[0].key := if a[0].wildcard then Arr([inner]) else inner])
  {
    var j, key := Bearing(a, v), a[0].key;
    RewriteIsFieldUpdate(j, b, g);
    RewriteSingle(Bearing(a[1..], v), b[1..], g);
    hide RewriteAt;
    var x := RewriteChild(j.fields[key], b, g);
    assert j.fields[key := x] == map[key := x];
  }

  lemma EndsOnItself(a: Pattern)
    requires a != [] && !a[|a| - 1].wildcard
    ensures EndsOn(a, a) && From(a, a) == [a[|a| - 1]]
  {
  }

  // ----- related paths -----

  /** At one value: `f` first, or the rest of `b` first. */
  predicate AgreeAtValue(v: Json, f: Json -> Json, rest: Pattern, g: Json -> Json)
    requires rest != []
  {
    RewriteChild(f(v), rest, g) == f(RewriteChild(v, rest, g))
  }

  lemma OrdersAgreeOnBearing(a: Pattern, f: Json -> Json, b: Pattern, g: Json -> Json, v: Json)
    requires EndsOn(a, b)
    ensures OrdersAgree(Bearing(a, v), a, f, b, g) <==> AgreeAtValue(v, f, From(a, b), g)
  {
    EndsOnItself(a);
    var rest := From(a, b);
    assert forall w :: RewriteChild(w, [a[|a| - 1]], f) == f(w);
    RewriteOfBearing(a, a, f, v);
    RewriteOfBearing(a, b, g, f(v));
    RewriteOfBearing(a, b, g, v);
    RewriteOfBearing(a, a, f, RewriteChild(v, rest, g));
    hide Bearing, RewriteAt, RewriteChild, EndsOn;
    if OrdersAgree(Bearing(a, v), a, f, b, g) {
      BearingIsInjective(a, RewriteChild(f(v), rest, g), f(RewriteChild(v, rest, g)));
    }
  }

  /** What happens to the field both paths go through. */
  lemma FieldOrdersAgree(j: Json, a: Pattern, f: Json -> Json, b: Pattern, g: Json -> Json)
    requires a != [] && b != [] && j.Obj? && a[0].key == b[0].key && a[0].key in j.fields
    requires var v := j.fields[a[0].key]; RewriteChild(RewriteChild(v, a, f), b, g) == RewriteChild(RewriteChild(v, b, g), a, f)
    ensures OrdersAgree(j, a, f, b, g)
  {
    var m, key := j.fields, a[0].key;
    var x, y := RewriteChild(m[key], a, f), RewriteChild(m[key], b, g);
    hide RewriteChild, RewriteAt;
    RewriteIsFieldUpdate(j, a, f);
    RewriteIsFieldUpdate(j, b, g);
    RewriteIsFieldUpdate(Obj(m[key := x]), b, g);
    RewriteIsFieldUpdate(Obj(m[key := y]), a, f);
    var z := RewriteChild(x, b, g);
    var mx, my: map<string, Json> := m[key := x], m[key := y];
    assert mx[key := z] == my[key := z];
  }

  lemma {:induction false} AgreeingValuesAgree(j: Json, a: Pattern, f: Json -> Json, b: Pattern, g: Json -> Json)
    requires EndsOn(a, b) && forall v :: AgreeAtValue(v, f, From(a, b), g)
    ensures OrdersAgree(j, a, f, b, g)
    decreases |a|
  {
    if |a| == 1 {
      assert From(a, b) == b;
      if j.Obj? && a[0].key in j.fields {
        var v := j.fields[a[0].key];
        assert AgreeAtValue(v, f, b, g);
        FieldOrdersAgree(j, a, f, b, g);
      }
    } else {
      EndsOnTails(a, b);
      if j.Obj? && a[0].key in j.fields {
        var v := j.fields[a[0].key];
        if !a[0].wildcard {
          AgreeingValuesAgree(v, a[1..], f, b[1..], g);
        } else if v.Arr? {
          forall i | 0 <= i < |v.elems| ensures OrdersAgree(v.elems[i], a[1..], f, b[1..], g) {
            AgreeingValuesAgree(v.elems[i], a[1..], f, b[1..], g);
          }
          ElementsAgree(v, a[1..], f, b[1..], g);
        }
        FieldOrdersAgree(j, a, f, b, g);
      }
    }
  }

  lemma ElementsAgree(v: Json, a: Pattern, f: Json -> Json, b: Pattern, g: Json -> Json)
    requires v.Arr? && forall i :: 0 <= i < |v.elems| ==> OrdersAgree(v.elems[i], a, f, b, g)
    ensures RewriteEach(RewriteEach(v.elems, a, f), b, g) == RewriteEach(RewriteEach(v.elems, b, g), a, f)
  {
    hide RewriteAt;
  }

  /** Where one path ends on the other, their order never matters if and only if it
      does not matter at any single value: faking it and then following the rest of
      the longer path, or the other way round. */
  lemma RelatedPathsCommuteIff(a: Pattern, f: Json -> Json, b: Pattern, g: Json -> Json)
    requires EndsOn(a, b)
    ensures (forall j :: OrdersAgree(j, a, f, b, g)) <==> forall v :: AgreeAtValue(v, f, From(a, b), g)
  {
    hide OrdersAgree, AgreeAtValue;
    if forall v :: AgreeAtValue(v, f, From(a, b), g) {
      forall j ensures OrdersAgree(j, a, f, b, g) { AgreeingValuesAgree(j, a, f, b, g); }
    } else {
      var v :| !AgreeAtValue(v, f, From(a, b), g);
      OrdersAgreeOnBearing(a, f, b, g, v);
      assert !OrdersAgree(Bearing(a, v), a, f, b, g);
    }
  }

  /** For a fixed faker on the shorter path: the order never matters if and only if
      the longer path leaves the fixed value alone. */
  lemma FixedFakerCommutesIff(a: Pattern, value: Json, b: Pattern, g: Json -> Json)
    requires EndsOn(a, b)
    ensures (forall j :: OrdersAgree(j, a, FixedFaker(value), b, g)) <==> RewriteChild(value, From(a, b), g) == value
  {
    var f := FixedFaker(value);
    RelatedPathsCommuteIff(a, f, b, g);
    hide OrdersAgree, RewriteChild;
    if RewriteChild(value, From(a, b), g) == value {
      forall v ensures AgreeAtValue(v, f, From(a, b), g) { }
    } else {
      assert !AgreeAtValue(value, f, From(a, b), g);
    }
  }

  // ----- unrelated paths -----

  /** Two paths neither of which ends on the other commute on every tree, whatever
      their fakers do. */
  lemma {:induction false} UnrelatedPathsCommute(j: Json, a: Pattern, f: Json -> Json, b: Pattern, g: Json -> Json)
    requires !EndsOn(a, b) && !EndsOn(b, a)
    ensures OrdersAgree(j, a, f, b, g)
    decreases |a|, 1
  {
    if a != [] && b != [] && j.Obj? && a[0].key in j.fields && b[0].key in j.fields {
      if a[0].key == b[0].key {
        UnrelatedChildren(j.fields[a[0].key], a, f, b, g);
        FieldOrdersAgree(j, a, f, b, g);
      } else {
        DifferentFields(j, a, f, b, g);
      }
    }
  }

  lemma DifferentFields(j: Json, a: Pattern, f: Json -> Json, b: Pattern, g: Json -> Json)
    requires a != [] && b != [] && j.Obj? && a[0].key in j.fields && b[0].key in j.fields && a[0].key != b[0].key
    ensures OrdersAgree(j, a, f, b, g)
  {
    var m, ka, kb := j.fields, a[0].key, b[0].key;
    var x, y := RewriteChild(m[ka], a, f), RewriteChild(m[kb], b, g);
    hide RewriteAt, RewriteChild;
    RewriteIsFieldUpdate(j, a, f);
    RewriteIsFieldUpdate(j, b, g);
    RewriteIsFieldUpdate(Obj(m[ka := x]), b, g);
    RewriteIsFieldUpdate(Obj(m[kb := y]), a, f);
    var mx, my: map<string, Json> := m[ka := x], m[kb := y];
    assert mx[kb := y] == my[ka := x];
  }

  lemma {:induction false} UnrelatedChildren(v: Json, a: Pattern, f: Json -> Json, b: Pattern, g: Json -> Json)
    requires a != [] && b != [] && a[0].key == b[0].key && !EndsOn(a, b) && !EndsOn(b, a)
    ensures RewriteChild(RewriteChild(v, a, f), b, g) == RewriteChild(RewriteChild(v, b, g), a, f)
    decreases |a|, 0
  {
    var ra, rb := a[1..], b[1..];
    assert |a| == 1 && !a[0].wildcard ==> EndsOn(a, b) by { assert a[..0] == b[..0]; }
    assert |b| == 1 && !b[0].wildcard ==> EndsOn(b, a) by { assert a[..0] == b[..0]; }
    if a[0] == b[0] {
      if ra != [] && rb != [] {
        EndsOnTails(a, b);
        EndsOnTails(b, a);
        if a[0].wildcard && v.Arr? {
          forall i | 0 <= i < |v.elems| ensures OrdersAgree(v.elems[i], ra, f, rb, g) {
            UnrelatedPathsCommute(v.elems[i], ra, f, rb, g);
          }
          ElementsAgree(v, ra, f, rb, g);
        } else if !a[0].wildcard {
          UnrelatedPathsCommute(v, ra, f, rb, g);
        }
      }
    } else {
      RewriteKeepsKind(v, ra, f);
      RewriteKeepsKind(v, rb, g);
    }
  }

  // ----- whole lists -----

  /** Any two paths of the list may change places on every tree. */
  ghost predicate PairsCommute(paths: seq<Pattern>, fakers: Fakers) {
    forall p, q, j :: p in paths && q in paths ==> OrdersAgree(j, p, fakers(p), q, fakers(q))
  }

  lemma {:induction false} Frontload(j: Json, paths: seq<Pattern>, i: nat, fakers: Fakers)
    requires i < |paths| && PairsCommute(paths, fakers)
    ensures RewriteAll(j, paths, fakers) ==
      RewriteAll(RewriteAt(j, paths[i], fakers(paths[i])), paths[..i] + paths[i + 1..], fakers)
    decreases i
  {
    if i == 0 {
      assert paths[..0] + paths[1..] == paths[1..];
    } else {
      var first, p := paths[0], paths[i];
      assert first in paths && p in paths && forall q :: q in paths[1..] ==> q in paths;
      Frontload(RewriteAt(j, first, fakers(first)), paths[1..], i - 1, fakers);
      assert OrdersAgree(j, first, fakers(first), p, fakers(p));
      var others := paths[..i] + paths[i + 1..];
      assert others[0] == first && others[1..] == paths[1..][..i - 1] + paths[1..][i..];
    }
  }

  /** If any two paths of a list commute, every permutation of the list gives the same
      tree. */
  lemma {:induction false} CommutingPathsPermute(j: Json, ps: seq<Pattern>, qs: seq<Pattern>, fakers: Fakers)
    requires multiset(ps) == multiset(qs) && PairsCommute(ps, fakers)
    ensures RewriteAll(j, ps, fakers) == RewriteAll(j, qs, fakers)
    decreases |ps|
  {
    if ps == [] {
      assert |qs| == |multiset(qs)| == |multiset(ps)| == 0;
    } else {
      var i := FindInPermutation(ps, qs);
      SameMembers(ps, qs);
      Frontload(j, qs, i, fakers);
      assert forall p :: p in ps[1..] ==> p in ps;
      CommutingPathsPermute(RewriteAt(j, ps[0], fakers(ps[0])), ps[1..], qs[..i] + qs[i + 1..], fakers);
    }
  }

  lemma SameMembers<T>(ps: seq<T>, qs: seq<T>)
    requires multiset(ps) == multiset(qs)
    ensures forall p :: p in qs <==> p in ps
  {
    assert forall p :: p in ps <==> p in multiset(ps);
    assert forall p :: p in qs <==> p in multiset(qs);
  }

  /** Whatever is picked from the list, with repetition, gives one tree in any order. */
  ghost predicate OrderFree(paths: seq<Pattern>, fakers: Fakers) {
    forall ps: seq<Pattern>, qs: seq<Pattern>, j: Json ::
      (forall p :: p in ps ==> p in paths) && multiset(ps) == multiset(qs) ==> RewriteAll(j, ps, fakers) == RewriteAll(j, qs, fakers)
  }

  /** Wherever one path of the list ends on another, their fakers agree at every value. */
  ghost predicate ValuesAgree(paths: seq<Pattern>, fakers: Fakers) {
    forall p, q, v :: p in paths && q in paths && EndsOn(p, q) ==> AgreeAtValue(v, fakers(p), From(p, q), fakers(q))
  }

  lemma PairsCommuteIffValuesAgree(paths: seq<Pattern>, fakers: Fakers)
    ensures PairsCommute(paths, fakers) <==> ValuesAgree(paths, fakers)
  {
    hide AgreeAtValue, EndsOn;
    if PairsCommute(paths, fakers) {
      forall p, q, v | p in paths && q in paths && EndsOn(p, q) ensures AgreeAtValue(v, fakers(p), From(p, q), fakers(q)) {
        RelatedPathsCommuteIff(p, fakers(p), q, fakers(q));
        assert forall j :: OrdersAgree(j, p, fakers(p), q, fakers(q));
      }
    }
    if ValuesAgree(paths, fakers) {
      forall p, q, j | p in paths && q in paths ensures OrdersAgree(j, p, fakers(p), q, fakers(q)) {
        if EndsOn(p, q) {
          RelatedPathsCommuteIff(p, fakers(p), q, fakers(q));
        } else if EndsOn(q, p) {
          RelatedPathsCommuteIff(q, fakers(q), p, fakers(p));
          assert OrdersAgree(j, q, fakers(q), p, fakers(p));
        } else {
          UnrelatedPathsCommute(j, p, fakers(p), q, fakers(q));
        }
      }
    }
  }

  lemma OrderFreePairsCommute(paths: seq<Pattern>, fakers: Fakers)
    requires OrderFree(paths, fakers)
    ensures PairsCommute(paths, fakers)
  {
    forall p, q, j | p in paths && q in paths ensures OrdersAgree(j, p, fakers(p), q, fakers(q)) {
      assert multiset([p, q]) == multiset([q, p]);
      assert forall x :: x in [p, q] ==> x in paths;
      TwoPaths(j, p, q, fakers);
      TwoPaths(j, q, p, fakers);
    }
  }

  /** A map of paths to fakers gives one result in every walking order, for every
      selection of its paths, if and only if wherever one path ends on another the two
      fakers agree at every value. */
  lemma OrderFreeIffValuesAgree(paths: seq<Pattern>, fakers: Fakers)
    ensures OrderFree(paths, fakers) <==> ValuesAgree(paths, fakers)
  {
    PairsCommuteIffValuesAgree(paths, fakers);
    if OrderFree(paths, fakers) {
      OrderFreePairsCommute(paths, fakers);
    }
    if PairsCommute(paths, fakers) {
      hide PairsCommute, ValuesAgree;
      forall ps: seq<Pattern>, qs: seq<Pattern>, j: Json |
        (forall p :: p in ps ==> p in paths) && multiset(ps) == multiset(qs)
        ensures RewriteAll(j, ps, fakers) == RewriteAll(j, qs, fakers)
      {
        Sublist(ps, paths, fakers);
        CommutingPathsPermute(j, ps, qs, fakers);
      }
    }
  }

  lemma Sublist(ps: seq<Pattern>, paths: seq<Pattern>, fakers: Fakers)
    requires PairsCommute(paths, fakers) && forall p :: p in ps ==> p in paths
    ensures PairsCommute(ps, fakers)
  {
  }
}
