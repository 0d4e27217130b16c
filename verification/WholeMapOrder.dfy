/** When a whole map of paths to fakers gives one tree in every order its paths are
    walked, exactly (faker.go:426-447, 449-516). */
module WholeMapOrder {
  import opened Options
  import opened JsonTree
  import opened PathPatterns
  import opened Sanitizer
  import opened FakingOrder

  /** The source's fakers: those that replace leaves only, and the fixed ones. */
  datatype PathFaker = Leaf(f: Json -> Json) | Fixed(value: Json)

  function Apply(k: PathFaker): Json -> Json {
    match k
    case Leaf(f) => f
    case Fixed(value) => FixedFaker(value)
  }

  type FakerMap = map<Pattern, PathFaker>

  function FakersOf(m: FakerMap): Fakers {
    p => if p in m then Apply(m[p]) else (v => v)
  }

  ghost predicate Proper(m: FakerMap) {
    forall p :: p in m && m[p].Leaf? ==> KeepsContainers(m[p].f)
  }

  /** An order in which the map may be walked. */
  predicate Walk(ps: seq<Pattern>, m: FakerMap) { multiset(ps) == multiset(m.Keys) }

  ghost predicate OneTree(m: FakerMap) {
    forall ps, qs, j :: Walk(ps, m) && Walk(qs, m) ==> RewriteAll(j, ps, FakersOf(m)) == RewriteAll(j, qs, FakersOf(m))
  }

  /** `q` is another path of the map, with a fixed value, that `r` goes through. */
  predicate FixedAbove(m: FakerMap, q: Pattern, r: Pattern) {
    q in m && m[q].Fixed? && q != r && EndsOn(q, r)
  }

  /** A fixed path with no other fixed path above it. */
  ghost predicate Top(m: FakerMap, p: Pattern) {
    p in m && m[p].Fixed? && forall q :: !FixedAbove(m, q, p)
  }

  /** What `r` makes of the value planted at `p`. */
  function Onto(m: FakerMap, p: Pattern, r: Pattern): Json
    requires p in m && m[p].Fixed? && r in m && EndsOn(p, r)
  {
    RewriteChild(m[p].value, From(p, r), Apply(m[r]))
  }

  /** No longer path changes the value of a top fixed path. */
  ghost predicate TopsUndisturbed(m: FakerMap) {
    forall p, r :: Top(m, p) && r in m && r != p && EndsOn(p, r) ==> Onto(m, p, r) == m[p].value
  }

  // ----- which paths end on which -----

  lemma EndsOnChain(p: Pattern, q: Pattern, r: Pattern)
    requires EndsOn(q, r) && EndsOn(p, r) && |p| <= |q|
    ensures EndsOn(p, q)
  {
    assert q[..|q| - 1][..|p| - 1] == r[..|q| - 1][..|p| - 1];
    if |p| < |q| {
      assert q[|p| - 1] == q[..|q| - 1][|p| - 1] == r[..|q| - 1][|p| - 1] == r[|p| - 1];
    }
  }

  lemma EndsOnTransitive(p: Pattern, q: Pattern, r: Pattern)
    requires EndsOn(p, q) && EndsOn(q, r)
    ensures EndsOn(p, r)
  {
    assert q[..|q| - 1][..|p| - 1] == r[..|q| - 1][..|p| - 1];
    if |p| < |q| {
      assert q[|p| - 1] == q[..|q| - 1][|p| - 1] == r[..|q| - 1][|p| - 1] == r[|p| - 1];
    }
  }

  lemma EndsOnMutual(p: Pattern, q: Pattern)
    requires EndsOn(p, q) && EndsOn(q, p)
    ensures p == q
  {
    assert p == p[..|p| - 1] + [p[|p| - 1]] && q == q[..|q| - 1] + [q[|q| - 1]];
  }

  /** Below a fixed path is below a top one. */
  lemma {:induction false} TopAbove(m: FakerMap, q: Pattern, r: Pattern) returns (p: Pattern)
    requires FixedAbove(m, q, r)
    ensures Top(m, p) && FixedAbove(m, p, r) && EndsOn(p, q)
    decreases |q|
  {
    if x :| FixedAbove(m, x, q) {
      EndsOnTransitive(x, q, r);
      if |x| == |q| || x == r { EndsOnChain(q, x, r); EndsOnMutual(x, q); }
      p := TopAbove(m, x, r);
      EndsOnTransitive(p, x, q);
    } else {
      p := q;
      assert EndsOn(q, q);
    }
  }

  // ----- enough: paths below a top one make no difference -----

  /** A leaf faker commutes with any path that goes on below it. */
  lemma LeafCommutesBelow(j: Json, p: Pattern, f: Json -> Json, q: Pattern, g: Json -> Json)
    requires EndsOn(p, q) && p != q && KeepsContainers(f)
    ensures OrdersAgree(j, p, f, q, g)
  {
    var rest := From(p, q);
    assert |rest| > 1 || rest[0].wildcard by {
      if |rest| == 1 && !rest[0].wildcard {
        assert EndsOn(q, p) by { assert q[|q| - 1] == rest[0]; }
        EndsOnMutual(p, q);
      }
    }
    forall v ensures AgreeAtValue(v, f, rest, g) {
      RewriteKeepsKind(v, rest[1..], g);
      RewriteKeepsKind(f(v), rest[1..], g);
    }
    AgreeingValuesAgree(j, p, f, q, g);
  }

  /** A top path may change places with every path of the map. */
  lemma TopCommutes(m: FakerMap, p: Pattern, x: Pattern, j: Json)
    requires Proper(m) && TopsUndisturbed(m) && Top(m, p) && x in m
    ensures OrdersAgree(j, p, Apply(m[p]), x, Apply(m[x]))
  {
    var f, g := Apply(m[p]), Apply(m[x]);
    if x != p {
      if EndsOn(p, x) {
        assert Onto(m, p, x) == m[p].value;
        FixedFakerCommutesIff(p, m[p].value, x, g);
      } else if EndsOn(x, p) {
        assert !FixedAbove(m, x, p);
        LeafCommutesBelow(j, x, g, p, f);
        assert OrdersAgree(j, x, g, p, f);
      } else {
        UnrelatedPathsCommute(j, p, f, x, g);
      }
    }
  }

  /** Whatever a longer path did, the fixed value overwrites it. */
  lemma {:induction false} FixedOverwrites(j: Json, p: Pattern, value: Json, r: Pattern, g: Json -> Json)
    requires EndsOn(p, r)
    ensures RewriteAt(RewriteAt(j, r, g), p, FixedFaker(value)) == RewriteAt(j, p, FixedFaker(value))
    decreases |p|
  {
    if j.Obj? && p[0].key in j.fields {
      var f, v, key := FixedFaker(value), j.fields[p[0].key], p[0].key;
      var x := RewriteChild(v, r, g);
      if |p| == 1 {
      } else {
        EndsOnTails(p, r);
        if !p[0].wildcard {
          FixedOverwrites(v, p[1..], value, r[1..], g);
        } else if v.Arr? {
          forall i | 0 <= i < |v.elems|
            ensures RewriteAt(RewriteAt(v.elems[i], r[1..], g), p[1..], f) == RewriteAt(v.elems[i], p[1..], f)
          {
            FixedOverwrites(v.elems[i], p[1..], value, r[1..], g);
          }
          assert RewriteEach(RewriteEach(v.elems, r[1..], g), p[1..], f) == RewriteEach(v.elems, p[1..], f);
        }
      }
      assert RewriteChild(x, p, f) == RewriteChild(v, p, f);
      OverwrittenField(j, p, f, r, g);
    }
  }

  lemma OverwrittenField(j: Json, p: Pattern, f: Json -> Json, r: Pattern, g: Json -> Json)
    requires p != [] && r != [] && p[0].key == r[0].key && j.Obj? && p[0].key in j.fields
    requires var v := j.fields[p[0].key]; RewriteChild(RewriteChild(v, r, g), p, f) == RewriteChild(v, p, f)
    ensures RewriteAt(RewriteAt(j, r, g), p, f) == RewriteAt(j, p, f)
  {
    var m, key := j.fields, p[0].key;
    var x := RewriteChild(m[key], r, g);
    hide RewriteAt, RewriteChild;
    RewriteIsFieldUpdate(j, r, g);
    RewriteIsFieldUpdate(j, p, f);
    RewriteIsFieldUpdate(Obj(m[key := x]), p, f);
    var mx: map<string, Json> := m[key := x];
    var z := RewriteChild(m[key], p, f);
    assert mx[key := z] == m[key := z];
  }

  /** Behind a top path, a path below it does nothing. */
  lemma BelowTopIsIdle(m: FakerMap, p: Pattern, r: Pattern, j: Json)
    requires Proper(m) && TopsUndisturbed(m) && Top(m, p) && r in m && FixedAbove(m, p, r)
    ensures var j' := RewriteAt(j, p, Apply(m[p])); RewriteAt(j', r, Apply(m[r])) == j'
  {
    TopCommutes(m, p, r, j);
    FixedOverwrites(j, p, m[p].value, r, Apply(m[r]));
  }

  predicate Within(ps: seq<Pattern>, m: FakerMap) { forall p :: p in ps ==> p in m }

  /** The list without its element at `i`. */
  function Without<T>(ps: seq<T>, i: nat): (r: seq<T>)
    requires i < |ps|
    ensures |r| == |ps| - 1
    decreases i
  {
    if i == 0 then ps[1..] else [ps[0]] + Without(ps[1..], i - 1)
  }

  lemma WithoutNext<T>(ps: seq<T>, i: nat)
    requires 0 < i < |ps|
    ensures var less := Without(ps, i); less != [] && less[0] == ps[0] && less[1..] == Without(ps[1..], i - 1)
  {
  }

  /** A top path may be walked first. */
  lemma {:induction false} TopFirst(m: FakerMap, p: Pattern, j: Json, ps: seq<Pattern>, i: nat)
    requires Proper(m) && TopsUndisturbed(m) && Top(m, p) && Within(ps, m) && i < |ps| && ps[i] == p
    ensures RewriteAll(j, ps, FakersOf(m)) == RewriteAll(RewriteAt(j, p, Apply(m[p])), Without(ps, i), FakersOf(m))
    decreases i
  {
    if i > 0 {
      var x := ps[0];
      assert x in ps && Within(ps[1..], m);
      TopCommutes(m, p, x, j);
      hide Proper, TopsUndisturbed, RewriteAt, Without;
      TopFirst(m, p, RewriteAt(j, x, Apply(m[x])), ps[1..], i - 1);
      WithoutNext(ps, i);
    }
  }

  /** Behind a top path, one below it may be left out. */
  lemma {:induction false} LeaveOutBehind(m: FakerMap, p: Pattern, r: Pattern, j: Json, ps: seq<Pattern>, i: nat)
    requires Proper(m) && TopsUndisturbed(m) && Top(m, p) && r in m && FixedAbove(m, p, r)
    requires Within(ps, m) && i < |ps| && ps[i] == r
    ensures var j' := RewriteAt(j, p, Apply(m[p]));
      RewriteAll(j', ps, FakersOf(m)) == RewriteAll(j', Without(ps, i), FakersOf(m))
    decreases i
  {
    if i == 0 {
      BelowTopIsIdle(m, p, r, j);
    } else {
      var x := ps[0];
      assert x in ps && Within(ps[1..], m);
      TopCommutes(m, p, x, j);
      hide Proper, TopsUndisturbed, RewriteAt, Without, FixedAbove;
      LeaveOutBehind(m, p, r, RewriteAt(j, x, Apply(m[x])), ps[1..], i - 1);
      WithoutNext(ps, i);
    }
  }

  lemma {:induction false} StillWithin(ps: seq<Pattern>, i: nat, m: FakerMap)
    requires Within(ps, m) && i < |ps|
    ensures Within(Without(ps, i), m)
    decreases i
  {
    assert Within(ps[1..], m) && ps[0] in ps;
    if i > 0 { StillWithin(ps[1..], i - 1, m); }
  }

  lemma AboveFacts(m: FakerMap, p: Pattern, r: Pattern)
    requires FixedAbove(m, p, r)
    ensures p in m && m[p].Fixed? && p != r && EndsOn(p, r) && EndsOn(p, p) && p != [] && !p[|p| - 1].wildcard
  {
  }

  /** A path below a top one may be left out of a walk that holds both. */
  lemma LeaveOut(m: FakerMap, p: Pattern, r: Pattern, j: Json, ps: seq<Pattern>, i: nat)
    requires Proper(m) && TopsUndisturbed(m) && Top(m, p) && r in m && FixedAbove(m, p, r)
    requires Within(ps, m) && i < |ps| && ps[i] == r && p in ps
    ensures RewriteAll(j, ps, FakersOf(m)) == RewriteAll(j, Without(ps, i), FakersOf(m))
  {
    AboveFacts(m, p, r);
    hide *;
    var k :| 0 <= k < |ps| && ps[k] == p;
    var k', i' := if k < i then k else k - 1, if i < k then i else i - 1;
    StillWithin(ps, i, m);
    StillWithin(ps, k, m);
    StillAt(ps, i, k);
    StillAt(ps, k, i);
    TakeBothOut(ps, i, k);
    TopFirst(m, p, j, ps, k);
    TopFirst(m, p, j, Without(ps, i), k');
    LeaveOutBehind(m, p, r, j, Without(ps, k), i');
  }

  lemma {:induction false} StillAt<T>(ps: seq<T>, i: nat, k: nat)
    requires i < |ps| && k < |ps| && i != k
    ensures var k' := if k < i then k else k - 1; k' < |ps| - 1 && Without(ps, i)[k'] == ps[k]
    decreases i
  {
    if i > 0 && k > 0 { StillAt(ps[1..], i - 1, k - 1); }
  }

  lemma TakeBothOut<T>(ps: seq<T>, i: nat, k: nat)
    requires i < |ps| && k < |ps| && i != k
    ensures Without(Without(ps, k), if i < k then i else i - 1) == Without(Without(ps, i), if k < i then k else k - 1)
  {
    if i < k { TakeLaterOut(ps, i, k); } else { TakeLaterOut(ps, k, i); }
  }

  lemma {:induction false} TakeLaterOut<T>(ps: seq<T>, lo: nat, hi: nat)
    requires lo < hi < |ps|
    ensures Without(Without(ps, hi), lo) == Without(Without(ps, lo), hi - 1)
    decreases lo
  {
    WithoutNext(ps, hi);
    if lo > 0 {
      WithoutNext(ps, lo);
      TakeLaterOut(ps[1..], lo - 1, hi - 1);
    }
  }

  /** The map without a path below a fixed one. */
  lemma TopsStay(m: FakerMap, r: Pattern)
    requires Proper(m) && TopsUndisturbed(m) && r in m && !Top(m, r)
    requires exists q :: FixedAbove(m, q, r)
    ensures Proper(m - {r}) && TopsUndisturbed(m - {r})
  {
    var less := m - {r};
    forall p | Top(less, p) ensures Top(m, p) {
      if q :| FixedAbove(m, q, p) {
        assert q == r by { assert !FixedAbove(less, q, p); }
        var x :| FixedAbove(m, x, r);
        EndsOnTransitive(x, r, p);
        if x == p { EndsOnMutual(p, r); }
        assert FixedAbove(less, x, p);
      }
    }
    forall p, x | Top(less, p) && x in less && x != p && EndsOn(p, x) ensures Onto(less, p, x) == less[p].value {
      assert Onto(m, p, x) == m[p].value;
    }
  }

  lemma WalkMembers(ps: seq<Pattern>, m: FakerMap)
    requires Walk(ps, m)
    ensures forall p :: p in ps <==> p in m
    ensures |ps| == |m|
  {
    assert forall p :: p in ps <==> p in multiset(ps);
    assert forall p :: p in multiset(m.Keys) <==> p in m.Keys;
    assert |multiset(ps)| == |multiset(m.Keys)|;
  }

  lemma SameWalk(m: FakerMap, less: FakerMap, ps: seq<Pattern>, j: Json)
    requires Within(ps, less) && forall p :: p in less ==> p in m && m[p] == less[p]
    ensures RewriteAll(j, ps, FakersOf(m)) == RewriteAll(j, ps, FakersOf(less))
    decreases |ps|
  {
    if ps != [] {
      assert ps[0] in ps;
      SameWalk(m, less, ps[1..], RewriteAt(j, ps[0], FakersOf(m)(ps[0])));
    }
  }

  lemma {:induction false} WithoutMembers<T>(ps: seq<T>, i: nat)
    requires i < |ps|
    ensures multiset(Without(ps, i)) == multiset(ps) - multiset{ps[i]}
    decreases i
  {
    assert ps == [ps[0]] + ps[1..];
    if i > 0 { WithoutMembers(ps[1..], i - 1); }
  }

  lemma WalkWithout(m: FakerMap, ps: seq<Pattern>, i: nat)
    requires Walk(ps, m) && i < |ps|
    ensures ps[i] in m && Walk(Without(ps, i), m - {ps[i]})
  {
    WithoutMembers(ps, i);
    WalkMembers(ps, m);
    assert multiset((m - {ps[i]}).Keys) == multiset(m.Keys) - multiset{ps[i]};
  }

  /** With no fixed path above another path, all paths commute. */
  lemma FlatMapsCommute(m: FakerMap, ps: seq<Pattern>)
    requires Proper(m) && Within(ps, m) && forall q, r :: !FixedAbove(m, q, r) || r !in m
    ensures PairsCommute(ps, FakersOf(m))
  {
    forall p, q, j | p in ps && q in ps
      ensures OrdersAgree(j, p, FakersOf(m)(p), q, FakersOf(m)(q))
    {
      var f, g := Apply(m[p]), Apply(m[q]);
      assert !FixedAbove(m, p, q) && !FixedAbove(m, q, p);
      if p == q {
      } else if EndsOn(p, q) {
        LeafCommutesBelow(j, p, f, q, g);
      } else if EndsOn(q, p) {
        LeafCommutesBelow(j, q, g, p, f);
        assert OrdersAgree(j, q, g, p, f);
      } else {
        UnrelatedPathsCommute(j, p, f, q, g);
      }
    }
  }

  lemma {:induction false} UndisturbedWalksAgree(m: FakerMap, ps: seq<Pattern>, qs: seq<Pattern>, j: Json)
    requires Proper(m) && TopsUndisturbed(m) && Walk(ps, m) && Walk(qs, m)
    ensures RewriteAll(j, ps, FakersOf(m)) == RewriteAll(j, qs, FakersOf(m))
    decreases |ps|
  {
    WalkMembers(ps, m);
    WalkMembers(qs, m);
    if q, r :| r in m && FixedAbove(m, q, r) {
      assert !Top(m, r);
      hide RewriteAll, RewriteAt, FixedAbove, Top, TopsUndisturbed, Proper, Walk;
      var p := TopAbove(m, q, r);
      AboveFacts(m, p, r);
      var i :| 0 <= i < |ps| && ps[i] == r;
      var k :| 0 <= k < |qs| && qs[k] == r;
      LeaveOut(m, p, r, j, ps, i);
      LeaveOut(m, p, r, j, qs, k);
      TopsStay(m, r);
      WalkWithout(m, ps, i);
      WalkWithout(m, qs, k);
      var less := m - {r};
      WalkMembers(Without(ps, i), less);
      WalkMembers(Without(qs, k), less);
      SameWalk(m, less, Without(ps, i), j);
      SameWalk(m, less, Without(qs, k), j);
      UndisturbedWalksAgree(less, Without(ps, i), Without(qs, k), j);
    } else {
      FlatMapsCommute(m, ps);
      CommutingPathsPermute(j, ps, qs, FakersOf(m));
    }
  }

  // ----- needed: a path that disturbs a top value shows -----

  /** A path that does not end below `p`, and keeps containers if it ends above, finds
      nothing to do in the smallest tree of `p`. */
  lemma {:induction false} BearingIsPassed(p: Pattern, v: Json, x: Pattern, g: Json -> Json)
    requires p != [] && !EndsOn(p, x) && (EndsOn(x, p) ==> KeepsContainers(g)) && !p[|p| - 1].wildcard
    ensures RewriteAt(Bearing(p, v), x, g) == Bearing(p, v)
    decreases |p|
  {
    if x != [] && x[0].key == p[0].key {
      var b := Bearing(p, v);
      RewriteIsFieldUpdate(b, x, g);
      assert |p| == 1 ==> x[0].wildcard || EndsOn(p, x) by { assert p[..0] == x[..0]; }
      assert |x| == 1 && !x[0].wildcard ==> EndsOn(x, p) by { assert p[..0] == x[..0]; }
      var old_ := b.fields[p[0].key];
      assert b.fields[p[0].key := old_] == b.fields;
      if |p| > 1 && |x| > 1 {
        EndsOnTails(p, x);
        EndsOnTails(x, p);
        if p[0] == x[0] {
          BearingIsPassed(p[1..], v, x[1..], g);
          RewriteSingle(Bearing(p[1..], v), x[1..], g);
        }
      }
    }
  }

  /** Every path keeps the smallest tree of a top path to that form. */
  lemma {:induction false} WalkKeepsBearing(m: FakerMap, p: Pattern, v: Json, ps: seq<Pattern>) returns (w: Json)
    requires Proper(m) && Top(m, p) && Within(ps, m) && p != [] && !p[|p| - 1].wildcard
    ensures RewriteAll(Bearing(p, v), ps, FakersOf(m)) == Bearing(p, w)
    decreases |ps|
  {
    w := v;
    if ps != [] {
      var x := ps[0];
      var g := Apply(m[x]);
      assert x in ps && Within(ps[1..], m);
      if EndsOn(p, x) {
        RewriteOfBearing(p, x, g, v);
        w := WalkKeepsBearing(m, p, RewriteChild(v, From(p, x), g), ps[1..]);
      } else {
        assert !FixedAbove(m, x, p) && x != p;
        BearingIsPassed(p, v, x, g);
        w := WalkKeepsBearing(m, p, v, ps[1..]);
      }
    }
  }

  /** A location shows the first segment of a path that matches it. */
  lemma FirstSegment(l: Path, p: Pattern)
    requires p != [] && Matches(l, p)
    ensures l != [] && l[0] == Key(p[0].key)
    ensures p[0].wildcard <==> |l| > 1 && l[1].Index?
    ensures var n := if p[0].wildcard then 2 else 1; n <= |l| && Matches(l[n..], p[1..])
  {
    if !p[0].wildcard && |l| > 1 && p[1..] != [] {
      assert l[1..][0] == l[1];
    }
  }

  /** A location tells which path matches it. */
  lemma {:induction false} LocationOfOnePath(l: Path, p: Pattern, q: Pattern)
    requires Matches(l, p) && Matches(l, q)
    ensures p == q
    decreases |p|
  {
    if p != [] && q != [] {
      FirstSegment(l, p);
      FirstSegment(l, q);
      LocationOfOnePath(l[if p[0].wildcard then 2 else 1..], p[1..], q[1..]);
      assert p == [p[0]] + p[1..] && q == [q[0]] + q[1..];
    }
  }

  lemma EndsOnFirst(x: Pattern, r: Pattern)
    requires |x| == 1 && r != [] && !x[0].wildcard && r[0].key == x[0].key
    ensures EndsOn(x, r)
  {
    assert x[..0] == r[..0];
  }

  /** A path that matches a prefix of a location of `r` ends on `r`. */
  lemma {:induction false} PrefixEndsOn(l: Path, i: nat, x: Pattern, r: Pattern)
    requires i <= |l| && Matches(l[..i], x) && Matches(l, r) && x != [] && !EndsInWildcard(x)
    ensures EndsOn(x, r)
    decreases |x|
  {
    hide EndsOn;
    FirstSegment(l[..i], x);
    FirstSegment(l, r);
    if |x| == 1 {
      EndsOnFirst(x, r);
    } else {
      var n := if x[0].wildcard then 2 else 1;
      assert l[..i][n..] == l[n..][..i - n];
      FirstSegment(l[n..][..i - n], x[1..]);
      assert n < i && l[n] == l[n..][..i - n][0];
      PrefixEndsOn(l[n..], i - n, x[1..], r[1..]);
      EndsOnTails(x, r);
    }
  }

  /** A walk without fixed paths above `r`, and without `r`, keeps what there is to see
      at the locations of `r`. */
  lemma {:induction false} LocationIsKept(m: FakerMap, j: Json, l: Path, r: Pattern, ps: seq<Pattern>)
    requires Proper(m) && Within(ps, m) && Matches(l, r) && At(j, l).Some?
    requires forall x :: x in ps ==> x != r && !FixedAbove(m, x, r)
    ensures ShapeOf(At(RewriteAll(j, ps, FakersOf(m)), l)) == ShapeOf(At(j, l))
    ensures At(RewriteAll(j, ps, FakersOf(m)), l).Some?
    decreases |ps|
  {
    if ps != [] {
      var x := ps[0];
      assert x in ps && Within(ps[1..], m) && forall y :: y in ps[1..] ==> y in ps;
      LocationIsPassed(m, j, l, r, x);
      LocationIsKept(m, RewriteAt(j, x, Apply(m[x])), l, r, ps[1..]);
    }
  }

  lemma LocationIsPassed(m: FakerMap, j: Json, l: Path, r: Pattern, x: Pattern)
    requires Proper(m) && x in m && Matches(l, r) && At(j, l).Some? && x != r && !FixedAbove(m, x, r)
    ensures ShapeOf(At(RewriteAt(j, x, Apply(m[x])), l)) == ShapeOf(At(j, l))
    ensures At(RewriteAt(j, x, Apply(m[x])), l).Some?
  {
    var g := Apply(m[x]);
    var j' := RewriteAt(j, x, g);
    if x == [] {
    } else if EndsInWildcard(x) {
      WildcardLeafIsInert(j, x, g);
    } else if !Covers(x, l) {
      RewriteOutside(j, x, g, l);
    } else {
      CoversIffPrefixMatches(x, l);
      var i :| 0 <= i <= |l| && Matches(l[..i], x);
      PrefixEndsOn(l, i, x, r);
      if i == |l| {
        assert l[..i] == l;
        LocationOfOnePath(l, x, r);
      }
      RewriteInside(j, x, g, l[..i]);
      assert l == l[..i] + l[i..];
      AtConcat(j, l[..i], l[i..]);
      AtConcat(j', l[..i], l[i..]);
      var c := At(j, l[..i]).value;
      assert Child(c, l[i..][0]).Some?;
      assert IsContainer(c) && g(c) == c;
    }
  }

  /** Where a path that changes a tree can be seen to do so. */
  lemma ChangeShows(j: Json, r: Pattern, f: Json -> Json) returns (l: Path)
    requires RewriteAt(j, r, f) != j
    ensures Matches(l, r) && At(j, l).Some? && f(At(j, l).value) != At(j, l).value && !EndsInWildcard(r) && r != []
  {
    assert r != [];
    hide RewriteAt, At, ShapeOf, Covers, Matches;
    var j' := RewriteAt(j, r, f);
    if forall p: Path :: ShapeOf(At(j, p)) == ShapeOf(At(j', p)) {
      ShapesDetermineTree(j, j');
    }
    var p: Path :| ShapeOf(At(j, p)) != ShapeOf(At(j', p));
    if EndsInWildcard(r) { WildcardLeafIsInert(j, r, f); }
    if !Covers(r, p) { RewriteOutside(j, r, f, p); }
    CoversIffPrefixMatches(r, p);
    var i :| 0 <= i <= |p| && Matches(p[..i], r);
    l := p[..i];
    RewriteInside(j, r, f, l);
    assert p == l + p[i..];
    AtConcat(j, l, p[i..]);
    AtConcat(j', l, p[i..]);
  }

  /** The last path of a walk shows at its own locations. */
  lemma LastOneShows(m: FakerMap, j: Json, s: Json, r: Pattern, l: Path)
    requires Proper(m) && r in m && r != [] && !EndsInWildcard(r) && Matches(l, r)
    requires At(j, l).Some? && ShapeOf(At(s, l)) == ShapeOf(At(j, l))
    requires Apply(m[r])(At(j, l).value) != At(j, l).value
    ensures RewriteAt(s, r, Apply(m[r])) != j
  {
    RewriteInside(s, r, Apply(m[r]), l);
    var v, u := At(j, l).value, At(s, l).value;
    assert m[r].Leaf? ==> !IsContainer(v) && u == v;
  }

  lemma {:induction false} RewriteAllThen(j: Json, ps: seq<Pattern>, x: Pattern, fakers: Fakers)
    ensures RewriteAll(j, ps + [x], fakers) == RewriteAt(RewriteAll(j, ps, fakers), x, fakers(x))
    decreases |ps|
  {
    if ps == [] {
      assert [x][1..] == [] && [] + [x] == [x];
    } else {
      assert (ps + [x])[1..] == ps[1..] + [x];
      RewriteAllThen(RewriteAt(j, ps[0], fakers(ps[0])), ps[1..], x, fakers);
    }
  }

  lemma {:induction false} SomeWalk(m: FakerMap) returns (ps: seq<Pattern>)
    ensures Walk(ps, m)
    decreases |m|
  {
    if m == map[] {
      ps := [];
    } else {
      var p :| p in m;
      var less := m - {p};
      assert less.Keys == m.Keys - {p};
      var rest := SomeWalk(less);
      ps := rest + [p];
    }
  }

  /** A walk with `x` at the end, and one with `x` in front. */
  lemma WalkWith(m: FakerMap, x: Pattern, rest: seq<Pattern>)
    requires x in m && Walk(rest, m - {x})
    ensures Walk(rest + [x], m) && Walk([x] + rest, m)
    ensures Within(rest, m) && x !in rest
  {
    WalkMembers(rest, m - {x});
    assert multiset(m.Keys) == multiset((m - {x}).Keys) + multiset{x};
  }

  lemma Plants(p: Pattern, value: Json, w: Json)
    requires EndsOn(p, p)
    ensures RewriteAt(Bearing(p, w), p, FixedFaker(value)) == Bearing(p, value)
  {
    RewriteOfBearing(p, p, FixedFaker(value), w);
    assert From(p, p) == [p[|p| - 1]];
  }

  lemma RewriteAllFirst(j: Json, x: Pattern, ps: seq<Pattern>, fakers: Fakers)
    ensures RewriteAll(j, [x] + ps, fakers) == RewriteAll(RewriteAt(j, x, fakers(x)), ps, fakers)
  {
    assert ([x] + ps)[1..] == ps;
  }

  lemma TopFacts(m: FakerMap, p: Pattern)
    requires Top(m, p) && EndsOn(p, p)
    ensures p in m && m[p].Fixed? && p != [] && !p[|p| - 1].wildcard
    ensures FakersOf(m)(p) == FixedFaker(m[p].value)
  {
  }

  lemma FakerOf(m: FakerMap, r: Pattern)
    requires r in m
    ensures FakersOf(m)(r) == Apply(m[r])
  {
  }

  lemma WalksAgree(m: FakerMap, ps: seq<Pattern>, qs: seq<Pattern>, j: Json)
    requires OneTree(m) && Walk(ps, m) && Walk(qs, m)
    ensures RewriteAll(j, ps, FakersOf(m)) == RewriteAll(j, qs, FakersOf(m))
  {
  }

  lemma WithinLarger(ps: seq<Pattern>, less: FakerMap, m: FakerMap)
    requires (forall p :: p in ps ==> p in less) && forall p :: p in less ==> p in m
    ensures Within(ps, m)
  {
  }

  /** With the top path last, its smallest tree comes out as planted; so with the top
      path first it does too. */
  lemma TopFirstMeansPlanted(m: FakerMap, p: Pattern, rest: seq<Pattern>)
    requires Proper(m) && Top(m, p) && EndsOn(p, p) && OneTree(m) && Walk(rest, m - {p})
    ensures var j := Bearing(p, m[p].value); RewriteAll(j, rest, FakersOf(m)) == j
  {
    TopFacts(m, p);
    hide *;
    var v := m[p].value;
    var j := Bearing(p, v);
    WalkWith(m, p, rest);
    var w := WalkKeepsBearing(m, p, v, rest);
    RewriteAllThen(j, rest, p, FakersOf(m));
    RewriteAllFirst(j, p, rest, FakersOf(m));
    Plants(p, v, w);
    Plants(p, v, v);
    WalksAgree(m, rest + [p], [p] + rest, j);
  }

  /** A longer path changes the smallest tree of `p` if and only if it changes what `p` plants. */
  lemma DisturbanceShows(m: FakerMap, p: Pattern, r: Pattern)
    requires p in m && m[p].Fixed? && r in m && EndsOn(p, r)
    ensures var j := Bearing(p, m[p].value); RewriteAt(j, r, Apply(m[r])) == j <==> Onto(m, p, r) == m[p].value
  {
    var v := m[p].value;
    RewriteOfBearing(p, r, Apply(m[r]), v);
    if Bearing(p, Onto(m, p, r)) == Bearing(p, v) { BearingIsInjective(p, Onto(m, p, r), v); }
  }

  /** If nothing fixed but `p` is above `r`, and `r` changes what `p` plants, it shows. */
  lemma NextBelowShows(m: FakerMap, p: Pattern, r: Pattern)
    requires Proper(m) && Top(m, p) && r in m && FixedAbove(m, p, r)
    requires forall x :: FixedAbove(m, x, r) ==> x == p
    requires Onto(m, p, r) != m[p].value
    ensures !OneTree(m)
  {
    AboveFacts(m, p, r);
    hide *;
    if OneTree(m) {
      var j := Bearing(p, m[p].value);
      var rest := SomeWalk(m - {p} - {r});
      WalkWith(m - {p}, r, rest);
      WalkMembers(rest, m - {p} - {r});
      WithinLarger(rest, m - {p} - {r}, m);
      TopFirstMeansPlanted(m, p, rest + [r]);
      RewriteAllThen(j, rest, r, FakersOf(m));
      FakerOf(m, r);
      DisturbanceShows(m, p, r);
      var l := ChangeShows(j, r, Apply(m[r]));
      LocationIsKept(m, j, l, r, rest);
      LastOneShows(m, j, RewriteAll(j, rest, FakersOf(m)), r, l);
    }
  }

  /** A location of `r` goes through one of a path that `r` goes through. */
  lemma {:induction false} LocationAbove(l: Path, t: Pattern, r: Pattern) returns (i: nat)
    requires EndsOn(t, r) && Matches(l, r)
    ensures i <= |l| && Matches(l[..i], t)
    decreases |t|
  {
    FirstSegment(l, r);
    var n := if r[0].wildcard then 2 else 1;
    if |t| == 1 {
      i := 1;
      assert t == [t[0]];
    } else {
      EndsOnTails(t, r);
      var k := LocationAbove(l[n..], t[1..], r[1..]);
      i := n + k;
      assert l[..i][n..] == l[n..][..k];
    }
  }

  /** A fixed path below the top one that changes nothing restores what it plants. */
  lemma FixedRestores(m: FakerMap, j: Json, s: Json, t: Pattern, r: Pattern, l: Path, i: nat)
    requires t in m && m[t].Fixed? && EndsOn(t, t) && i <= |l| && Matches(l[..i], t)
    requires RewriteAt(j, t, Apply(m[t])) == j && At(j, l).Some? && At(s, l[..i]).Some?
    ensures At(RewriteAt(s, t, Apply(m[t])), l) == At(j, l)
  {
    var f := Apply(m[t]);
    RewriteInside(j, t, f, l[..i]);
    RewriteInside(s, t, f, l[..i]);
    assert l == l[..i] + l[i..];
    AtConcat(j, l[..i], l[i..]);
    AtConcat(RewriteAt(s, t, f), l[..i], l[i..]);
  }

  /** The top path first, then `rest`, `t` and `r`: the planted tree comes out. */
  lemma FarWalk(m: FakerMap, p: Pattern, t: Pattern, r: Pattern, rest: seq<Pattern>)
    requires Proper(m) && Top(m, p) && EndsOn(p, p) && OneTree(m)
    requires t in m && r in m && t != p && r != p && t != r && Walk(rest, m - {p} - {r} - {t})
    ensures var j := Bearing(p, m[p].value);
      RewriteAt(RewriteAt(RewriteAll(j, rest, FakersOf(m)), t, Apply(m[t])), r, Apply(m[r])) == j
  {
    TopFacts(m, p);
    hide *;
    var j := Bearing(p, m[p].value);
    WalkWith(m - {p} - {r}, t, rest);
    WalkWith(m - {p}, r, rest + [t]);
    TopFirstMeansPlanted(m, p, rest + [t] + [r]);
    RewriteAllThen(j, rest, t, FakersOf(m));
    RewriteAllThen(j, rest + [t], r, FakersOf(m));
    FakerOf(m, r);
    FakerOf(m, t);
  }

  /** The same with a fixed path between that changes nothing. */
  lemma FarBelowShows(m: FakerMap, p: Pattern, t: Pattern, r: Pattern)
    requires Proper(m) && Top(m, p) && r in m && FixedAbove(m, p, r) && FixedAbove(m, t, r) && FixedAbove(m, p, t)
    requires forall x :: FixedAbove(m, x, t) ==> x == p
    requires Onto(m, p, t) == m[p].value && Onto(m, p, r) != m[p].value
    ensures !OneTree(m)
  {
    AboveFacts(m, p, r);
    AboveFacts(m, p, t);
    AboveFacts(m, t, r);
    hide *;
    if OneTree(m) {
      var j := Bearing(p, m[p].value);
      var rest := SomeWalk(m - {p} - {r} - {t});
      WalkMembers(rest, m - {p} - {r} - {t});
      WithinLarger(rest, m - {p} - {r} - {t}, m);
      FarWalk(m, p, t, r, rest);
      DisturbanceShows(m, p, t);
      DisturbanceShows(m, p, r);
      RestoredThenChanged(m, j, t, r, rest);
    }
  }

  /** `t` restores what it stands for, and `r` then changes it for good. */
  lemma RestoredThenChanged(m: FakerMap, j: Json, t: Pattern, r: Pattern, rest: seq<Pattern>)
    requires Proper(m) && t in m && m[t].Fixed? && EndsOn(t, r) && EndsOn(t, t) && r in m && Within(rest, m)
    requires forall x :: x in rest ==> x != t && !FixedAbove(m, x, t)
    requires RewriteAt(j, t, Apply(m[t])) == j && RewriteAt(j, r, Apply(m[r])) != j
    ensures RewriteAt(RewriteAt(RewriteAll(j, rest, FakersOf(m)), t, Apply(m[t])), r, Apply(m[r])) != j
  {
    hide *;
    var s := RewriteAll(j, rest, FakersOf(m));
    var l := ChangeShows(j, r, Apply(m[r]));
    var i := LocationAbove(l, t, r);
    assert At(j, l[..i]).Some? by {
      assert l == l[..i] + l[i..];
      AtConcat(j, l[..i], l[i..]);
    }
    LocationIsKept(m, j, l[..i], t, rest);
    FixedRestores(m, j, s, t, r, l, i);
    LastOneShows(m, j, RewriteAt(s, t, Apply(m[t])), r, l);
  }

  lemma DisturbedTopShows(m: FakerMap, p: Pattern, r: Pattern)
    requires Proper(m) && Top(m, p) && r in m && FixedAbove(m, p, r) && Onto(m, p, r) != m[p].value
    ensures !OneTree(m)
  {
    if q :| FixedAbove(m, q, r) && q != p {
      var less := m - {p};
      assert FixedAbove(less, q, r);
      var t := TopAbove(less, q, r);
      assert FixedAbove(m, t, r) && t != p;
      forall x | FixedAbove(m, x, t) ensures x == p {
        assert !FixedAbove(less, x, t);
      }
      if |t| <= |p| {
        EndsOnChain(t, p, r);
        assert FixedAbove(m, t, p);
      }
      EndsOnChain(p, t, r);
      assert FixedAbove(m, p, t);
      if Onto(m, p, t) != m[p].value {
        NextBelowShows(m, p, t);
      } else {
        FarBelowShows(m, p, t, r);
      }
    } else {
      NextBelowShows(m, p, r);
    }
  }

  /** A map of leaf and fixed fakers gives every body one tree, in whatever order its
      paths are walked, if and only if no longer path changes the value of a fixed path
      that has no other fixed path above it. */
  lemma OneTreeIffTopsUndisturbed(m: FakerMap)
    requires Proper(m)
    ensures OneTree(m) <==> TopsUndisturbed(m)
  {
    if TopsUndisturbed(m) {
      forall ps, qs, j | Walk(ps, m) && Walk(qs, m)
        ensures RewriteAll(j, ps, FakersOf(m)) == RewriteAll(j, qs, FakersOf(m))
      {
        UndisturbedWalksAgree(m, ps, qs, j);
      }
    } else {
      var p, r :| Top(m, p) && r in m && r != p && EndsOn(p, r) && Onto(m, p, r) != m[p].value;
      assert FixedAbove(m, p, r);
      DisturbedTopShows(m, p, r);
    }
  }

  // ----- witnesses -----

  /** A map that always gives one tree although its fakers disagree where one path ends
      on another: the fixed `$.r` overwrites the quarrel below it. */
  lemma OverwrittenQuarrel() returns (m: FakerMap, paths: seq<Pattern>)
    ensures Proper(m) && Walk(paths, m) && OneTree(m)
    ensures !ValuesAgree(paths, FakersOf(m)) && !OrderFree(paths, FakersOf(m))
  {
    var r, a, b := Segment("r", false), Segment("a", false), Segment("b", false);
    var planted := Obj(map["b" := Str("s")]);
    var short, middle, long := [r], [r, a], [r, a, b];
    assert |short| != |middle| && |middle| != |long| && |short| != |long|;
    paths := [short, middle, long];
    m := map[short := Fixed(Num(5.0)), middle := Fixed(planted), long := Leaf(RedactValue)];
    assert m.Keys == {short, middle, long};
    assert multiset(paths) == multiset(m.Keys);
    QuarrelMapIsUndisturbed(m, short, middle, long);
    OneTreeIffTopsUndisturbed(m);
    assert EndsOn(middle, long) by { assert middle[..1] == long[..1]; }
    assert From(middle, long) == [a, b];
    PlantedIsRedacted(planted, [a, b]);
    hide EndsOn, From, RewriteChild, OneTree, TopsUndisturbed;
    assert middle in paths && long in paths;
    assert !AgreeAtValue(planted, FakersOf(m)(middle), [a, b], FakersOf(m)(long));
    OrderFreeIffValuesAgree(paths, FakersOf(m));
  }

  lemma PlantedIsRedacted(planted: Json, rest: Pattern)
    requires planted == Obj(map["b" := Str("s")]) && |rest| == 2 && !rest[0].wildcard && rest[1] == Segment("b", false)
    ensures RewriteChild(planted, rest, RedactValue) != planted
  {
    assert rest[1..] == [rest[1]];
    assert RewriteChild(planted, rest, RedactValue).fields["b"] != planted.fields["b"];
  }

  lemma QuarrelMapIsUndisturbed(m: FakerMap, short: Pattern, middle: Pattern, long: Pattern)
    requires m.Keys == {short, middle, long} && |short| == 1 && |middle| == 2 && |long| == 3
    requires m[short] == Fixed(Num(5.0)) && m[middle].Fixed? && m[long] == Leaf(RedactValue)
    requires EndsOn(short, middle) && EndsOn(short, long)
    ensures Proper(m) && TopsUndisturbed(m)
  {
    assert FixedAbove(m, short, middle);
    forall p, q | Top(m, p) && q in m && q != p && EndsOn(p, q) ensures Onto(m, p, q) == m[p].value {
      assert p == short;
      RewriteKeepsKind(m[p].value, From(p, q)[1..], Apply(m[q]));
    }
  }
}
