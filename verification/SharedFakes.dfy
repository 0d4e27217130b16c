/** Fixed fakers hand out one object (faker.go:46-48), and the traversal writes into
    the tree in place (faker.go:483-516): trees that share the containers of fixed
    fakers, and when a configuration never changes them. */
module SharedFakes {
  import opened JsonTree
  import opened PathPatterns
  import opened Sanitizer
  import opened FakingOrder
  import opened WholeMapOrder

  /** A tree in memory; `Shared(p)` is the container the fixed faker of `p` holds. */
  datatype Tree = Plain(j: Json) | Node(fields: map<string, Tree>) | List(elems: seq<Tree>) | Shared(p: Pattern)

  /** What the fixed fakers hold at the moment. */
  type Heap = map<Pattern, Tree>

  function Lift(j: Json): Tree {
    match j
    case Obj(m) => Node(map k | k in m :: Lift(m[k]))
    case Arr(xs) => List(seq(|xs|, i requires 0 <= i < |xs| => Lift(xs[i])))
    case _ => Plain(j)
  }

  function Fresh(m: FakerMap): Heap { map p | p in m && m[p].Fixed? :: Lift(m[p].value) }

  // ----- the traversal in place -----

  /** What the faker of `r` puts in the place of a value. */
  function Plant(m: FakerMap, r: Pattern, val: Tree): Tree
    requires r in m
  {
    match m[r]
    case Leaf(f) => if val.Plain? then Plain(f(val.j)) else val
    case Fixed(v) => if IsContainer(v) then Shared(r) else Plain(v)
  }

  function Write(m: FakerMap, h: Heap, t: Tree, segs: Pattern, r: Pattern): (Heap, Tree)
    requires r in m
    decreases |segs|, 0, 3
  {
    if segs == [] then (h, t)
    else if t.Shared? then
      if t.p !in h then (h, t)
      else
        var (h1, c) := WriteNode(m, h, h[t.p], segs, r);
        (h1[t.p := c], t)
    else WriteNode(m, h, t, segs, r)
  }

  function WriteNode(m: FakerMap, h: Heap, t: Tree, segs: Pattern, r: Pattern): (Heap, Tree)
    requires r in m && segs != []
    decreases |segs|, 0, 2
  {
    if !t.Node? || segs[0].key !in t.fields then (h, t)
    else
      var (h1, x) := WriteChild(m, h, t.fields[segs[0].key], segs, r);
      (h1, Node(t.fields[segs[0].key := x]))
  }

  function WriteChild(m: FakerMap, h: Heap, val: Tree, segs: Pattern, r: Pattern): (Heap, Tree)
    requires r in m && segs != []
    decreases |segs|, 0, 1
  {
    var rest := segs[1..];
    if segs[0].wildcard then
      if rest == [] then (h, val)
      else if val.Shared? && val.p in h && h[val.p].List? then
        var (h1, ys) := WriteEach(m, h, h[val.p].elems, rest, r);
        (h1[val.p := List(ys)], val)
      else if val.List? then
        var (h1, ys) := WriteEach(m, h, val.elems, rest, r);
        (h1, List(ys))
      else (h, val)
    else if rest == [] then (h, Plant(m, r, val))
    else Write(m, h, val, rest, r)
  }

  function WriteEach(m: FakerMap, h: Heap, xs: seq<Tree>, segs: Pattern, r: Pattern): (Heap, seq<Tree>)
    requires r in m
    decreases |segs|, 1, |xs|
  {
    if xs == [] then (h, [])
    else
      var (h1, y) := Write(m, h, xs[0], segs, r);
      var (h2, ys) := WriteEach(m, h1, xs[1..], segs, r);
      (h2, [y] + ys)
  }

  function WriteAll(m: FakerMap, h: Heap, t: Tree, ps: seq<Pattern>): (Heap, Tree)
    requires Within(ps, m)
    decreases |ps|
  {
    if ps == [] then (h, t)
    else
      assert ps[0] in ps;
      var (h1, t1) := Write(m, h, t, ps[0], ps[0]);
      WriteAll(m, h1, t1, ps[1..])
  }

  /** The fakers' values after one body after the other. */
  function HeapAfter(m: FakerMap, h: Heap, bodies: seq<Json>, ps: seq<Pattern>): Heap
    requires Within(ps, m)
    decreases |bodies|
  {
    if bodies == [] then h else HeapAfter(m, WriteAll(m, h, Lift(bodies[0]), ps).0, bodies[1..], ps)
  }

  // ----- what a tree in memory stands for -----

  /** The tree reads as `j` as long as every faker holds its own value. */
  predicate Reads(m: FakerMap, t: Tree, j: Json) {
    match t
    case Plain(x) => j == x && !IsContainer(x)
    case Shared(p) => p in m && m[p].Fixed? && IsContainer(m[p].value) && j == m[p].value
    case Node(fields) => j.Obj? && fields.Keys == j.fields.Keys && forall k :: k in fields ==> Reads(m, fields[k], j.fields[k])
    case List(elems) => j.Arr? && |elems| == |j.elems| && forall i :: 0 <= i < |elems| ==> Reads(m, elems[i], j.elems[i])
  }

  /** Every fixed faker holds its own value. */
  predicate Intact(m: FakerMap, h: Heap) {
    forall p :: p in m && m[p].Fixed? ==> p in h && !h[p].Shared? && Reads(m, h[p], m[p].value)
  }

  lemma {:induction false} ReadsOneValue(m: FakerMap, t: Tree, j: Json, k: Json)
    requires Reads(m, t, j) && Reads(m, t, k)
    ensures j == k
    decreases t
  {
    match t
    case Node(fields) =>
      forall key | key in fields ensures j.fields[key] == k.fields[key] { ReadsOneValue(m, fields[key], j.fields[key], k.fields[key]); }
      assert j.fields == k.fields;
    case List(elems) =>
      forall i | 0 <= i < |elems| ensures j.elems[i] == k.elems[i] { ReadsOneValue(m, elems[i], j.elems[i], k.elems[i]); }
      assert j.elems == k.elems;
    case _ =>
  }

  /** The location of a path, with 0 for every index. */
  function Place(p: Pattern): Path {
    if p == [] then [] else [Key(p[0].key)] + (if p[0].wildcard then [Index(0)] else []) + Place(p[1..])
  }

  /** Shared containers stand where their fakers plant them. */
  predicate Placed(at: Path, t: Tree)
    decreases t
  {
    match t
    case Plain(_) => true
    case Shared(p) => at == Place(p) && EndsOn(p, p)
    case Node(fields) => forall k :: k in fields ==> Placed(at + [Key(k)], fields[k])
    case List(elems) => forall i :: 0 <= i < |elems| ==> Placed(at + [Index(0)], elems[i])
  }

  predicate Sound(m: FakerMap, h: Heap) {
    Intact(m, h) && forall p :: p in m && m[p].Fixed? ==> Placed(Place(p), h[p])
  }

  lemma {:induction false} LiftReads(m: FakerMap, j: Json, at: Path)
    ensures Reads(m, Lift(j), j) && Placed(at, Lift(j)) && !Lift(j).Shared?
    decreases j
  {
    match j
    case Obj(fields) =>
      forall k | k in fields ensures Reads(m, Lift(fields[k]), fields[k]) && Placed(at + [Key(k)], Lift(fields[k])) {
        LiftReads(m, fields[k], at + [Key(k)]);
      }
    case Arr(xs) =>
      forall i | 0 <= i < |xs| ensures Reads(m, Lift(xs[i]), xs[i]) && Placed(at + [Index(0)], Lift(xs[i])) {
        LiftReads(m, xs[i], at + [Index(0)]);
      }
    case _ =>
  }

  lemma FreshIsSound(m: FakerMap)
    ensures Sound(m, Fresh(m))
  {
    forall p | p in m && m[p].Fixed? ensures Reads(m, Fresh(m)[p], m[p].value) && Placed(Place(p), Fresh(m)[p]) && !Fresh(m)[p].Shared? {
      LiftReads(m, m[p].value, Place(p));
    }
  }

  lemma {:induction false} PlaceMatches(p: Pattern)
    ensures Matches(Place(p), p)
  {
    if p != [] {
      PlaceMatches(p[1..]);
      var n := if p[0].wildcard then 2 else 1;
      assert Place(p)[n..] == Place(p[1..]);
    }
  }

  lemma PlaceIsOnePath(p: Pattern, q: Pattern)
    requires Place(p) == Place(q)
    ensures p == q
  {
    PlaceMatches(p);
    PlaceMatches(q);
    LocationOfOnePath(Place(p), p, q);
  }

  lemma {:induction false} PlaceOfLonger(p: Pattern, s: Segment)
    ensures Place(p + [s]) == if s.wildcard then Place(p) + [Key(s.key)] + [Index(0)] else Place(p) + [Key(s.key)]
  {
    if p == [] {
      assert [s][1..] == [] && p + [s] == [s];
    } else {
      assert (p + [s])[1..] == p[1..] + [s];
      PlaceOfLonger(p[1..], s);
    }
  }

  // ----- fixed values that no longer path changes -----

  /** No longer path changes the value of any fixed path. */
  predicate Undisturbed(m: FakerMap) {
    forall p, r :: p in m && m[p].Fixed? && r in m && r != p && EndsOn(p, r) ==> Onto(m, p, r) == m[p].value
  }

  /** In a tree whose shared containers stand in their places. */
  ghost predicate Stands(m: FakerMap, at: Path, t: Tree, j: Json) { Reads(m, t, j) && Placed(at, t) }

  /** The rest of `r` from where the traversal stands. */
  predicate Ahead(m: FakerMap, done: Pattern, segs: Pattern, r: Pattern) { r in m && r == done + segs }

  lemma {:induction false} WriteKeepsSound(m: FakerMap, h: Heap, t: Tree, j: Json, done: Pattern, segs: Pattern, r: Pattern)
    requires Proper(m) && Undisturbed(m) && Ahead(m, done, segs, r) && Sound(m, h) && Stands(m, Place(done), t, j)
    ensures var (h1, t1) := Write(m, h, t, segs, r);
      Sound(m, h1) && Stands(m, Place(done), t1, RewriteAt(j, segs, Apply(m[r]))) && t1.Shared? == t.Shared?
    decreases |segs|, 0, 4
  {
    if segs != [] {
      if t.Shared? {
        PlaceIsOnePath(t.p, done);
        assert Reads(m, h[t.p], m[t.p].value) && Placed(Place(t.p), h[t.p]);
        WriteNodeKeepsSound(m, h, h[t.p], j, done, segs, r);
        BelowSharedIsIdle(m, done, segs, r);
      } else {
        WriteNodeKeepsSound(m, h, t, j, done, segs, r);
      }
    }
  }

  lemma BelowSharedIsIdle(m: FakerMap, done: Pattern, segs: Pattern, r: Pattern)
    requires Undisturbed(m) && Ahead(m, done, segs, r) && segs != [] && EndsOn(done, done) && done in m && m[done].Fixed?
    ensures RewriteAt(m[done].value, segs, Apply(m[r])) == m[done].value
  {
    assert done[..|done| - 1] == r[..|done| - 1] && r[|done| - 1] == done[|done| - 1];
    assert EndsOn(done, r) && |r| > |done|;
    assert From(done, r)[1..] == segs;
    assert Onto(m, done, r) == m[done].value;
  }

  lemma {:induction false} WriteNodeKeepsSound(m: FakerMap, h: Heap, t: Tree, j: Json, done: Pattern, segs: Pattern, r: Pattern)
    requires Proper(m) && Undisturbed(m) && Ahead(m, done, segs, r) && Sound(m, h) && Stands(m, Place(done), t, j)
    requires segs != [] && !t.Shared?
    ensures var (h1, t1) := WriteNode(m, h, t, segs, r);
      Sound(m, h1) && Stands(m, Place(done), t1, RewriteAt(j, segs, Apply(m[r]))) && !t1.Shared?
    decreases |segs|, 0, 3
  {
    if t.Node? && segs[0].key in t.fields {
      var key := segs[0].key;
      WriteChildKeepsSound(m, h, t.fields[key], j.fields[key], done, segs, r);
      RewriteIsFieldUpdate(j, segs, Apply(m[r]));
    }
  }

  lemma PlantStands(m: FakerMap, r: Pattern, done: Pattern, val: Tree, v: Json, s: Segment)
    requires Proper(m) && Ahead(m, done, [s], r) && !s.wildcard && Stands(m, Place(done) + [Key(s.key)], val, v)
    ensures Stands(m, Place(done) + [Key(s.key)], Plant(m, r, val), Apply(m[r])(v))
  {
    PlaceOfLonger(done, s);
    assert EndsOn(r, r);
  }

  lemma {:induction false} WriteChildKeepsSound(m: FakerMap, h: Heap, val: Tree, v: Json, done: Pattern, segs: Pattern, r: Pattern)
    requires Proper(m) && Undisturbed(m) && Ahead(m, done, segs, r) && Sound(m, h) && segs != []
    requires Stands(m, Place(done) + [Key(segs[0].key)], val, v)
    ensures var (h1, x) := WriteChild(m, h, val, segs, r);
      Sound(m, h1) && Stands(m, Place(done) + [Key(segs[0].key)], x, RewriteChild(v, segs, Apply(m[r])))
    decreases |segs|, 0, 2
  {
    var rest := segs[1..];
    assert r == (done + [segs[0]]) + rest;
    if segs[0].wildcard {
      if rest != [] {
        WriteElemsKeepsSound(m, h, val, v, done, segs, r);
      }
    } else if rest == [] {
      assert segs == [segs[0]];
      PlantStands(m, r, done, val, v, segs[0]);
    } else {
      PlaceOfLonger(done, segs[0]);
      hide Placed, Reads, Undisturbed, Sound, Proper;
      WriteKeepsSound(m, h, val, v, done + [segs[0]], rest, r);
    }
  }

  lemma {:induction false} WriteElemsKeepsSound(m: FakerMap, h: Heap, val: Tree, v: Json, done: Pattern, segs: Pattern, r: Pattern)
    requires Proper(m) && Undisturbed(m) && Ahead(m, done, segs, r) && Sound(m, h) && |segs| > 1 && segs[0].wildcard
    requires Stands(m, Place(done) + [Key(segs[0].key)], val, v)
    ensures var (h1, x) := WriteChild(m, h, val, segs, r);
      Sound(m, h1) && Stands(m, Place(done) + [Key(segs[0].key)], x, RewriteChild(v, segs, Apply(m[r])))
    decreases |segs|, 0, 1
  {
    var rest := segs[1..];
    assert r == (done + [segs[0]]) + rest;
    PlaceOfLonger(done, segs[0]);
    hide Undisturbed, Proper, RewriteAt;
    if val.Shared? && val.p in h && h[val.p].List? {
      SharedElemsKeepSound(m, h, val.p, done, segs, r);
    } else if val.List? {
      WriteEachKeepsSound(m, h, val.elems, v.elems, done + [segs[0]], rest, r);
    } else if val.Shared? {
      assert Reads(m, h[val.p], v) && !v.Arr?;
    }
  }

  lemma {:induction false} SharedElemsKeepSound(m: FakerMap, h: Heap, p: Pattern, done: Pattern, segs: Pattern, r: Pattern)
    requires Proper(m) && Undisturbed(m) && Ahead(m, done, segs, r) && Sound(m, h) && |segs| > 1 && segs[0].wildcard
    requires p in h && h[p].List? && p in m && m[p].Fixed? && Stands(m, Place(done) + [Key(segs[0].key)], Shared(p), m[p].value)
    ensures var (h1, x) := WriteChild(m, h, Shared(p), segs, r);
      Sound(m, h1) && x == Shared(p) && RewriteChild(m[p].value, segs, Apply(m[r])) == m[p].value
    decreases |segs|, 0, 0
  {
    var v, rest, longer := m[p].value, segs[1..], done + [segs[0]];
    assert r == longer + rest;
    PlaceOfLonger(done, segs[0]);
    BelowSharedListIsIdle(m, p, done, segs, r);
    assert Reads(m, h[p], v) && Placed(Place(p), h[p]);
    assert forall i :: 0 <= i < |h[p].elems| ==> Stands(m, Place(longer), h[p].elems[i], v.elems[i]);
    hide Undisturbed, Proper, RewriteAt, Write, Placed, Reads, EndsOn;
    WriteEachKeepsSound(m, h, h[p].elems, v.elems, longer, rest, r);
    var (h1, ys) := WriteEach(m, h, h[p].elems, rest, r);
    ElemsStand(m, Place(p), ys, v, longer, rest, r);
    assert WriteChild(m, h, Shared(p), segs, r) == (h1[p := List(ys)], Shared(p));
  }

  lemma ElemsStand(m: FakerMap, at: Path, ys: seq<Tree>, v: Json, longer: Pattern, rest: Pattern, r: Pattern)
    requires r in m && v.Arr? && |ys| == |v.elems| && Place(longer) == at + [Index(0)]
    requires Arr(RewriteEach(v.elems, rest, Apply(m[r]))) == v
    requires forall i :: 0 <= i < |ys| ==> Stands(m, Place(longer), ys[i], RewriteAt(v.elems[i], rest, Apply(m[r])))
    ensures Stands(m, at, List(ys), v)
  {
    hide RewriteAt;
  }

  lemma BelowSharedListIsIdle(m: FakerMap, p: Pattern, done: Pattern, segs: Pattern, r: Pattern)
    requires Undisturbed(m) && Ahead(m, done, segs, r) && segs != [] && segs[0].wildcard && p in m && m[p].Fixed?
    requires EndsOn(p, p) && Place(p) == Place(done) + [Key(segs[0].key)]
    ensures RewriteChild(m[p].value, segs, Apply(m[r])) == m[p].value
  {
    var q := done + [Segment(segs[0].key, false)];
    PlaceOfLonger(done, Segment(segs[0].key, false));
    PlaceIsOnePath(p, q);
    assert q[..|q| - 1] == done == r[..|q| - 1] && r[|q| - 1] == segs[0];
    assert EndsOn(p, r) && r != p && From(p, r) == segs;
    assert Onto(m, p, r) == m[p].value;
  }

  lemma {:induction false} WriteEachKeepsSound(m: FakerMap, h: Heap, xs: seq<Tree>, vs: seq<Json>, done: Pattern, segs: Pattern, r: Pattern)
    requires Proper(m) && Undisturbed(m) && Ahead(m, done, segs, r) && Sound(m, h) && |xs| == |vs|
    requires forall i :: 0 <= i < |xs| ==> Stands(m, Place(done), xs[i], vs[i])
    ensures var (h1, ys) := WriteEach(m, h, xs, segs, r);
      Sound(m, h1) && |ys| == |xs| && forall i :: 0 <= i < |xs| ==> Stands(m, Place(done), ys[i], RewriteAt(vs[i], segs, Apply(m[r])))
    decreases |segs|, 1, |xs|
  {
    if xs != [] {
      var (h1, y) := Write(m, h, xs[0], segs, r);
      WriteKeepsSound(m, h, xs[0], vs[0], done, segs, r);
      WriteEachKeepsSound(m, h1, xs[1..], vs[1..], done, segs, r);
    }
  }

  lemma {:induction false} WriteAllKeepsSound(m: FakerMap, h: Heap, t: Tree, j: Json, ps: seq<Pattern>)
    requires Proper(m) && Undisturbed(m) && Within(ps, m) && Sound(m, h) && Stands(m, [], t, j)
    ensures var (h1, t1) := WriteAll(m, h, t, ps);
      Sound(m, h1) && Stands(m, [], t1, RewriteAll(j, ps, FakersOf(m)))
    decreases |ps|
  {
    if ps != [] {
      hide Undisturbed, Proper, Sound, Stands, Write, RewriteAt;
      var p := ps[0];
      assert p in ps && [] + p == p;
      WriteKeepsSound(m, h, t, j, [], p, p);
      var (h1, t1) := Write(m, h, t, p, p);
      assert Within(ps[1..], m);
      WriteAllKeepsSound(m, h1, t1, RewriteAt(j, p, Apply(m[p])), ps[1..]);
    }
  }

  lemma {:induction false} BodiesKeepSound(m: FakerMap, h: Heap, bodies: seq<Json>, ps: seq<Pattern>)
    requires Proper(m) && Undisturbed(m) && Within(ps, m) && Sound(m, h)
    ensures Sound(m, HeapAfter(m, h, bodies, ps))
    decreases |bodies|
  {
    if bodies != [] {
      LiftReads(m, bodies[0], []);
      WriteAllKeepsSound(m, h, Lift(bodies[0]), bodies[0], ps);
      BodiesKeepSound(m, WriteAll(m, h, Lift(bodies[0]), ps).0, bodies[1..], ps);
    }
  }

  // ----- a path that changes a fixed value, in a body made for it -----

  lemma PlantReads(m: FakerMap, r: Pattern, v: Json)
    requires Proper(m) && r in m
    ensures Reads(m, Plant(m, r, Lift(v)), Apply(m[r])(v))
  {
    LiftReads(m, v, []);
  }

  /** In a tree without shared containers the traversal is the rewriting. */
  lemma {:induction false} WriteOfLift(m: FakerMap, h: Heap, j: Json, segs: Pattern, r: Pattern)
    requires Proper(m) && r in m
    ensures var (h1, t1) := Write(m, h, Lift(j), segs, r); h1 == h && Reads(m, t1, RewriteAt(j, segs, Apply(m[r])))
    decreases |segs|, 0, 1
  {
    LiftReads(m, j, []);
    if segs != [] && j.Obj? && segs[0].key in j.fields {
      WriteChildOfLift(m, h, j.fields[segs[0].key], segs, r);
      RewriteIsFieldUpdate(j, segs, Apply(m[r]));
    }
  }

  lemma {:induction false} WriteChildOfLift(m: FakerMap, h: Heap, v: Json, segs: Pattern, r: Pattern)
    requires Proper(m) && r in m && segs != []
    ensures var (h1, x) := WriteChild(m, h, Lift(v), segs, r); h1 == h && Reads(m, x, RewriteChild(v, segs, Apply(m[r])))
    decreases |segs|, 0, 0
  {
    LiftReads(m, v, []);
    if segs[0].wildcard {
      if |segs| > 1 && v.Arr? {
        WriteEachOfLift(m, h, Lift(v).elems, v.elems, segs[1..], r);
      }
    } else if |segs| == 1 {
      PlantReads(m, r, v);
    } else {
      WriteOfLift(m, h, v, segs[1..], r);
    }
  }

  lemma {:induction false} WriteEachOfLift(m: FakerMap, h: Heap, ts: seq<Tree>, vs: seq<Json>, segs: Pattern, r: Pattern)
    requires Proper(m) && r in m && |ts| == |vs| && forall i :: 0 <= i < |ts| ==> ts[i] == Lift(vs[i])
    ensures var (h1, ys) := WriteEach(m, h, ts, segs, r);
      h1 == h && |ys| == |vs| && forall i :: 0 <= i < |ys| ==> Reads(m, ys[i], RewriteAt(vs[i], segs, Apply(m[r])))
    decreases |segs|, 1, |ts|
  {
    if ts != [] {
      WriteOfLift(m, h, vs[0], segs, r);
      WriteEachOfLift(m, h, ts[1..], vs[1..], segs, r);
    }
  }

  /** The smallest tree of a path, in memory. */
  function BearingTree(a: Pattern, x: Tree): Tree
    requires a != []
  {
    var inner := if |a| == 1 then x else BearingTree(a[1..], x);
    Node(map[a[0].key := if a[0].wildcard then List([inner]) else inner])
  }

  lemma LiftOne(key: string, v: Json)
    ensures Lift(Obj(map[key := v])) == Node(map[key := Lift(v)])
    ensures Lift(Arr([v])) == List([Lift(v)])
  {
    assert Lift(Obj(map[key := v])).fields == map[key := Lift(v)];
  }

  lemma {:induction false} LiftOfBearing(a: Pattern, v: Json)
    requires a != []
    ensures Lift(Bearing(a, v)) == BearingTree(a, Lift(v))
  {
    var inner := if |a| == 1 then v else Bearing(a[1..], v);
    if |a| > 1 { LiftOfBearing(a[1..], v); }
    LiftOne(a[0].key, inner);
    LiftOne(a[0].key, Arr([inner]));
    hide Lift;
  }

  lemma {:induction false} WriteOfBearing(m: FakerMap, h: Heap, a: Pattern, b: Pattern, r: Pattern, x: Tree)
    requires EndsOn(a, b) && r in m
    ensures var (h1, y) := WriteChild(m, h, x, From(a, b), r); Write(m, h, BearingTree(a, x), b, r) == (h1, BearingTree(a, y))
    decreases |a|
  {
    var (h1, y) := WriteChild(m, h, x, From(a, b), r);
    var t, key := BearingTree(a, x), a[0].key;
    if |a| == 1 {
      assert From(a, b) == b;
      assert t.fields[key := y] == map[key := y];
    } else {
      EndsOnTails(a, b);
      WriteOfBearing(m, h, a[1..], b[1..], r, x);
      hide EndsOn;
      BearingTreeStep(m, h, a, b, r, x, h1, BearingTree(a[1..], y));
    }
  }

  lemma BearingTreeStep(m: FakerMap, h: Heap, a: Pattern, b: Pattern, r: Pattern, x: Tree, h1: Heap, z: Tree)
    requires |a| > 1 && |b| > 1 && a[0] == b[0] && r in m && Write(m, h, BearingTree(a[1..], x), b[1..], r) == (h1, z)
    ensures Write(m, h, BearingTree(a, x), b, r) == (h1, Node(map[a[0].key := if a[0].wildcard then List([z]) else z]))
  {
    var t, key, inner := BearingTree(a, x), a[0].key, BearingTree(a[1..], x);
    WriteOne(m, h, inner, b[1..], r);
    var w := if a[0].wildcard then List([z]) else z;
    assert WriteChild(m, h, t.fields[key], b, r) == (h1, w);
    assert t.fields[key := w] == map[key := w];
  }

  lemma WriteOne(m: FakerMap, h: Heap, x: Tree, segs: Pattern, r: Pattern)
    requires r in m
    ensures var (h1, y) := Write(m, h, x, segs, r); WriteEach(m, h, [x], segs, r) == (h1, [y])
  {
    var (h1, y) := Write(m, h, x, segs, r);
    assert WriteEach(m, h1, [x][1..], segs, r) == (h1, []);
    assert [y] + [] == [y];
  }

  /** Only containers are changed by going on below them. */
  lemma ChangedIsContainer(m: FakerMap, p: Pattern, r: Pattern)
    requires p in m && m[p].Fixed? && r in m && r != p && EndsOn(p, r) && Onto(m, p, r) != m[p].value
    ensures IsContainer(m[p].value) && |From(p, r)| > 1 && (From(p, r)[0].wildcard ==> m[p].value.Arr?)
  {
    var rest := From(p, r);
    assert p == p[..|p| - 1] + [p[|p| - 1]] && r == r[..|p| - 1] + rest;
    RewriteKeepsKind(m[p].value, rest[1..], Apply(m[r]));
  }

  /** Through a shared container the traversal writes as it would into the tree itself. */
  lemma WriteThroughShared(m: FakerMap, h: Heap, p: Pattern, segs: Pattern, r: Pattern)
    requires r in m && |segs| > 1 && p in h && !h[p].Shared? && (segs[0].wildcard ==> h[p].List?)
    ensures var (h1, c) := WriteChild(m, h, h[p], segs, r); WriteChild(m, h, Shared(p), segs, r).0 == h1[p := c]
  {
  }

  /** Where a longer path meets the fixed value itself, it changes it. */
  lemma SharedIsWritten(m: FakerMap, p: Pattern, r: Pattern)
    requires Proper(m) && p in m && m[p].Fixed? && r in m && r != p && EndsOn(p, r) && Onto(m, p, r) != m[p].value
    ensures !Intact(m, WriteChild(m, Fresh(m), Shared(p), From(p, r), r).0)
  {
    ChangedIsContainer(m, p, r);
    var rest, v, h := From(p, r), m[p].value, Fresh(m);
    LiftReads(m, v, []);
    WriteChildOfLift(m, h, v, rest, r);
    WriteThroughShared(m, h, p, rest, r);
    hide WriteChild, EndsOn, From, Lift, RewriteChild, Proper;
    var c := WriteChild(m, h, Lift(v), rest, r).1;
    if Reads(m, c, v) {
      ReadsOneValue(m, c, v, Onto(m, p, r));
    }
  }

  // ----- the statements -----

  /** At no moment of any walk over any bodies does a fixed faker hold another value
      than its own. */
  ghost predicate ValuesStay(m: FakerMap) {
    forall ps: seq<Pattern>, bodies: seq<Json>, body: Json, k: nat :: Walk(ps, m) && Within(ps, m) && k <= |ps| && Within(ps[..k], m) ==>
      Intact(m, WriteAll(m, HeapAfter(m, Fresh(m), bodies, ps), Lift(body), ps[..k]).0)
  }

  /** A walk that plants a value and changes it next. */
  lemma WalkWrites(m: FakerMap, p: Pattern, r: Pattern)
    requires Proper(m) && p in m && m[p].Fixed? && r in m && r != p && EndsOn(p, r) && Onto(m, p, r) != m[p].value
    ensures Within([p, r], m) && !Intact(m, WriteAll(m, Fresh(m), Lift(Bearing(p, Null)), [p, r]).0)
  {
    var h := Fresh(m);
    ChangedIsContainer(m, p, r);
    LiftOfBearing(p, Null);
    assert EndsOn(p, p) && From(p, p) == [p[|p| - 1]];
    WriteOfBearing(m, h, p, p, p, Lift(Null));
    assert WriteChild(m, h, Lift(Null), From(p, p), p) == (h, Shared(p));
    WriteOfBearing(m, h, p, r, r, Shared(p));
    SharedIsWritten(m, p, r);
    hide Write, WriteChild, Intact;
    var t := BearingTree(p, Shared(p));
    assert Within([r], m);
    assert [p, r][1..] == [r] && [r][1..] == [];
    assert WriteAll(m, h, Lift(Bearing(p, Null)), [p, r]) == WriteAll(m, h, t, [r]);
    var (h1, t1) := Write(m, h, t, r, r);
    assert WriteAll(m, h, t, [r]) == WriteAll(m, h1, t1, []);
  }

  /** The fixed fakers keep their values, at every moment of every walk over any bodies,
      if and only if no longer path changes the value of a fixed path. */
  lemma ValuesStayIffUndisturbed(m: FakerMap)
    requires Proper(m)
    ensures ValuesStay(m) <==> Undisturbed(m)
  {
    if Undisturbed(m) {
      hide Undisturbed, Proper, Walk, Within;
      forall ps: seq<Pattern>, bodies: seq<Json>, body: Json, k: nat | Walk(ps, m) && Within(ps, m) && k <= |ps| && Within(ps[..k], m)
        ensures Intact(m, WriteAll(m, HeapAfter(m, Fresh(m), bodies, ps), Lift(body), ps[..k]).0)
      {
        MomentIsSound(m, bodies, body, ps, ps[..k]);
      }
    } else {
      var p, r :| p in m && m[p].Fixed? && r in m && r != p && EndsOn(p, r) && Onto(m, p, r) != m[p].value;
      WalkWrites(m, p, r);
      hide *;
      var ps := SomeWalkStarts(m, p, r);
      BadMoment(m, ps, Bearing(p, Null), 2);
    }
  }

  lemma BadMoment(m: FakerMap, ps: seq<Pattern>, body: Json, k: nat)
    requires Walk(ps, m) && Within(ps, m) && k <= |ps| && Within(ps[..k], m)
    requires !Intact(m, WriteAll(m, Fresh(m), Lift(body), ps[..k]).0)
    ensures !ValuesStay(m)
  {
    hide Walk, Within, Intact, WriteAll;
    assert HeapAfter(m, Fresh(m), [], ps) == Fresh(m);
  }

  lemma MomentIsSound(m: FakerMap, bodies: seq<Json>, body: Json, ps: seq<Pattern>, some: seq<Pattern>)
    requires Proper(m) && Undisturbed(m) && Within(ps, m) && Within(some, m)
    ensures var (h, t) := WriteAll(m, HeapAfter(m, Fresh(m), bodies, ps), Lift(body), some);
      Intact(m, h) && Reads(m, t, RewriteAll(body, some, FakersOf(m)))
  {
    hide Proper, Undisturbed, Within, WriteAll, HeapAfter, Intact, Reads, Lift;
    FreshIsSound(m);
    BodiesKeepSound(m, Fresh(m), bodies, ps);
    LiftReads(m, body, []);
    WriteAllKeepsSound(m, HeapAfter(m, Fresh(m), bodies, ps), Lift(body), body, some);
  }

  lemma SomeWalkStarts(m: FakerMap, p: Pattern, r: Pattern) returns (ps: seq<Pattern>)
    requires p in m && r in m && p != r
    ensures Walk(ps, m) && Within(ps, m) && |ps| >= 2 && ps[..2] == [p, r]
  {
    hide Walk;
    var rest := SomeWalk(m - {p} - {r});
    WalkWith(m - {p}, r, rest);
    WalkWith(m, p, [r] + rest);
    ps := [p] + ([r] + rest);
    WalkMembers(ps, m);
  }

  /** Sharing is then invisible: whatever bodies came before, each body comes out as the
      rewriting on values says, and in any order of the paths as the same tree. */
  lemma SharingIsInvisible(m: FakerMap, bodies: seq<Json>, body: Json, ps: seq<Pattern>, qs: seq<Pattern>)
    requires Proper(m) && Undisturbed(m) && Walk(ps, m) && Walk(qs, m)
    ensures Within(ps, m)
    ensures Reads(m, WriteAll(m, HeapAfter(m, Fresh(m), bodies, ps), Lift(body), ps).1, RewriteAll(body, qs, FakersOf(m)))
  {
    WalkMembers(ps, m);
    MomentIsSound(m, bodies, body, ps, ps);
    UndisturbedWalksAgree(m, ps, qs, body);
  }

  // ----- a configuration that writes into its own value -----

  function Held(x: Json): Tree { Node(map["b" := Plain(x)]) }

  /** With `$.a` fixed to an object holding `b`, and `$.a.b` faked: one more body that has
      an `a` fakes the value the fixed faker holds once more, and is given that value. */
  lemma EveryBodyFakesAgain(m: FakerMap, p: Pattern, q: Pattern, f: Json -> Json, value: Json, x: Json)
    requires p == [Segment("a", false)] && q == [Segment("a", false), Segment("b", false)] && value.Obj?
    requires m == map[p := Fixed(value), q := Leaf(f)]
    ensures WriteAll(m, map[p := Held(x)], Lift(Bearing(p, Null)), [p, q]) == (map[p := Held(f(x))], BearingTree(p, Shared(p)))
  {
    var h: Heap := map[p := Held(x)];
    var h1: Heap := map[p := Held(f(x))];
    LiftOfBearing(p, Null);
    assert EndsOn(p, p) && From(p, p) == p && EndsOn(p, q) by { assert p[..0] == q[..0]; }
    assert From(p, q) == q && q[1..] == [Segment("b", false)] && p[1..] == [] && q[1..][1..] == [];
    WriteOfBearing(m, h, p, p, p, Lift(Null));
    WriteOfBearing(m, h, p, q, q, Shared(p));
    assert WriteNode(m, h, Held(x), q[1..], q) == (h, Held(f(x))) by {
      assert map["b" := Plain(x)]["b" := Plain(f(x))] == map["b" := Plain(f(x))];
    }
    assert h[p := Held(f(x))] == h1;
    assert [p, q][1..] == [q] && [q][1..] == [];
    var t := BearingTree(p, Shared(p));
    assert WriteAll(m, h, t, [q]) == WriteAll(m, h1, t, []);
  }
}
