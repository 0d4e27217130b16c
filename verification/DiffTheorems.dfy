/** What the reported differences mean: nothing is reported exactly when the trees
    agree outside the ignored paths, and redaction stays inside its own paths. */
module DiffAgreement {
  import opened Options
  import opened JsonTree
  import opened PathPatterns
  import opened KeyOrder
  import opened Diff

  /** Reading on from `path`, is the location `path + q` inside an ignored one? */
  predicate Hidden(path: Path, q: Path, ignore: seq<Pattern>)
    decreases |q|
  {
    (path != [] && Ignored(path, ignore)) ||
    (q != [] && Hidden(path + [q[0]], q[1..], ignore))
  }

  predicate SameShape(f: Json, l: Json, q: Path) {
    ShapeOf(At(f, q)) == ShapeOf(At(l, q))
  }

  /** The two trees look alike at every location that is not hidden. */
  ghost predicate Agree(f: Json, l: Json, path: Path, ignore: seq<Pattern>) {
    forall q: Path :: !Hidden(path, q, ignore) ==> SameShape(f, l, q)
  }

  ghost predicate AgreeBelow(f: Json, l: Json, path: Path, ignore: seq<Pattern>, s: Step) {
    Ignored(path + [s], ignore) ||
    (Child(f, s).None? && Child(l, s).None?) ||
    (Child(f, s).Some? && Child(l, s).Some? && Agree(Child(f, s).value, Child(l, s).value, path + [s], ignore))
  }

  lemma HiddenStep(path: Path, s: Step, q: Path, ignore: seq<Pattern>)
    requires !(path != [] && Ignored(path, ignore))
    ensures Hidden(path, [s] + q, ignore) == Hidden(path + [s], q, ignore)
  {
    assert ([s] + q)[1..] == q;
  }

  /** Agreement of two trees is agreement at the root and below every step. */
  lemma AgreeUnfolds(f: Json, l: Json, path: Path, ignore: seq<Pattern>)
    requires !(path != [] && Ignored(path, ignore))
    ensures Agree(f, l, path, ignore) <==>
      ShapeOf(Some(f)) == ShapeOf(Some(l)) && forall s: Step :: AgreeBelow(f, l, path, ignore, s)
  {
    if Agree(f, l, path, ignore) {
      assert !Hidden(path, [], ignore) && SameShape(f, l, []);
      forall s: Step ensures AgreeBelow(f, l, path, ignore, s) {
        AgreePassesDown(f, l, path, ignore, s);
      }
    }
    if ShapeOf(Some(f)) == ShapeOf(Some(l)) && forall s: Step :: AgreeBelow(f, l, path, ignore, s) {
      forall q: Path | !Hidden(path, q, ignore) ensures SameShape(f, l, q) {
        if q != [] {
          var s, r := q[0], q[1..];
          assert q == [s] + r;
          AtStep(f, s, r);
          AtStep(l, s, r);
          HiddenStep(path, s, r, ignore);
          assert AgreeBelow(f, l, path, ignore, s);
          if Child(f, s).Some? { assert SameShape(Child(f, s).value, Child(l, s).value, r); }
        }
      }
    }
  }

  lemma AgreePassesDown(f: Json, l: Json, path: Path, ignore: seq<Pattern>, s: Step)
    requires !(path != [] && Ignored(path, ignore))
    requires Agree(f, l, path, ignore)
    ensures AgreeBelow(f, l, path, ignore, s)
  {
    if !Ignored(path + [s], ignore) {
      HiddenStep(path, s, [], ignore);
      AtStep(f, s, []);
      AtStep(l, s, []);
      assert SameShape(f, l, [s] + []);
      if Child(f, s).Some? {
        forall q: Path | !Hidden(path + [s], q, ignore)
          ensures SameShape(Child(f, s).value, Child(l, s).value, q)
        {
          HiddenStep(path, s, q, ignore);
          AtStep(f, s, q);
          AtStep(l, s, q);
          assert SameShape(f, l, [s] + q);
        }
      }
    }
  }

  /** `Compare` reports nothing exactly when the trees agree outside the ignored
      paths. */
  lemma {:induction false} CompareEmptyIffAgree(f: Json, l: Json, path: Path, ignore: seq<Pattern>)
    ensures Compare(f, l, path, ignore) == [] <==> Agree(f, l, path, ignore)
    decreases f, 2
  {
    if path != [] && Ignored(path, ignore) {
      assert forall q: Path :: Hidden(path, q, ignore);
    } else {
      AgreeUnfolds(f, l, path, ignore);
      if f.Obj? && l.Obj? {
        hide Agree;
        var ks := SortedKeys(f.fields.Keys + l.fields.Keys);
        KeysEmptyIffAgree(ks, f, l, path, ignore);
        forall s: Step | !(s.Key? && s.key in ks) ensures AgreeBelow(f, l, path, ignore, s) {
          assert Child(f, s).None? && Child(l, s).None?;
        }
      } else if f.Arr? && l.Arr? {
        hide Agree;
        ElemsEmptyIffAgree(0, f, l, path, ignore);
        forall s: Step | !(s.Index? && s.index < Max(|f.elems|, |l.elems|))
          ensures AgreeBelow(f, l, path, ignore, s)
        {
          assert Child(f, s).None? && Child(l, s).None?;
        }
      } else {
        hide Agree;
        JsonEqualIsEquality(f, l);
        assert ShapeOf(Some(f)) == ShapeOf(Some(l)) ==> f == l && !IsContainer(f);
        assert f == l ==> forall s: Step :: AgreeBelow(f, l, path, ignore, s);
      }
    }
  }

  lemma {:induction false} KeysEmptyIffAgree(ks: seq<string>, f: Json, l: Json, path: Path, ignore: seq<Pattern>)
    requires f.Obj? && l.Obj? && KeysOf(ks, f, l)
    ensures CompareKeys(ks, f, l, path, ignore) == [] <==>
      forall k :: k in ks ==> AgreeBelow(f, l, path, ignore, Key(k))
    decreases f, 1, |ks|
  {
    if ks != [] {
      var k := ks[0];
      assert k in ks;
      if k in f.fields && k in l.fields {
        CompareEmptyIffAgree(f.fields[k], l.fields[k], path + [Key(k)], ignore);
      }
      assert CompareField(k, f, l, path, ignore) == [] <==> AgreeBelow(f, l, path, ignore, Key(k));
      KeysEmptyIffAgree(ks[1..], f, l, path, ignore);
      assert forall x :: x in ks <==> x == k || x in ks[1..];
    }
  }

  lemma {:induction false} ElemsEmptyIffAgree(i: nat, f: Json, l: Json, path: Path, ignore: seq<Pattern>)
    requires f.Arr? && l.Arr? && i <= Max(|f.elems|, |l.elems|)
    ensures CompareElems(i, f, l, path, ignore) == [] <==>
      forall k: nat :: i <= k < Max(|f.elems|, |l.elems|) ==> AgreeBelow(f, l, path, ignore, Index(k))
    decreases f, 1, Max(|f.elems|, |l.elems|) - i
  {
    if i < Max(|f.elems|, |l.elems|) {
      if i < |f.elems| && i < |l.elems| {
        CompareEmptyIffAgree(f.elems[i], l.elems[i], path + [Index(i)], ignore);
      }
      assert CompareElem(i, f, l, path, ignore) == [] <==> AgreeBelow(f, l, path, ignore, Index(i));
      hide CompareElem, AgreeBelow;
      ElemsEmptyIffAgree(i + 1, f, l, path, ignore);
    }
  }

  // ----- ignored locations of a whole body -----

  /** Locations at or below an instance of a listed pattern. */
  predicate IgnoredLocation(q: Path, ignore: seq<Pattern>) {
    exists i :: 0 <= i < |ignore| && ignore[i] != [] && Covers(ignore[i], q)
  }

  lemma {:induction false} HiddenIffPrefixIgnored(path: Path, q: Path, ignore: seq<Pattern>)
    ensures Hidden(path, q, ignore) <==>
      exists n :: 0 <= n <= |q| && path + q[..n] != [] && Ignored(path + q[..n], ignore)
    decreases |q|
  {
    assert path + q[..0] == path;
    if q != [] {
      var p1, q1 := path + [q[0]], q[1..];
      HiddenIffPrefixIgnored(p1, q1, ignore);
      forall n | 0 <= n <= |q1| ensures p1 + q1[..n] == path + q[..n + 1] {
      }
      if exists n :: 0 <= n <= |q| && path + q[..n] != [] && Ignored(path + q[..n], ignore) {
        var n :| 0 <= n <= |q| && path + q[..n] != [] && Ignored(path + q[..n], ignore);
        if n > 0 { assert p1 + q1[..n - 1] == path + q[..n]; }
      }
    }
  }

  lemma HiddenIffIgnoredLocation(q: Path, ignore: seq<Pattern>)
    ensures Hidden([], q, ignore) <==> IgnoredLocation(q, ignore)
  {
    HiddenIffPrefixIgnored([], q, ignore);
    assert forall n :: 0 <= n <= |q| ==> [] + q[..n] == q[..n];
    forall i | 0 <= i < |ignore|
      ensures Covers(ignore[i], q) <==> exists n :: 0 <= n <= |q| && Matches(q[..n], ignore[i])
    {
      CoversIffPrefixMatches(ignore[i], q);
    }
    if IgnoredLocation(q, ignore) {
      var i :| 0 <= i < |ignore| && ignore[i] != [] && Covers(ignore[i], q);
      var n :| 0 <= n <= |q| && Matches(q[..n], ignore[i]);
      assert Ignored([] + q[..n], ignore);
    }
    if Hidden([], q, ignore) {
      var n :| 0 <= n <= |q| && [] + q[..n] != [] && Ignored([] + q[..n], ignore);
      var i :| 0 <= i < |ignore| && Matches(q[..n], ignore[i]);
      assert Covers(ignore[i], q);
    }
  }

  /** Diffing two bodies is empty exactly when they look alike at every location
      not at or below an ignored one. */
  lemma DiffIsSoundAndComplete(f: Json, l: Json, ignore: seq<Pattern>)
    ensures Compare(f, l, [], ignore) == [] <==>
      forall q: Path :: !IgnoredLocation(q, ignore) ==> SameShape(f, l, q)
  {
    CompareEmptyIffAgree(f, l, [], ignore);
    forall q: Path ensures Hidden([], q, ignore) <==> IgnoredLocation(q, ignore) {
      HiddenIffIgnoredLocation(q, ignore);
    }
  }

  /** With nothing ignored, an empty diff means the bodies are equal. */
  lemma EmptyDiffMeansEqual(f: Json, l: Json)
    ensures Compare(f, l, [], []) == [] <==> f == l
  {
    DiffIsSoundAndComplete(f, l, []);
    if Compare(f, l, [], []) == [] {
      forall q: Path ensures ShapeOf(At(f, q)) == ShapeOf(At(l, q)) {
        assert !IgnoredLocation(q, []) && SameShape(f, l, q);
      }
      ShapesDetermineTree(f, l);
    }
  }

  /** Every reported difference is real: it sits at a location that is not
      ignored, its old and new values are the ones found there on either side,
      and its kind says which side has a value. */
  ghost predicate Exact(d: FieldDiff, f: Json, l: Json, path: Path, ignore: seq<Pattern>) {
    path <= d.path &&
    var q := d.path[|path|..];
    !Hidden(path, q, ignore) &&
    At(f, q) == d.oldValue && At(l, q) == d.newValue && d.oldValue != d.newValue &&
    d.kind == (if d.oldValue.None? then Added else if d.newValue.None? then Removed else Changed)
  }

  lemma ExactStep(d: FieldDiff, f: Json, l: Json, path: Path, ignore: seq<Pattern>, s: Step)
    requires !(path != [] && Ignored(path, ignore))
    requires Child(f, s).Some? && Child(l, s).Some?
    requires Exact(d, Child(f, s).value, Child(l, s).value, path + [s], ignore)
    ensures Exact(d, f, l, path, ignore)
  {
    var q := d.path[|path| + 1..];
    assert d.path[|path|..] == [s] + q by {
      assert d.path[|path|] == (path + [s])[|path|] == s;
    }
    assert path <= d.path;
    AtStep(f, s, q);
    AtStep(l, s, q);
    HiddenStep(path, s, q, ignore);
  }

  lemma {:induction false} ReportedDiffsAreExact(f: Json, l: Json, path: Path, ignore: seq<Pattern>)
    ensures forall d :: d in Compare(f, l, path, ignore) ==> Exact(d, f, l, path, ignore)
    decreases f, 2
  {
    if !(path != [] && Ignored(path, ignore)) {
      if f.Obj? && l.Obj? {
        KeyDiffsAreExact(SortedKeys(f.fields.Keys + l.fields.Keys), f, l, path, ignore);
      } else if f.Arr? && l.Arr? {
        ElemDiffsAreExact(0, f, l, path, ignore);
      } else {
        JsonEqualIsEquality(f, l);
        assert path[|path|..] == [];
      }
    }
  }

  lemma {:induction false} KeyDiffsAreExact(ks: seq<string>, f: Json, l: Json, path: Path, ignore: seq<Pattern>)
    requires f.Obj? && l.Obj? && KeysOf(ks, f, l)
    requires !(path != [] && Ignored(path, ignore))
    ensures forall d :: d in CompareKeys(ks, f, l, path, ignore) ==> Exact(d, f, l, path, ignore)
    decreases f, 1, |ks|
  {
    if ks != [] {
      var k := ks[0];
      assert k in ks;
      if k in f.fields && k in l.fields {
        ReportedDiffsAreExact(f.fields[k], l.fields[k], path + [Key(k)], ignore);
      }
      forall d | d in CompareField(k, f, l, path, ignore) ensures Exact(d, f, l, path, ignore) {
        if k in f.fields && k in l.fields {
          ExactStep(d, f, l, path, ignore, Key(k));
        }
      }
      KeyDiffsAreExact(ks[1..], f, l, path, ignore);
    }
  }

  lemma {:induction false} ElemDiffsAreExact(i: nat, f: Json, l: Json, path: Path, ignore: seq<Pattern>)
    requires f.Arr? && l.Arr? && i <= Max(|f.elems|, |l.elems|)
    requires !(path != [] && Ignored(path, ignore))
    ensures forall d :: d in CompareElems(i, f, l, path, ignore) ==> Exact(d, f, l, path, ignore)
    decreases f, 1, Max(|f.elems|, |l.elems|) - i
  {
    if i < Max(|f.elems|, |l.elems|) {
      if i < |f.elems| && i < |l.elems| {
        ReportedDiffsAreExact(f.elems[i], l.elems[i], path + [Index(i)], ignore);
      }
      forall d | d in CompareElem(i, f, l, path, ignore) ensures Exact(d, f, l, path, ignore) {
        if i < |f.elems| && i < |l.elems| {
          ExactStep(d, f, l, path, ignore, Index(i));
        }
      }
      ElemDiffsAreExact(i + 1, f, l, path, ignore);
    }
  }

  // ----- every visible difference is reported -----

  lemma {:induction false} FieldIsCompared(k: string, ks: seq<string>, f: Json, l: Json, path: Path, ignore: seq<Pattern>)
    requires f.Obj? && l.Obj? && KeysOf(ks, f, l) && k in ks
    ensures forall d :: d in CompareField(k, f, l, path, ignore) ==> d in CompareKeys(ks, f, l, path, ignore)
    decreases |ks|
  {
    hide CompareField;
    if ks[0] != k { FieldIsCompared(k, ks[1..], f, l, path, ignore); }
  }

  lemma {:induction false} ElemIsCompared(i: nat, k: nat, f: Json, l: Json, path: Path, ignore: seq<Pattern>)
    requires f.Arr? && l.Arr? && i <= k < Max(|f.elems|, |l.elems|)
    ensures forall d :: d in CompareElem(k, f, l, path, ignore) ==> d in CompareElems(i, f, l, path, ignore)
    decreases k - i
  {
    hide CompareElem;
    if i < k { ElemIsCompared(i + 1, k, f, l, path, ignore); }
  }

  /** What the comparison reports below one step. */
  ghost predicate ReportedBelow(f: Json, l: Json, path: Path, ignore: seq<Pattern>, s: Step, d: FieldDiff) {
    var x, y := Child(f, s), Child(l, s);
    if x.Some? && y.Some? then d in Compare(x.value, y.value, path + [s], ignore)
    else if x.Some? then d == FieldDiff(path + [s], Removed, x, None)
    else y.Some? && d == FieldDiff(path + [s], Added, None, y)
  }

  /** It is part of the whole comparison. */
  lemma ChildIsCompared(f: Json, l: Json, path: Path, ignore: seq<Pattern>, s: Step, d: FieldDiff)
    requires !(path != [] && Ignored(path, ignore)) && !Ignored(path + [s], ignore)
    requires (f.Obj? && l.Obj?) || (f.Arr? && l.Arr?)
    requires ReportedBelow(f, l, path, ignore, s, d)
    ensures d in Compare(f, l, path, ignore)
  {
    if f.Obj? {
      FieldIsCompared(s.key, SortedKeys(f.fields.Keys + l.fields.Keys), f, l, path, ignore);
      hide CompareKeys, SortedKeys;
      assert d in CompareField(s.key, f, l, path, ignore);
    } else {
      ElemIsCompared(0, s.index, f, l, path, ignore);
      hide CompareElems;
      assert d in CompareElem(s.index, f, l, path, ignore);
    }
  }

  lemma {:induction false} DifferenceIsReported(f: Json, l: Json, path: Path, ignore: seq<Pattern>, q: Path) returns (d: FieldDiff)
    requires !Hidden(path, q, ignore) && !SameShape(f, l, q)
    ensures d in Compare(f, l, path, ignore) && d.path <= path + q
    decreases |q|
  {
    if (f.Obj? && l.Obj?) || (f.Arr? && l.Arr?) {
      var s, r := q[0], q[1..];
      assert q == [s] + r && path + q == path + [s] + r;
      AtStep(f, s, r);
      AtStep(l, s, r);
      HiddenStep(path, s, r, ignore);
      hide Compare;
      var x, y := Child(f, s), Child(l, s);
      if x.Some? && y.Some? {
        d := DifferenceIsReported(x.value, y.value, path + [s], ignore, r);
      } else {
        d := FieldDiff(path + [s], if x.Some? then Removed else Added, x, y);
      }
      ChildIsCompared(f, l, path, ignore, s, d);
    } else {
      JsonEqualIsEquality(f, l);
      d := FieldDiff(path, Changed, Some(f), Some(l));
    }
  }

  /** Whatever is ignored, every location at which the bodies differ and that is not
      ignored is at or below a reported one. */
  lemma DifferencesAreReported(f: Json, l: Json, ignore: seq<Pattern>, q: Path)
    requires !IgnoredLocation(q, ignore) && !SameShape(f, l, q)
    ensures exists d :: d in Compare(f, l, [], ignore) && d.path <= q
  {
    HiddenIffIgnoredLocation(q, ignore);
    var d := DifferenceIsReported(f, l, [], ignore, q);
    assert [] + q == q;
  }
}

/** Replaying a diff on the fixture yields the live body. */
module DiffReplay {
  import opened Options
  import opened JsonTree
  import opened KeyOrder
  import opened Diff

  // ----- edits -----

  /** Writes a value at a path; one past the end of an array appends. */
  function SetAt(j: Json, p: Path, v: Json): Json
    decreases |p|
  {
    if p == [] then v
    else
      match p[0]
      case Key(k) =>
        if !j.Obj? then j
        else if |p| == 1 then Obj(j.fields[k := v])
        else if k in j.fields then Obj(j.fields[k := SetAt(j.fields[k], p[1..], v)])
        else j
      case Index(i) =>
        if !j.Arr? then j
        else if |p| == 1 && i == |j.elems| then Arr(j.elems + [v])
        else if i < |j.elems| then Arr(j.elems[i := SetAt(j.elems[i], p[1..], v)])
        else j
  }

  /** Deletes a field, or an array element with the later ones moving up. */
  function RemoveAt(j: Json, p: Path): Json
    decreases |p|
  {
    if p == [] then j
    else
      match p[0]
      case Key(k) =>
        if !j.Obj? || k !in j.fields then j
        else if |p| == 1 then Obj(j.fields - {k})
        else Obj(j.fields[k := RemoveAt(j.fields[k], p[1..])])
      case Index(i) =>
        if !j.Arr? || i >= |j.elems| then j
        else if |p| == 1 then Arr(j.elems[..i] + j.elems[i + 1..])
        else Arr(j.elems[i := RemoveAt(j.elems[i], p[1..])])
  }

  function Edit(j: Json, d: FieldDiff): Json {
    if d.kind == Removed || d.newValue.None? then RemoveAt(j, d.path) else SetAt(j, d.path, d.newValue.value)
  }

  function EditAll(j: Json, ds: seq<FieldDiff>): Json
    decreases |ds|
  {
    if ds == [] then j else EditAll(Edit(j, ds[0]), ds[1..])
  }

  function Writes(ds: seq<FieldDiff>): seq<FieldDiff> {
    if ds == [] then []
    else (if ds[0].kind == Removed then [] else [ds[0]]) + Writes(ds[1..])
  }

  /** The removals, last reported first. */
  function RemovalsBackwards(ds: seq<FieldDiff>): seq<FieldDiff> {
    if ds == [] then []
    else RemovalsBackwards(ds[1..]) + if ds[0].kind == Removed then [ds[0]] else []
  }

  /** Additions and changes in report order, then removals from the end. */
  function Replay(j: Json, ds: seq<FieldDiff>): Json {
    EditAll(EditAll(j, Writes(ds)), RemovalsBackwards(ds))
  }

  lemma {:induction false} EditAllConcat(j: Json, a: seq<FieldDiff>, b: seq<FieldDiff>)
    ensures EditAll(j, a + b) == EditAll(EditAll(j, a), b)
    decreases |a|
  {
    if a == [] {
      assert a + b == b;
    } else {
      assert (a + b)[1..] == a[1..] + b;
      EditAllConcat(Edit(j, a[0]), a[1..], b);
    }
  }

  lemma {:induction false} WritesConcat(a: seq<FieldDiff>, b: seq<FieldDiff>)
    ensures Writes(a + b) == Writes(a) + Writes(b)
    decreases |a|
  {
    if a == [] {
      assert a + b == b;
    } else {
      assert (a + b)[1..] == a[1..] + b;
      WritesConcat(a[1..], b);
    }
  }

  lemma {:induction false} RemovalsConcat(a: seq<FieldDiff>, b: seq<FieldDiff>)
    ensures RemovalsBackwards(a + b) == RemovalsBackwards(b) + RemovalsBackwards(a)
    decreases |a|
  {
    if a == [] {
      assert a + b == b;
    } else {
      assert (a + b)[1..] == a[1..] + b;
      RemovalsConcat(a[1..], b);
    }
  }

  // ----- edits below one step -----

  /** The same edit seen from one level up. */
  function Lift(s: Step, d: FieldDiff): FieldDiff { d.(path := [s] + d.path) }

  function LiftAll(s: Step, ds: seq<FieldDiff>): (r: seq<FieldDiff>)
    ensures |r| == |ds|
    ensures forall i :: 0 <= i < |ds| ==> r[i] == Lift(s, ds[i])
  {
    if ds == [] then [] else [Lift(s, ds[0])] + LiftAll(s, ds[1..])
  }

  /** A diff never removes the root of what it compares. */
  predicate Proper(ds: seq<FieldDiff>) {
    forall d :: d in ds ==> (d.kind == Removed ==> d.path != []) && (d.kind != Removed ==> d.newValue.Some?)
  }

  lemma {:induction false} LiftedWrites(s: Step, ds: seq<FieldDiff>)
    ensures Writes(LiftAll(s, ds)) == LiftAll(s, Writes(ds))
  {
    if ds != [] {
      LiftedWrites(s, ds[1..]);
      assert LiftAll(s, ds)[1..] == LiftAll(s, ds[1..]);
    }
  }

  lemma {:induction false} LiftedRemovals(s: Step, ds: seq<FieldDiff>)
    ensures RemovalsBackwards(LiftAll(s, ds)) == LiftAll(s, RemovalsBackwards(ds))
  {
    if ds != [] {
      LiftedRemovals(s, ds[1..]);
      assert LiftAll(s, ds)[1..] == LiftAll(s, ds[1..]);
    }
  }

  lemma {:induction false} ProperParts(ds: seq<FieldDiff>)
    requires Proper(ds)
    ensures Proper(Writes(ds)) && Proper(RemovalsBackwards(ds))
  {
    if ds != [] { ProperParts(ds[1..]); }
  }

  function WithChild(j: Json, s: Step, v: Json): (r: Json)
    requires Child(j, s).Some?
    ensures Child(r, s) == Some(v)
    ensures forall t :: t != s ==> Child(r, t) == Child(j, t)
  {
    match s
    case Key(k) => Obj(j.fields[k := v])
    case Index(i) => Arr(j.elems[i := v])
  }

  /** Lifted edits act on the one child and nothing else. */
  lemma {:induction false} LiftedEdits(j: Json, s: Step, ds: seq<FieldDiff>)
    requires Child(j, s).Some? && Proper(ds)
    ensures EditAll(j, LiftAll(s, ds)) == WithChild(j, s, EditAll(Child(j, s).value, ds))
    decreases |ds|
  {
    var c := Child(j, s).value;
    if ds == [] {
      match s
      case Key(k) => assert j.fields[k := c] == j.fields;
      case Index(i) => assert j.elems[i := c] == j.elems;
    } else {
      assert ds[0] in ds;
      var j1 := WithChild(j, s, Edit(c, ds[0]));
      LiftedEdits(j1, s, ds[1..]);
      assert LiftAll(s, ds)[1..] == LiftAll(s, ds[1..]);
      var v := EditAll(Edit(c, ds[0]), ds[1..]);
      match s
      case Key(k) =>
        var m: map<string, Json> := j1.fields;
        assert m[k := v] == j.fields[k := v];
      case Index(i) =>
        var xs: seq<Json> := j1.elems;
        assert xs[i := v] == j.elems[i := v];
    }
  }

  // ----- diffs do not depend on where they start -----

  function Prefixed(path: Path, ds: seq<FieldDiff>): (r: seq<FieldDiff>)
    ensures |r| == |ds|
    ensures forall i :: 0 <= i < |ds| ==> r[i] == ds[i].(path := path + ds[i].path)
  {
    if ds == [] then [] else [ds[0].(path := path + ds[0].path)] + Prefixed(path, ds[1..])
  }

  lemma {:induction false} PrefixedConcat(pre: Path, a: seq<FieldDiff>, b: seq<FieldDiff>)
    ensures Prefixed(pre, a + b) == Prefixed(pre, a) + Prefixed(pre, b)
  {
  }

  lemma {:induction false} CompareIsRelative(f: Json, l: Json, pre: Path, path: Path)
    ensures Compare(f, l, pre + path, []) == Prefixed(pre, Compare(f, l, path, []))
    decreases f, 3
  {
    if f.Obj? && l.Obj? {
      KeysAreRelative(SortedKeys(f.fields.Keys + l.fields.Keys), f, l, pre, path);
    } else if f.Arr? && l.Arr? {
      ElemsAreRelative(0, f, l, pre, path);
    }
  }

  lemma FieldIsRelative(k: string, f: Json, l: Json, pre: Path, path: Path)
    requires f.Obj? && l.Obj? && (k in f.fields || k in l.fields)
    ensures CompareField(k, f, l, pre + path, []) == Prefixed(pre, CompareField(k, f, l, path, []))
    decreases f, 0
  {
    hide Compare;
    assert (pre + path) + [Key(k)] == pre + (path + [Key(k)]);
    if k in f.fields && k in l.fields {
      CompareIsRelative(f.fields[k], l.fields[k], pre, path + [Key(k)]);
    }
  }

  lemma {:induction false} KeysAreRelative(ks: seq<string>, f: Json, l: Json, pre: Path, path: Path)
    requires f.Obj? && l.Obj? && KeysOf(ks, f, l)
    ensures CompareKeys(ks, f, l, pre + path, []) == Prefixed(pre, CompareKeys(ks, f, l, path, []))
    decreases f, 1, |ks|
  {
    if ks != [] {
      hide Compare, CompareField, Prefixed;
      FieldIsRelative(ks[0], f, l, pre, path);
      KeysAreRelative(ks[1..], f, l, pre, path);
      PrefixedConcat(pre, CompareField(ks[0], f, l, path, []), CompareKeys(ks[1..], f, l, path, []));
    }
  }

  lemma ElemIsRelative(i: nat, f: Json, l: Json, pre: Path, path: Path)
    requires f.Arr? && l.Arr? && i < Max(|f.elems|, |l.elems|)
    ensures CompareElem(i, f, l, pre + path, []) == Prefixed(pre, CompareElem(i, f, l, path, []))
    decreases f, 0
  {
    hide Compare;
    assert (pre + path) + [Index(i)] == pre + (path + [Index(i)]);
    if i < |f.elems| && i < |l.elems| {
      CompareIsRelative(f.elems[i], l.elems[i], pre, path + [Index(i)]);
    }
  }

  lemma {:induction false} ElemsAreRelative(i: nat, f: Json, l: Json, pre: Path, path: Path)
    requires f.Arr? && l.Arr? && i <= Max(|f.elems|, |l.elems|)
    ensures CompareElems(i, f, l, pre + path, []) == Prefixed(pre, CompareElems(i, f, l, path, []))
    decreases f, 1, Max(|f.elems|, |l.elems|) - i
  {
    if i < Max(|f.elems|, |l.elems|) {
      hide Compare, CompareElem, Prefixed;
      ElemIsRelative(i, f, l, pre, path);
      ElemsAreRelative(i + 1, f, l, pre, path);
      PrefixedConcat(pre, CompareElem(i, f, l, path, []), CompareElems(i + 1, f, l, path, []));
    }
  }

  lemma ChildDiffsAreLifted(f: Json, l: Json, s: Step)
    ensures Compare(f, l, [s], []) == LiftAll(s, Compare(f, l, [], []))
  {
    assert [s] + [] == [s];
    CompareIsRelative(f, l, [s], []);
    assert Prefixed([s], Compare(f, l, [], [])) == LiftAll(s, Compare(f, l, [], []));
  }

  lemma {:induction false} CompareIsProper(f: Json, l: Json, path: Path)
    ensures Proper(Compare(f, l, path, []))
    decreases f, 2
  {
    if f.Obj? && l.Obj? {
      KeysAreProper(SortedKeys(f.fields.Keys + l.fields.Keys), f, l, path);
    } else if f.Arr? && l.Arr? {
      ElemsAreProper(0, f, l, path);
    }
  }

  lemma {:induction false} KeysAreProper(ks: seq<string>, f: Json, l: Json, path: Path)
    requires f.Obj? && l.Obj? && KeysOf(ks, f, l)
    ensures Proper(CompareKeys(ks, f, l, path, []))
    decreases f, 1, |ks|
  {
    if ks != [] {
      var k := ks[0];
      assert k in ks;
      if k in f.fields && k in l.fields { CompareIsProper(f.fields[k], l.fields[k], path + [Key(k)]); }
      KeysAreProper(ks[1..], f, l, path);
    }
  }

  lemma {:induction false} ElemsAreProper(i: nat, f: Json, l: Json, path: Path)
    requires f.Arr? && l.Arr? && i <= Max(|f.elems|, |l.elems|)
    ensures Proper(CompareElems(i, f, l, path, []))
    decreases f, 1, Max(|f.elems|, |l.elems|) - i
  {
    if i < Max(|f.elems|, |l.elems|) {
      if i < |f.elems| && i < |l.elems| { CompareIsProper(f.elems[i], l.elems[i], path + [Index(i)]); }
      ElemsAreProper(i + 1, f, l, path);
    }
  }

  // ----- objects -----

  function Get(m: map<string, Json>, k: string): Option<Json> {
    if k in m then Some(m[k]) else None
  }

  /** A field after the writes and before the removals. */
  ghost function MidField(f: Json, l: Json, k: string): Option<Json>
    requires f.Obj? && l.Obj?
  {
    if k in f.fields && k in l.fields then
      Some(EditAll(f.fields[k], Writes(Compare(f.fields[k], l.fields[k], [], []))))
    else if k in f.fields then Some(f.fields[k])
    else Get(l.fields, k)
  }

  ghost predicate DistinctKeys(ks: seq<string>) {
    forall i, j :: 0 <= i < j < |ks| ==> ks[i] != ks[j]
  }

  lemma FieldWrite(k: string, f: Json, l: Json, m: map<string, Json>) returns (r: map<string, Json>)
    requires f.Obj? && l.Obj? && (k in f.fields || k in l.fields)
    requires Get(m, k) == Get(f.fields, k)
    ensures EditAll(Obj(m), Writes(CompareField(k, f, l, [], []))) == Obj(r)
    ensures Get(r, k) == MidField(f, l, k)
    ensures forall x :: x != k ==> Get(r, x) == Get(m, x)
  {
    hide Compare;
    var ds := CompareField(k, f, l, [], []);
    assert [] + [Key(k)] == [Key(k)];
    if k in f.fields && k in l.fields {
      var inner := Compare(f.fields[k], l.fields[k], [], []);
      ChildDiffsAreLifted(f.fields[k], l.fields[k], Key(k));
      LiftedWrites(Key(k), inner);
      CompareIsProper(f.fields[k], l.fields[k], []);
      ProperParts(inner);
      LiftedEdits(Obj(m), Key(k), Writes(inner));
      r := m[k := EditAll(m[k], Writes(inner))];
    } else if k in f.fields {
      assert ds[1..] == [];
      r := m;
    } else {
      assert ds[1..] == [];
      assert Writes(ds) == ds;
      r := m[k := l.fields[k]];
      assert EditAll(Obj(m), ds) == Edit(Obj(m), ds[0]);
    }
  }

  lemma FieldRemovals(k: string, f: Json, l: Json, m: map<string, Json>) returns (r: map<string, Json>)
    requires f.Obj? && l.Obj? && (k in f.fields || k in l.fields)
    requires Get(m, k) == MidField(f, l, k)
    requires k in f.fields && k in l.fields ==>
      Replay(f.fields[k], Compare(f.fields[k], l.fields[k], [], [])) == l.fields[k]
    ensures EditAll(Obj(m), RemovalsBackwards(CompareField(k, f, l, [], []))) == Obj(r)
    ensures Get(r, k) == Get(l.fields, k)
    ensures forall x :: x != k ==> Get(r, x) == Get(m, x)
  {
    hide Compare;
    var ds := CompareField(k, f, l, [], []);
    assert [] + [Key(k)] == [Key(k)];
    if k in f.fields && k in l.fields {
      var inner := Compare(f.fields[k], l.fields[k], [], []);
      ChildDiffsAreLifted(f.fields[k], l.fields[k], Key(k));
      LiftedRemovals(Key(k), inner);
      CompareIsProper(f.fields[k], l.fields[k], []);
      ProperParts(inner);
      LiftedEdits(Obj(m), Key(k), RemovalsBackwards(inner));
      r := m[k := EditAll(m[k], RemovalsBackwards(inner))];
    } else if k in f.fields {
      assert ds[1..] == [];
      assert RemovalsBackwards(ds) == ds;
      r := m - {k};
      assert EditAll(Obj(m), ds) == Edit(Obj(m), ds[0]);
    } else {
      assert ds[1..] == [];
      r := m;
    }
  }

  lemma {:induction false} KeyWrites(ks: seq<string>, f: Json, l: Json, m: map<string, Json>) returns (r: map<string, Json>)
    requires f.Obj? && l.Obj? && KeysOf(ks, f, l) && DistinctKeys(ks)
    requires forall k :: k in ks ==> Get(m, k) == Get(f.fields, k)
    ensures EditAll(Obj(m), Writes(CompareKeys(ks, f, l, [], []))) == Obj(r)
    ensures forall k :: Get(r, k) == if k in ks then MidField(f, l, k) else Get(m, k)
    decreases |ks|
  {
    if ks == [] {
      r := m;
    } else {
      var k, rest := ks[0], ks[1..];
      assert k in ks && k !in rest;
      var here, later := CompareField(k, f, l, [], []), CompareKeys(rest, f, l, [], []);
      WritesConcat(here, later);
      EditAllConcat(Obj(m), Writes(here), Writes(later));
      var m1 := FieldWrite(k, f, l, m);
      r := KeyWrites(rest, f, l, m1);
      assert forall x :: x in ks <==> x == k || x in rest;
    }
  }

  lemma {:induction false} KeyRemovals(ks: seq<string>, f: Json, l: Json, m: map<string, Json>) returns (r: map<string, Json>)
    requires f.Obj? && l.Obj? && KeysOf(ks, f, l) && DistinctKeys(ks)
    requires forall k :: k in ks ==> Get(m, k) == MidField(f, l, k)
    requires forall k :: k in ks && k in f.fields && k in l.fields ==>
      Replay(f.fields[k], Compare(f.fields[k], l.fields[k], [], [])) == l.fields[k]
    ensures EditAll(Obj(m), RemovalsBackwards(CompareKeys(ks, f, l, [], []))) == Obj(r)
    ensures forall k :: Get(r, k) == if k in ks then Get(l.fields, k) else Get(m, k)
    decreases |ks|
  {
    if ks == [] {
      r := m;
    } else {
      var k, rest := ks[0], ks[1..];
      assert k in ks && k !in rest;
      var here, later := CompareField(k, f, l, [], []), CompareKeys(rest, f, l, [], []);
      RemovalsConcat(here, later);
      EditAllConcat(Obj(m), RemovalsBackwards(later), RemovalsBackwards(here));
      var m1 := KeyRemovals(rest, f, l, m);
      r := FieldRemovals(k, f, l, m1);
      assert forall x :: x in ks <==> x == k || x in rest;
    }
  }

  // ----- arrays -----

  /** An element after the writes and before the removals. */
  ghost function MidElem(f: Json, l: Json, i: nat): Json
    requires f.Arr? && l.Arr? && i < Max(|f.elems|, |l.elems|)
  {
    if i < |f.elems| && i < |l.elems| then
      EditAll(f.elems[i], Writes(Compare(f.elems[i], l.elems[i], [], [])))
    else if i < |f.elems| then f.elems[i]
    else l.elems[i]
  }

  lemma ElemWrite(i: nat, f: Json, l: Json, xs: seq<Json>) returns (r: seq<Json>)
    requires f.Arr? && l.Arr? && i < Max(|f.elems|, |l.elems|)
    requires |xs| == Max(i, |f.elems|) && (i < |f.elems| ==> xs[i] == f.elems[i])
    ensures EditAll(Arr(xs), Writes(CompareElem(i, f, l, [], []))) == Arr(r)
    ensures |r| == Max(i + 1, |f.elems|) && r[i] == MidElem(f, l, i)
    ensures forall k: nat :: k < |xs| && k != i ==> r[k] == xs[k]
  {
    hide Compare;
    var ds := CompareElem(i, f, l, [], []);
    assert [] + [Index(i)] == [Index(i)];
    if i < |f.elems| && i < |l.elems| {
      var inner := Compare(f.elems[i], l.elems[i], [], []);
      ChildDiffsAreLifted(f.elems[i], l.elems[i], Index(i));
      LiftedWrites(Index(i), inner);
      CompareIsProper(f.elems[i], l.elems[i], []);
      ProperParts(inner);
      LiftedEdits(Arr(xs), Index(i), Writes(inner));
      r := xs[i := EditAll(xs[i], Writes(inner))];
    } else if i < |f.elems| {
      assert ds[1..] == [];
      r := xs;
    } else {
      assert ds[1..] == [];
      assert Writes(ds) == ds;
      assert EditAll(Arr(xs), ds) == Edit(Arr(xs), ds[0]);
      r := xs + [l.elems[i]];
    }
  }

  lemma {:induction false} ElemWrites(i: nat, f: Json, l: Json, xs: seq<Json>) returns (r: seq<Json>)
    requires f.Arr? && l.Arr? && i <= Max(|f.elems|, |l.elems|)
    requires |xs| == Max(i, |f.elems|)
    requires forall k :: i <= k < |f.elems| ==> xs[k] == f.elems[k]
    ensures EditAll(Arr(xs), Writes(CompareElems(i, f, l, [], []))) == Arr(r)
    ensures |r| == Max(|f.elems|, |l.elems|)
    ensures forall k: nat :: k < i ==> r[k] == xs[k]
    ensures forall k: nat :: i <= k < |r| ==> r[k] == MidElem(f, l, k)
    decreases Max(|f.elems|, |l.elems|) - i
  {
    hide CompareElem, CompareElems, EditAll, Writes, MidElem;
    if i == Max(|f.elems|, |l.elems|) {
      NoElemsLeft(i, f, l, xs);
      r := xs;
    } else {
      var xs1 := ElemWrite(i, f, l, xs);
      WriteElemFirst(i, f, l, xs);
      r := ElemWrites(i + 1, f, l, xs1);
      assert forall k: nat :: k < i ==> r[k] == xs1[k] && xs1[k] == xs[k];
    }
  }

  lemma NoElemsLeft(i: nat, f: Json, l: Json, xs: seq<Json>)
    requires f.Arr? && l.Arr? && i == Max(|f.elems|, |l.elems|)
    ensures EditAll(Arr(xs), Writes(CompareElems(i, f, l, [], []))) == Arr(xs)
  {
  }

  /** The writes for the elements from `i` on start with those for element `i`. */
  lemma WriteElemFirst(i: nat, f: Json, l: Json, xs: seq<Json>)
    requires f.Arr? && l.Arr? && i < Max(|f.elems|, |l.elems|)
    ensures EditAll(Arr(xs), Writes(CompareElems(i, f, l, [], []))) ==
      EditAll(EditAll(Arr(xs), Writes(CompareElem(i, f, l, [], []))), Writes(CompareElems(i + 1, f, l, [], [])))
  {
    hide CompareElem, EditAll, Writes;
    var here, later := CompareElem(i, f, l, [], []), CompareElems(i + 1, f, l, [], []);
    WritesConcat(here, later);
    EditAllConcat(Arr(xs), Writes(here), Writes(later));
  }

  lemma ElemRemoval(i: nat, f: Json, l: Json, xs: seq<Json>) returns (r: seq<Json>)
    requires f.Arr? && l.Arr? && i < Max(|f.elems|, |l.elems|)
    requires |xs| == Max(i + 1, |l.elems|) && xs[i] == MidElem(f, l, i)
    requires i < |f.elems| && i < |l.elems| ==>
      Replay(f.elems[i], Compare(f.elems[i], l.elems[i], [], [])) == l.elems[i]
    ensures EditAll(Arr(xs), RemovalsBackwards(CompareElem(i, f, l, [], []))) == Arr(r)
    ensures |r| == Max(i, |l.elems|)
    ensures forall k: nat :: k < |r| && k != i ==> r[k] == xs[k]
    ensures i < |r| ==> r[i] == l.elems[i]
  {
    hide Compare;
    var ds := CompareElem(i, f, l, [], []);
    assert [] + [Index(i)] == [Index(i)];
    if i < |f.elems| && i < |l.elems| {
      var inner := Compare(f.elems[i], l.elems[i], [], []);
      ChildDiffsAreLifted(f.elems[i], l.elems[i], Index(i));
      LiftedRemovals(Index(i), inner);
      CompareIsProper(f.elems[i], l.elems[i], []);
      ProperParts(inner);
      LiftedEdits(Arr(xs), Index(i), RemovalsBackwards(inner));
      r := xs[i := EditAll(xs[i], RemovalsBackwards(inner))];
    } else if i < |f.elems| {
      assert ds[1..] == [];
      assert RemovalsBackwards(ds) == ds;
      assert EditAll(Arr(xs), ds) == Edit(Arr(xs), ds[0]);
      r := xs[..i];
      assert xs[..i] + xs[i + 1..] == r;
    } else {
      assert ds[1..] == [];
      assert RemovalsBackwards(ds) == [];
      r := xs;
    }
  }

  lemma {:induction false} ElemRemovals(i: nat, f: Json, l: Json, xs: seq<Json>) returns (r: seq<Json>)
    requires f.Arr? && l.Arr? && i <= Max(|f.elems|, |l.elems|)
    requires |xs| == Max(|f.elems|, |l.elems|)
    requires forall k: nat :: i <= k < |xs| ==> xs[k] == MidElem(f, l, k)
    requires forall k: nat :: i <= k < |f.elems| && k < |l.elems| ==>
      Replay(f.elems[k], Compare(f.elems[k], l.elems[k], [], [])) == l.elems[k]
    ensures EditAll(Arr(xs), RemovalsBackwards(CompareElems(i, f, l, [], []))) == Arr(r)
    ensures |r| == Max(i, |l.elems|)
    ensures forall k: nat :: k < i ==> r[k] == xs[k]
    ensures forall k: nat :: i <= k < |r| ==> r[k] == l.elems[k]
    decreases Max(|f.elems|, |l.elems|) - i
  {
    if i == Max(|f.elems|, |l.elems|) {
      r := xs;
    } else {
      var here, later := CompareElem(i, f, l, [], []), CompareElems(i + 1, f, l, [], []);
      hide CompareElem, EditAll, RemovalsBackwards, MidElem;
      RemovalsConcat(here, later);
      EditAllConcat(Arr(xs), RemovalsBackwards(later), RemovalsBackwards(here));
      var xs1 := ElemRemovals(i + 1, f, l, xs);
      r := ElemRemoval(i, f, l, xs1);
    }
  }

  // ----- the theorem -----

  lemma FieldsDetermineMap(a: map<string, Json>, b: map<string, Json>)
    requires forall k :: Get(a, k) == Get(b, k)
    ensures a == b
  {
    forall k ensures k in a <==> k in b {
      assert Get(a, k) == Get(b, k);
    }
    forall k | k in a ensures a[k] == b[k] {
      assert Get(a, k) == Get(b, k);
    }
  }

  ghost predicate KeysExactly(ks: seq<string>, f: Json, l: Json)
    requires f.Obj? && l.Obj?
  {
    DistinctKeys(ks) && KeysOf(ks, f, l) &&
    forall k :: k in f.fields || k in l.fields ==> k in ks
  }

  lemma SortedKeysAreExact(f: Json, l: Json)
    requires f.Obj? && l.Obj?
    ensures KeysExactly(SortedKeys(f.fields.Keys + l.fields.Keys), f, l)
  {
    var ks := SortedKeys(f.fields.Keys + l.fields.Keys);
    forall i, j | 0 <= i < j < |ks| ensures ks[i] != ks[j] { LessTotal(ks[i], ks[j]); }
  }

  lemma KeysReplay(ks: seq<string>, f: Json, l: Json)
    requires f.Obj? && l.Obj? && KeysExactly(ks, f, l)
    requires forall k :: k in f.fields && k in l.fields ==>
      Replay(f.fields[k], Compare(f.fields[k], l.fields[k], [], [])) == l.fields[k]
    ensures Replay(f, CompareKeys(ks, f, l, [], [])) == l
  {
    var m1 := KeyWrites(ks, f, l, f.fields);
    var m2 := KeyRemovals(ks, f, l, m1);
    forall k ensures Get(m2, k) == Get(l.fields, k) {
    }
    FieldsDetermineMap(m2, l.fields);
  }

  lemma ObjectReplays(f: Json, l: Json)
    requires f.Obj? && l.Obj?
    requires forall k :: k in f.fields && k in l.fields ==>
      Replay(f.fields[k], Compare(f.fields[k], l.fields[k], [], [])) == l.fields[k]
    ensures Replay(f, Compare(f, l, [], [])) == l
  {
    SortedKeysAreExact(f, l);
    KeysReplay(SortedKeys(f.fields.Keys + l.fields.Keys), f, l);
  }

  lemma ArrayReplays(f: Json, l: Json)
    requires f.Arr? && l.Arr?
    requires forall k: nat :: k < |f.elems| && k < |l.elems| ==>
      Replay(f.elems[k], Compare(f.elems[k], l.elems[k], [], [])) == l.elems[k]
    ensures Replay(f, Compare(f, l, [], [])) == l
  {
    assert Compare(f, l, [], []) == CompareElems(0, f, l, [], []);
    hide Compare, CompareElems, EditAll, MidElem, Writes, RemovalsBackwards;
    var xs1 := ElemWrites(0, f, l, f.elems);
    var xs2 := ElemRemovals(0, f, l, xs1);
    assert xs2 == l.elems;
  }

  /** Additions, changes and removals are a complete recipe: replayed on the
      fixture they produce the live tree. */
  lemma {:induction false} ReplayYieldsLive(f: Json, l: Json)
    ensures Replay(f, Compare(f, l, [], [])) == l
    decreases f
  {
    if f.Obj? && l.Obj? {
      forall k | k in f.fields && k in l.fields
        ensures Replay(f.fields[k], Compare(f.fields[k], l.fields[k], [], [])) == l.fields[k]
      {
        ReplayYieldsLive(f.fields[k], l.fields[k]);
      }
      ObjectReplays(f, l);
    } else if f.Arr? && l.Arr? {
      forall k: nat | k < |f.elems| && k < |l.elems|
        ensures Replay(f.elems[k], Compare(f.elems[k], l.elems[k], [], [])) == l.elems[k]
      {
        ReplayYieldsLive(f.elems[k], l.elems[k]);
      }
      ArrayReplays(f, l);
    } else {
      JsonEqualIsEquality(f, l);
      var ds := Compare(f, l, [], []);
      if ds != [] {
        assert ds[1..] == [];
        assert Writes(ds) == ds && RemovalsBackwards(ds) == [];
        assert EditAll(f, ds) == Edit(f, ds[0]);
      }
    }
  }
}
