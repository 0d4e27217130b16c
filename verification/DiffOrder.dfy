/** The order of a diff's reports: by path, and each path at most once (diff.go:593-703). */
module DiffOrder {
  import opened Options
  import opened JsonTree
  import opened PathPatterns
  import opened KeyOrder
  import opened Diff
  import DiffAgreement

  /** Keys are ordered as byte strings: by the first byte in which they differ, a prefix
      coming first. */
  lemma {:induction false} KeysAreOrderedByBytes(p: string, c: char, d: char, x: string, y: string)
    requires c < d
    ensures Less(p + [c] + x, p + [d] + y) && Less(p, p + [c] + x)
    decreases |p|
  {
    var a, b := p + [c] + x, p + [d] + y;
    if p != [] {
      assert a[1..] == p[1..] + [c] + x && b[1..] == p[1..] + [d] + y && a[0] == p[0] == b[0];
      KeysAreOrderedByBytes(p[1..], c, d, x, y);
    }
  }

  /** Where the paths part, the first takes the smaller key or index. */
  predicate PartsBefore(p: Path, q: Path, n: nat) {
    n < |p| && n < |q| && p[..n] == q[..n] &&
    ((p[n].Key? && q[n].Key? && Less(p[n].key, q[n].key)) || (p[n].Index? && q[n].Index? && p[n].index < q[n].index))
  }

  ghost predicate Before(p: Path, q: Path) { exists n: nat :: PartsBefore(p, q, n) }

  ghost predicate InOrder(ds: seq<FieldDiff>) {
    forall i, j :: 0 <= i < j < |ds| ==> Before(ds[i].path, ds[j].path)
  }

  predicate AllBelow(ds: seq<FieldDiff>, path: Path) { forall d :: d in ds ==> path <= d.path }

  lemma OrderConcat(a: seq<FieldDiff>, b: seq<FieldDiff>)
    requires InOrder(a) && InOrder(b) && forall x, y :: x in a && y in b ==> Before(x.path, y.path)
    ensures InOrder(a + b)
  {
    hide Before;
    var ds := a + b;
    forall i, j | 0 <= i < j < |ds| ensures Before(ds[i].path, ds[j].path) {
      if j < |a| {
        assert Before(a[i].path, a[j].path);
      } else if i >= |a| {
        assert Before(b[i - |a|].path, b[j - |a|].path);
      } else {
        assert a[i] in a && b[j - |a|] in b;
      }
    }
  }

  lemma PartAtStep(path: Path, s: Step, t: Step, p: Path, q: Path)
    requires path + [s] <= p && path + [t] <= q
    requires (s.Key? && t.Key? && Less(s.key, t.key)) || (s.Index? && t.Index? && s.index < t.index)
    ensures Before(p, q)
  {
    var n := |path|;
    assert p[..n] == (path + [s])[..n] == path && q[..n] == (path + [t])[..n] == path;
    assert p[n] == (path + [s])[n] && q[n] == (path + [t])[n];
    assert PartsBefore(p, q, n);
  }

  lemma CompareIsBelow(f: Json, l: Json, path: Path, ignore: seq<Pattern>)
    ensures AllBelow(Compare(f, l, path, ignore), path)
  {
    DiffAgreement.ReportedDiffsAreExact(f, l, path, ignore);
    hide Compare;
  }

  lemma BelowLonger(ds: seq<FieldDiff>, path: Path, s: Step)
    requires AllBelow(ds, path + [s])
    ensures AllBelow(ds, path)
  {
    forall d | d in ds ensures path <= d.path {
      assert path + [s] <= d.path && (path + [s])[..|path|] == path;
    }
  }

  lemma FieldIsBelow(k: string, f: Json, l: Json, path: Path, ignore: seq<Pattern>)
    requires f.Obj? && l.Obj? && (k in f.fields || k in l.fields)
    ensures AllBelow(CompareField(k, f, l, path, ignore), path + [Key(k)])
  {
    if k in f.fields && k in l.fields { CompareIsBelow(f.fields[k], l.fields[k], path + [Key(k)], ignore); }
    hide Compare;
  }

  lemma ElemIsBelow(i: nat, f: Json, l: Json, path: Path, ignore: seq<Pattern>)
    requires f.Arr? && l.Arr? && i < Max(|f.elems|, |l.elems|)
    ensures AllBelow(CompareElem(i, f, l, path, ignore), path + [Index(i)])
  {
    if i < |f.elems| && i < |l.elems| { CompareIsBelow(f.elems[i], l.elems[i], path + [Index(i)], ignore); }
    hide Compare;
  }

  /** Some report of the keys lies below one of them. */
  lemma {:induction false} KeysAreBelow(ks: seq<string>, f: Json, l: Json, path: Path, ignore: seq<Pattern>, d: FieldDiff) returns (k: string)
    requires f.Obj? && l.Obj? && KeysOf(ks, f, l) && d in CompareKeys(ks, f, l, path, ignore)
    ensures k in ks && path + [Key(k)] <= d.path
    decreases |ks|
  {
    hide CompareField;
    var head := CompareField(ks[0], f, l, path, ignore);
    if d in head {
      k := ks[0];
      FieldIsBelow(k, f, l, path, ignore);
    } else {
      k := KeysAreBelow(ks[1..], f, l, path, ignore, d);
    }
  }

  lemma {:induction false} ElemsAreBelow(i: nat, f: Json, l: Json, path: Path, ignore: seq<Pattern>, d: FieldDiff) returns (k: nat)
    requires f.Arr? && l.Arr? && i <= Max(|f.elems|, |l.elems|) && d in CompareElems(i, f, l, path, ignore)
    ensures i <= k && path + [Index(k)] <= d.path
    decreases Max(|f.elems|, |l.elems|) - i
  {
    hide CompareElem;
    if d in CompareElem(i, f, l, path, ignore) {
      k := i;
      ElemIsBelow(i, f, l, path, ignore);
    } else {
      k := ElemsAreBelow(i + 1, f, l, path, ignore, d);
    }
  }

  /** Paths of which one comes before the other are neither equal nor one inside the other. */
  lemma BeforeIsApart(p: Path, q: Path)
    requires Before(p, q)
    ensures !(p <= q) && !(q <= p)
  {
    var n: nat :| PartsBefore(p, q, n);
    if p[n].Key? { LessTotal(p[n].key, q[n].key); }
  }

  /** A diff reports by path: object keys in ascending order, array elements by index, at
      every depth; so no path is reported twice, nor one inside another. */
  lemma {:induction false} ReportsAreInOrder(f: Json, l: Json, path: Path, ignore: seq<Pattern>)
    ensures InOrder(Compare(f, l, path, ignore))
    decreases f, 2
  {
    hide Before;
    if !(path != [] && Ignored(path, ignore)) {
      if f.Obj? && l.Obj? {
        KeysInOrder(SortedKeys(f.fields.Keys + l.fields.Keys), f, l, path, ignore);
      } else if f.Arr? && l.Arr? {
        ElemsInOrder(0, f, l, path, ignore);
      }
    }
  }

  lemma {:induction false} KeysInOrder(ks: seq<string>, f: Json, l: Json, path: Path, ignore: seq<Pattern>)
    requires f.Obj? && l.Obj? && KeysOf(ks, f, l) && Sorted(ks)
    ensures InOrder(CompareKeys(ks, f, l, path, ignore))
    decreases f, 1, |ks|
  {
    if ks != [] {
      var k := ks[0];
      assert k in ks;
      FieldInOrder(k, f, l, path, ignore);
      assert Sorted(ks[1..]) by { assert forall i :: 0 <= i < |ks[1..]| ==> ks[1..][i] == ks[i + 1]; }
      KeysInOrder(ks[1..], f, l, path, ignore);
      FieldIsBelow(k, f, l, path, ignore);
      hide CompareField, Before, Less, Sorted;
      var head, tail := CompareField(k, f, l, path, ignore), CompareKeys(ks[1..], f, l, path, ignore);
      forall x, y | x in head && y in tail ensures Before(x.path, y.path) {
        var j := KeysAreBelow(ks[1..], f, l, path, ignore, y);
        LaterKeyIsGreater(ks, j);
        PartAtStep(path, Key(k), Key(j), x.path, y.path);
      }
      OrderConcat(head, tail);
    }
  }

  lemma LaterKeyIsGreater(ks: seq<string>, j: string)
    requires Sorted(ks) && ks != [] && j in ks[1..]
    ensures Less(ks[0], j)
  {
    var i :| 0 <= i < |ks[1..]| && ks[1..][i] == j;
    assert ks[i + 1] == j;
  }

  lemma {:induction false} FieldInOrder(k: string, f: Json, l: Json, path: Path, ignore: seq<Pattern>)
    requires f.Obj? && l.Obj? && (k in f.fields || k in l.fields)
    ensures InOrder(CompareField(k, f, l, path, ignore))
    decreases f, 0
  {
    hide Before;
    if k in f.fields && k in l.fields { ReportsAreInOrder(f.fields[k], l.fields[k], path + [Key(k)], ignore); }
  }

  lemma {:induction false} ElemsInOrder(i: nat, f: Json, l: Json, path: Path, ignore: seq<Pattern>)
    requires f.Arr? && l.Arr? && i <= Max(|f.elems|, |l.elems|)
    ensures InOrder(CompareElems(i, f, l, path, ignore))
    decreases f, 1, Max(|f.elems|, |l.elems|) - i
  {
    if i < Max(|f.elems|, |l.elems|) {
      if i < |f.elems| && i < |l.elems| { ReportsAreInOrder(f.elems[i], l.elems[i], path + [Index(i)], ignore); }
      assert InOrder(CompareElem(i, f, l, path, ignore));
      ElemsInOrder(i + 1, f, l, path, ignore);
      ElemIsBelow(i, f, l, path, ignore);
      hide CompareElem, Before;
      var head, tail := CompareElem(i, f, l, path, ignore), CompareElems(i + 1, f, l, path, ignore);
      forall x, y | x in head && y in tail ensures Before(x.path, y.path) {
        var j := ElemsAreBelow(i + 1, f, l, path, ignore, y);
        PartAtStep(path, Index(i), Index(j), x.path, y.path);
      }
      OrderConcat(head, tail);
    }
  }
}
