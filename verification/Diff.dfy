/** Field-by-field comparison of a fixture with a live body (diff.go). */
module Diff {
  import opened Options
  import opened JsonTree
  import opened PathPatterns
  import opened KeyOrder

  datatype Kind = Added | Removed | Changed

  /** One reported difference. The path is kept structured: its display string
      loses the difference between the key "0" and the index 0. */
  datatype FieldDiff = FieldDiff(path: Path, kind: Kind, oldValue: Option<Json>, newValue: Option<Json>)

  // ----- deep equality -----

  /** The source's own recursive equality test. */
  predicate JsonEqual(a: Json, b: Json) {
    match a
    case Null => b.Null?
    case Bool(x) => b.Bool? && x == b.b
    case Num(x) => b.Num? && x == b.n
    case Str(x) => b.Str? && x == b.s
    case Obj(m) =>
      b.Obj? && |m| == |b.fields| &&
      forall k :: k in m ==> k in b.fields && JsonEqual(m[k], b.fields[k])
    case Arr(xs) =>
      b.Arr? && |xs| == |b.elems| &&
      forall i :: 0 <= i < |xs| ==> JsonEqual(xs[i], b.elems[i])
  }

  lemma SameSizeSubset<T>(a: set<T>, b: set<T>)
    requires a <= b && |a| == |b|
    ensures a == b
  {
    var extra := b - a;
    assert b == a + extra;
    assert |b| == |a| + |extra|;
  }

  lemma {:induction false} JsonEqualIsEquality(a: Json, b: Json)
    ensures JsonEqual(a, b) <==> a == b
    decreases a
  {
    match a {
      case Obj(m) =>
        if b.Obj? {
          forall k | k in m && k in b.fields ensures JsonEqual(m[k], b.fields[k]) <==> m[k] == b.fields[k] {
            JsonEqualIsEquality(m[k], b.fields[k]);
          }
          if JsonEqual(a, b) {
            assert |m| == |m.Keys| && |b.fields| == |b.fields.Keys|;
            SameSizeSubset(m.Keys, b.fields.Keys);
            assert m == b.fields;
          }
        }
      case Arr(xs) =>
        if b.Arr? && |xs| == |b.elems| {
          var ys := b.elems;
          forall i | 0 <= i < |xs| ensures JsonEqual(xs[i], ys[i]) <==> xs[i] == ys[i] {
            JsonEqualIsEquality(xs[i], ys[i]);
          }
          if JsonEqual(a, b) { assert xs == ys; }
        }
      case _ =>
    }
  }

  // ----- comparison -----

  predicate Ignored(path: Path, ignore: seq<Pattern>) {
    exists i :: 0 <= i < |ignore| && Matches(path, ignore[i])
  }

  method IsIgnored(path: Path, ignore: seq<Pattern>) returns (r: bool)
    ensures r == Ignored(path, ignore)
  {
    for i := 0 to |ignore|
      invariant forall k :: 0 <= k < i ==> !Matches(path, ignore[k])
    {
      var m := MatchesIgnorePath(path, ignore[i]);
      if m { return true; }
    }
    return false;
  }

  function Max(a: nat, b: nat): nat { if a < b then b else a }

  ghost function Compare(f: Json, l: Json, path: Path, ignore: seq<Pattern>): seq<FieldDiff>
    decreases f, 2
  {
    if path != [] && Ignored(path, ignore) then []
    else if f.Obj? && l.Obj? then
      CompareKeys(SortedKeys(f.fields.Keys + l.fields.Keys), f, l, path, ignore)
    else if f.Arr? && l.Arr? then CompareElems(0, f, l, path, ignore)
    else if JsonEqual(f, l) then []
    else [FieldDiff(path, Changed, Some(f), Some(l))]
  }

  ghost function CompareField(k: string, f: Json, l: Json, path: Path, ignore: seq<Pattern>): seq<FieldDiff>
    requires f.Obj? && l.Obj?
    requires k in f.fields || k in l.fields
    decreases f, 0
  {
    var child := path + [Key(k)];
    if Ignored(child, ignore) then []
    else if k !in l.fields then [FieldDiff(child, Removed, Some(f.fields[k]), None)]
    else if k !in f.fields then [FieldDiff(child, Added, None, Some(l.fields[k]))]
    else Compare(f.fields[k], l.fields[k], child, ignore)
  }

  predicate KeysOf(ks: seq<string>, f: Json, l: Json)
    requires f.Obj? && l.Obj?
  {
    forall k :: k in ks ==> k in f.fields || k in l.fields
  }

  ghost function CompareKeys(ks: seq<string>, f: Json, l: Json, path: Path, ignore: seq<Pattern>): seq<FieldDiff>
    requires f.Obj? && l.Obj?
    requires KeysOf(ks, f, l)
    decreases f, 1, |ks|
  {
    if ks == [] then []
    else CompareField(ks[0], f, l, path, ignore) + CompareKeys(ks[1..], f, l, path, ignore)
  }

  ghost function CompareElem(i: nat, f: Json, l: Json, path: Path, ignore: seq<Pattern>): seq<FieldDiff>
    requires f.Arr? && l.Arr?
    requires i < Max(|f.elems|, |l.elems|)
    decreases f, 0
  {
    var child := path + [Index(i)];
    if Ignored(child, ignore) then []
    else if i >= |f.elems| then [FieldDiff(child, Added, None, Some(l.elems[i]))]
    else if i >= |l.elems| then [FieldDiff(child, Removed, Some(f.elems[i]), None)]
    else Compare(f.elems[i], l.elems[i], child, ignore)
  }

  ghost function CompareElems(i: nat, f: Json, l: Json, path: Path, ignore: seq<Pattern>): seq<FieldDiff>
    requires f.Arr? && l.Arr?
    requires i <= Max(|f.elems|, |l.elems|)
    decreases f, 1, Max(|f.elems|, |l.elems|) - i
  {
    if i == Max(|f.elems|, |l.elems|) then []
    else CompareElem(i, f, l, path, ignore) + CompareElems(i + 1, f, l, path, ignore)
  }

  /** The slice the source appends to through a pointer. */
  class DiffLog {
    var diffs: seq<FieldDiff>

    constructor ()
      ensures diffs == []
    {
      diffs := [];
    }
  }

  method CompareJSON(fixture: Json, live: Json, path: Path, ignore: seq<Pattern>, log: DiffLog)
    modifies log
    ensures log.diffs == old(log.diffs) + Compare(fixture, live, path, ignore)
    decreases fixture, 2
  {
    if |path| > 0 {
      var skip := IsIgnored(path, ignore);
      if skip { return; }
    }
    if fixture.Obj? && live.Obj? {
      CompareObjects(fixture, live, path, ignore, log);
      return;
    }
    if fixture.Arr? && live.Arr? {
      CompareArrays(fixture, live, path, ignore, log);
      return;
    }
    if !JsonEqual(fixture, live) {
      log.diffs := log.diffs + [FieldDiff(path, Changed, Some(fixture), Some(live))];
    }
  }

  method CompareObjects(fixture: Json, live: Json, path: Path, ignore: seq<Pattern>, log: DiffLog)
    requires fixture.Obj? && live.Obj?
    modifies log
    ensures log.diffs == old(log.diffs) +
      CompareKeys(SortedKeys(fixture.fields.Keys + live.fields.Keys), fixture, live, path, ignore)
    decreases fixture, 1, 1
  {
    var sortedKeys := SortKeys(fixture.fields.Keys + live.fields.Keys);
    CompareSortedKeys(sortedKeys, fixture, live, path, ignore, log);
  }

  method CompareSortedKeys(sortedKeys: seq<string>, fixture: Json, live: Json, path: Path, ignore: seq<Pattern>, log: DiffLog)
    requires fixture.Obj? && live.Obj? && KeysOf(sortedKeys, fixture, live)
    modifies log
    ensures log.diffs == old(log.diffs) + CompareKeys(sortedKeys, fixture, live, path, ignore)
    decreases fixture, 1, 0
  {
    ghost var before, done := log.diffs, [];
    hide CompareField, CompareKeys, CompareKeysFrom, KeysOf;
    for i := 0 to |sortedKeys|
      invariant log.diffs == before + done
      invariant CompareKeys(sortedKeys, fixture, live, path, ignore) ==
        done + CompareKeysFrom(i, sortedKeys, fixture, live, path, ignore)
    {
      ghost var field := CompareField(sortedKeys[i], fixture, live, path, ignore);
      CompareObjectField(sortedKeys[i], fixture, live, path, ignore, log);
      done := done + field;
    }
  }

  ghost function CompareKeysFrom(i: nat, ks: seq<string>, f: Json, l: Json, path: Path, ignore: seq<Pattern>): seq<FieldDiff>
    requires f.Obj? && l.Obj? && i <= |ks|
    requires KeysOf(ks, f, l)
  {
    CompareKeys(ks[i..], f, l, path, ignore)
  }

  /** One turn of the loop over the sorted keys. */
  method CompareObjectField(key: string, fixture: Json, live: Json, path: Path, ignore: seq<Pattern>, log: DiffLog)
    requires fixture.Obj? && live.Obj?
    requires key in fixture.fields || key in live.fields
    modifies log
    ensures log.diffs == old(log.diffs) + CompareField(key, fixture, live, path, ignore)
    decreases fixture, 0
  {
    var childPath := path + [Key(key)];
    var skip := IsIgnored(childPath, ignore);
    if skip { return; }
    if key in fixture.fields && key !in live.fields {
      log.diffs := log.diffs + [FieldDiff(childPath, Removed, Some(fixture.fields[key]), None)];
    } else if key !in fixture.fields && key in live.fields {
      log.diffs := log.diffs + [FieldDiff(childPath, Added, None, Some(live.fields[key]))];
    } else {
      CompareJSON(fixture.fields[key], live.fields[key], childPath, ignore, log);
    }
  }

  method CompareArrays(fixture: Json, live: Json, path: Path, ignore: seq<Pattern>, log: DiffLog)
    requires fixture.Arr? && live.Arr?
    modifies log
    ensures log.diffs == old(log.diffs) + CompareElems(0, fixture, live, path, ignore)
    decreases fixture, 1
  {
    var maxLen := |fixture.elems|;
    if |live.elems| > maxLen { maxLen := |live.elems|; }
    for i := 0 to maxLen
      invariant old(log.diffs) + CompareElems(0, fixture, live, path, ignore) ==
        log.diffs + CompareElems(i, fixture, live, path, ignore)
    {
      var childPath := path + [Index(i)];
      var skip := IsIgnored(childPath, ignore);
      ghost var before := log.diffs;
      if !skip {
        if i >= |fixture.elems| {
          log.diffs := log.diffs + [FieldDiff(childPath, Added, None, Some(live.elems[i]))];
        } else if i >= |live.elems| {
          log.diffs := log.diffs + [FieldDiff(childPath, Removed, Some(fixture.elems[i]), None)];
        } else {
          CompareJSON(fixture.elems[i], live.elems[i], childPath, ignore, log);
        }
      }
      assert log.diffs == before + CompareElem(i, fixture, live, path, ignore);
    }
  }
}
