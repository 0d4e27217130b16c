/** JSON trees as `encoding/json` builds them, the two kinds of path over them,
    and the pointwise view of a tree: what a reader finds at each concrete path. */
module JsonTree {
  import opened Options

  datatype Json =
    | Null
    | Bool(b: bool)
    | Num(n: real)
    | Str(s: string)
    | Obj(fields: map<string, Json>)
    | Arr(elems: seq<Json>)

  /** One step of a redaction path; `wildcard` is the `[*]` suffix. */
  datatype Segment = Segment(key: string, wildcard: bool)

  /** One step of a concrete path through a tree. */
  datatype Step = Key(key: string) | Index(index: nat)

  type Path = seq<Step>
  type Pattern = seq<Segment>

  function Child(j: Json, step: Step): Option<Json> {
    match step
    case Key(k) => if j.Obj? && k in j.fields then Some(j.fields[k]) else None
    case Index(i) => if j.Arr? && i < |j.elems| then Some(j.elems[i]) else None
  }

  /** The value at a concrete path, if there is one. */
  function At(j: Json, p: Path): Option<Json> {
    if p == [] then Some(j)
    else
      match Child(j, p[0])
      case None => None
      case Some(v) => At(v, p[1..])
  }

  /** What a reader sees at a location without looking further down. */
  datatype Shape = Absent | Scalar(v: Json) | IsObject | IsArray

  function ShapeOf(v: Option<Json>): Shape {
    match v
    case None => Absent
    case Some(Obj(_)) => IsObject
    case Some(Arr(_)) => IsArray
    case Some(s) => Scalar(s)
  }

  predicate IsContainer(j: Json) { j.Obj? || j.Arr? }

  lemma {:induction false} AtConcat(j: Json, p: Path, q: Path)
    ensures At(j, p + q) == match At(j, p) case None => None case Some(v) => At(v, q)
    decreases |p|
  {
    if p == [] {
      assert p + q == q;
    } else {
      assert (p + q)[1..] == p[1..] + q;
      match Child(j, p[0])
      case None =>
      case Some(v) => AtConcat(v, p[1..], q);
    }
  }

  /** A tree is determined by the shapes at all its paths. */
  lemma {:induction false} ShapesDetermineTree(a: Json, b: Json)
    requires forall p: Path :: ShapeOf(At(a, p)) == ShapeOf(At(b, p))
    ensures a == b
    decreases a
  {
    assert ShapeOf(At(a, [])) == ShapeOf(At(b, []));
    match a {
      case Obj(m) =>
        forall k | k in m || k in b.fields
          ensures k in m && k in b.fields && m[k] == b.fields[k]
        {
          ChildShapes(a, b, Key(k));
          if k in m {
            ShapesDetermineTree(m[k], b.fields[k]);
          }
        }
        assert m == b.fields;
      case Arr(xs) =>
        var ys := b.elems;
        ChildShapes(a, b, Index(|xs|));
        ChildShapes(a, b, Index(|ys|));
        assert |xs| == |ys|;
        forall i: nat | i < |xs|
          ensures xs[i] == ys[i]
        {
          ChildShapes(a, b, Index(i));
          ShapesDetermineTree(xs[i], ys[i]);
        }
        assert xs == ys;
      case _ =>
    }
  }

  lemma AtStep(j: Json, s: Step, q: Path)
    ensures At(j, [s] + q) == match Child(j, s) case None => None case Some(v) => At(v, q)
    ensures At(j, [s]) == Child(j, s)
  {
    assert ([s] + q)[1..] == q;
    assert [s][1..] == [];
  }

  lemma ChildShapes(a: Json, b: Json, s: Step)
    requires forall p: Path :: ShapeOf(At(a, p)) == ShapeOf(At(b, p))
    ensures Child(a, s).Some? <==> Child(b, s).Some?
    ensures Child(a, s).Some? ==>
      forall p: Path :: ShapeOf(At(Child(a, s).value, p)) == ShapeOf(At(Child(b, s).value, p))
  {
    AtStep(a, s, []);
    AtStep(b, s, []);
    assert ShapeOf(At(a, [s])) == ShapeOf(At(b, [s]));
    if Child(a, s).Some? {
      forall p: Path
        ensures ShapeOf(At(Child(a, s).value, p)) == ShapeOf(At(Child(b, s).value, p))
      {
        AtStep(a, s, p);
        AtStep(b, s, p);
        assert ShapeOf(At(a, [s] + p)) == ShapeOf(At(b, [s] + p));
      }
    }
  }
}
