/** Extraction of request fields along a path (matcher.go), and its agreement with
    redaction. */
module Extract {
  import opened Options
  import opened JsonTree
  import opened PathPatterns
  import opened Sanitizer

  function ExtractAt(j: Json, segs: Pattern): Option<Json>
    decreases |segs|, 0
  {
    if segs == [] then Some(j)
    else if !j.Obj? || segs[0].key !in j.fields then None
    else
      var val, rest := j.fields[segs[0].key], segs[1..];
      if !segs[0].wildcard then ExtractAt(val, rest)
      else if !val.Arr? then None
      else if rest == [] then Some(val)
      else
        match ExtractEach(val.elems, rest)
        case None => None
        case Some(vs) => Some(Arr(vs))
  }

  /** All or nothing over the elements of an array. */
  function ExtractEach(xs: seq<Json>, segs: Pattern): (r: Option<seq<Json>>)
    ensures r.Some? <==> forall i :: 0 <= i < |xs| ==> ExtractAt(xs[i], segs).Some?
    ensures r.Some? ==> |r.value| == |xs|
    ensures r.Some? ==> forall i :: 0 <= i < |xs| ==> ExtractAt(xs[i], segs) == Some(r.value[i])
    decreases |segs|, |xs| + 1
  {
    if xs == [] then Some([])
    else
      match ExtractAt(xs[0], segs)
      case None => None
      case Some(v) =>
        match ExtractEach(xs[1..], segs)
        case None => None
        case Some(vs) => Some([v] + vs)
  }

  method ExtractAtPath(data: Json, segments: Pattern) returns (r: Option<Json>)
    ensures r == ExtractAt(data, segments)
    decreases |segments|
  {
    if |segments| == 0 { return Some(data); }
    var seg, rest := segments[0], segments[1..];
    if !data.Obj? || seg.key !in data.fields { return None; }
    var val := data.fields[seg.key];
    if seg.wildcard {
      if !val.Arr? { return None; }
      if |rest| == 0 { return Some(val); }
      var collected: seq<Json> := [];
      for i := 0 to |val.elems|
        invariant |collected| == i
        invariant forall k :: 0 <= k < i ==> ExtractAt(val.elems[k], rest) == Some(collected[k])
      {
        var v := ExtractAtPath(val.elems[i], rest);
        if v.None? { return None; }
        collected := collected + [v.value];
      }
      assert ExtractEach(val.elems, rest).value == collected;
      return Some(Arr(collected));
    }
    r := ExtractAtPath(val, rest);
  }

  // ----- what is extracted -----

  lemma AtElement(j: Json, key: string, i: nat, q: Path)
    requires j.Obj? && key in j.fields && j.fields[key].Arr?
    ensures At(j, [Key(key), Index(i)] + q) ==
      if i < |j.fields[key].elems| then At(j.fields[key].elems[i], q) else None
  {
    var p := [Key(key), Index(i)] + q;
    assert p[1..][1..] == q;
    assert At(j, p) == At(j.fields[key], p[1..]);
  }

  /** Picks one element per wildcard out of an extracted value. */
  function Pick(v: Json, choice: seq<nat>): Option<Json>
    decreases |choice|
  {
    if choice == [] then Some(v)
    else if v.Arr? && choice[0] < |v.elems| then Pick(v.elems[choice[0]], choice[1..])
    else None
  }

  /** The extracted value holds, for each choice of array indices, the value found
      at the concrete path those indices spell. */
  lemma {:induction false} ExtractedValuesAreInPlace(j: Json, segs: Pattern, choice: seq<nat>)
    requires ExtractAt(j, segs).Some? && |choice| == Wildcards(segs)
    ensures Pick(ExtractAt(j, segs).value, choice) == At(j, Instantiate(segs, choice))
    decreases |segs|
  {
    if segs != [] {
      var val, rest, p := j.fields[segs[0].key], segs[1..], Instantiate(segs, choice);
      if !segs[0].wildcard {
        ExtractedValuesAreInPlace(val, rest, choice);
        assert p[1..] == Instantiate(rest, choice);
      } else {
        AtElement(j, segs[0].key, choice[0], Instantiate(rest, choice[1..]));
        if choice[0] < |val.elems| {
          if rest == [] {
            assert choice[1..] == [];
          } else {
            ExtractedValuesAreInPlace(val.elems[choice[0]], rest, choice[1..]);
          }
        }
      }
    }
  }

  /** Can this segment be followed from this value? */
  predicate Fits(v: Json, seg: Segment) {
    v.Obj? && seg.key in v.fields && (seg.wildcard ==> v.fields[seg.key].Arr?)
  }

  /** Some place the path reaches cannot follow the path's next segment. */
  ghost predicate Misfit(j: Json, segs: Pattern, n: nat, choice: seq<nat>) {
    n < |segs| && |choice| == Wildcards(segs[..n]) &&
    var v := At(j, Instantiate(segs[..n], choice));
    v.Some? && !Fits(v.value, segs[n])
  }

  lemma WildcardsOfPrefix(segs: Pattern, n: nat)
    requires 1 <= n <= |segs|
    ensures segs[..n][0] == segs[0] && segs[..n][1..] == segs[1..][..n - 1]
    ensures Wildcards(segs[..n]) == (if segs[0].wildcard then 1 else 0) + Wildcards(segs[1..][..n - 1])
  {
  }

  lemma MisfitFromField(j: Json, segs: Pattern, n: nat, choice: seq<nat>)
    requires segs != [] && Fits(j, segs[0]) && !segs[0].wildcard
    requires n < |segs| - 1 && |choice| == Wildcards(segs[1..][..n])
    ensures Misfit(j, segs, n + 1, choice) <==> Misfit(j.fields[segs[0].key], segs[1..], n, choice)
  {
    WildcardsOfPrefix(segs, n + 1);
    var p := Instantiate(segs[..n + 1], choice);
    assert p[1..] == Instantiate(segs[1..][..n], choice);
  }

  lemma MisfitFromElem(j: Json, segs: Pattern, n: nat, i: nat, choice: seq<nat>)
    requires segs != [] && Fits(j, segs[0]) && segs[0].wildcard
    requires n < |segs| - 1 && i < |j.fields[segs[0].key].elems|
    requires |choice| == Wildcards(segs[1..][..n])
    ensures Misfit(j, segs, n + 1, [i] + choice) <==>
      Misfit(j.fields[segs[0].key].elems[i], segs[1..], n, choice)
  {
    WildcardsOfPrefix(segs, n + 1);
    assert ([i] + choice)[1..] == choice;
    var p := Instantiate(segs[..n + 1], [i] + choice);
    assert p == [Key(segs[0].key), Index(i)] + Instantiate(segs[1..][..n], choice);
    AtElement(j, segs[0].key, i, Instantiate(segs[1..][..n], choice));
    assert segs[1..][n] == segs[n + 1];
  }

  /** Extraction fails exactly when some place the path reaches cannot follow the
      path's next segment. */
  lemma {:induction false} ExtractFailsIffMisfit(j: Json, segs: Pattern)
    ensures ExtractAt(j, segs).None? <==> exists n: nat, choice: seq<nat> :: Misfit(j, segs, n, choice)
    decreases |segs|
  {
    if segs != [] {
      assert segs[..0] == [];
      if !Fits(j, segs[0]) {
        assert Misfit(j, segs, 0, []);
      } else {
        MisfitBelow(j, segs);
        var val, rest := j.fields[segs[0].key], segs[1..];
        if !segs[0].wildcard {
          ExtractFailsIffMisfit(val, rest);
        } else {
          forall i | 0 <= i < |val.elems|
            ensures ExtractAt(val.elems[i], rest).None? <==> exists n: nat, choice: seq<nat> :: Misfit(val.elems[i], rest, n, choice)
          {
            ExtractFailsIffMisfit(val.elems[i], rest);
          }
        }
      }
    }
  }

  lemma MisfitBelow(j: Json, segs: Pattern)
    requires segs != [] && Fits(j, segs[0])
    ensures (exists n: nat, choice: seq<nat> :: Misfit(j, segs, n, choice)) <==>
      (var val, rest := j.fields[segs[0].key], segs[1..];
       if !segs[0].wildcard then exists n: nat, choice: seq<nat> :: Misfit(val, rest, n, choice)
       else exists i: nat :: i < |val.elems| && exists n: nat, choice: seq<nat> :: Misfit(val.elems[i], rest, n, choice))
  {
    var val, rest := j.fields[segs[0].key], segs[1..];
    assert segs[..0] == [];
    if exists n: nat, choice: seq<nat> :: Misfit(j, segs, n, choice) {
      var n: nat, choice: seq<nat> :| Misfit(j, segs, n, choice);
      assert n > 0;
      WildcardsOfPrefix(segs, n);
      if !segs[0].wildcard {
        MisfitFromField(j, segs, n - 1, choice);
      } else {
        var p := Instantiate(segs[..n], choice);
        assert p[1] == Index(choice[0]) && At(j, p).Some?;
        assert At(val, p[1..]).Some?;
        assert choice[0] < |val.elems|;
        assert choice == [choice[0]] + choice[1..];
        MisfitFromElem(j, segs, n - 1, choice[0], choice[1..]);
      }
    }
    if !segs[0].wildcard {
      forall n: nat, choice: seq<nat> | Misfit(val, rest, n, choice) ensures Misfit(j, segs, n + 1, choice) {
        MisfitFromField(j, segs, n, choice);
      }
    } else {
      forall i: nat, n: nat, choice: seq<nat> | i < |val.elems| && Misfit(val.elems[i], rest, n, choice)
        ensures Misfit(j, segs, n + 1, [i] + choice)
      {
        MisfitFromElem(j, segs, n, i, choice);
      }
    }
  }

  // ----- extraction after rewriting -----

  /** Applies `f` under `depth` levels of arrays. */
  function Deep(f: Json -> Json, depth: nat, v: Json): Json
    decreases depth, 0
  {
    if depth == 0 then f(v)
    else if v.Arr? then Arr(DeepEach(f, depth - 1, v.elems))
    else v
  }

  function DeepEach(f: Json -> Json, depth: nat, xs: seq<Json>): (ys: seq<Json>)
    ensures |ys| == |xs|
    ensures forall i :: 0 <= i < |xs| ==> ys[i] == Deep(f, depth, xs[i])
    decreases depth, |xs| + 1
  {
    if xs == [] then [] else [Deep(f, depth, xs[0])] + DeepEach(f, depth, xs[1..])
  }

  /** Rewriting the leaves of a path and then extracting along it gives the old
      extraction with its leaves rewritten, and succeeds exactly when it did. */
  lemma {:induction false} ExtractAfterRewrite(j: Json, segs: Pattern, f: Json -> Json)
    requires segs != [] && !EndsInWildcard(segs)
    ensures ExtractAt(RewriteAt(j, segs, f), segs) ==
      match ExtractAt(j, segs) case None => None case Some(v) => Some(Deep(f, Wildcards(segs), v))
    decreases |segs|
  {
    if j.Obj? && segs[0].key in j.fields {
      var val, rest := j.fields[segs[0].key], segs[1..];
      RewriteIsFieldUpdate(j, segs, f);
      if !segs[0].wildcard {
        if rest != [] { ExtractAfterRewrite(val, rest, f); }
      } else if val.Arr? {
        var ys := RewriteEach(val.elems, rest, f);
        forall i | 0 <= i < |val.elems|
          ensures ExtractAt(ys[i], rest) ==
            match ExtractAt(val.elems[i], rest) case None => None case Some(v) => Some(Deep(f, Wildcards(rest), v))
        {
          ExtractAfterRewrite(val.elems[i], rest, f);
        }
        var before, after := ExtractEach(val.elems, rest), ExtractEach(ys, rest);
        if before.Some? {
          assert after.value == DeepEach(f, Wildcards(rest), before.value);
        }
      }
    }
  }

}
