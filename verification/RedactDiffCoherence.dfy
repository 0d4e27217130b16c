/** The three rewriters and the diff agree on what a path means. */
module RedactDiffCoherence {
  import opened JsonTree
  import opened PathPatterns
  import opened Sanitizer
  import opened Diff
  import opened DiffAgreement

  lemma {:induction false} RewriteAllOutside(j: Json, paths: seq<Pattern>, fakers: Fakers, q: Path)
    requires !IgnoredLocation(q, paths)
    ensures SameShape(j, RewriteAll(j, paths, fakers), q)
    decreases |paths|
  {
    if paths != [] {
      var p := paths[0];
      var j0 := RewriteAt(j, p, fakers(p));
      if p != [] {
        assert paths[0] != [];
        assert !Covers(p, q);
        RewriteOutside(j, p, fakers(p), q);
      }
      RewriteAllOutside(j0, paths[1..], fakers, q);
    }
  }

  /** Whatever the fakers put at the listed paths, the diff that ignores those
      paths does not see it. */
  lemma RewritingIsInvisibleToDiff(j: Json, paths: seq<Pattern>, fakers: Fakers)
    ensures Compare(j, RewriteAll(j, paths, fakers), [], paths) == []
  {
    DiffIsSoundAndComplete(j, RewriteAll(j, paths, fakers), paths);
    forall q: Path | !IgnoredLocation(q, paths) ensures SameShape(j, RewriteAll(j, paths, fakers), q) {
      RewriteAllOutside(j, paths, fakers, q);
    }
  }
}
