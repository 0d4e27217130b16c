/** The path language shared by redaction, faking, extraction and diffing: its
    parser (sanitizer.go) and the matcher of concrete paths (diff.go). */
module PathPatterns {
  import opened Options
  import opened Strings
  import opened JsonTree

  // ----- parsing -----

  const WILDCARD := "[*]"

  function ParseToken(tok: string): Option<Segment> {
    if tok == "" then None
    else if HasSuffix(tok, WILDCARD) then
      if |tok| == 3 then None else Some(Segment(tok[..|tok| - 3], true))
    else if '[' in tok || ']' in tok then None
    else Some(Segment(tok, false))
  }

  function ParseTokens(toks: seq<string>): Option<Pattern> {
    if toks == [] then Some([])
    else
      match ParseToken(toks[0])
      case None => None
      case Some(seg) =>
        match ParseTokens(toks[1..])
        case None => None
        case Some(rest) => Some([seg] + rest)
  }

  function Prepend(segs: Pattern, r: Option<Pattern>): Option<Pattern> {
    if r.None? then None else Some(segs + r.value)
  }

  function ParsePath(path: string): Option<Pattern> {
    if !("$." <= path) || path == "$." then None
    else ParseTokens(Split(path[2..], '.'))
  }

  /** The parser's own loop: it appends segment by segment and gives up at the
      first bad token. */
  method ParsePathLoop(path: string) returns (r: Option<Pattern>)
    ensures r == ParsePath(path)
  {
    if !("$." <= path) || path == "$." {
      return None;
    }
    var tokens := Split(path[2..], '.');
    var segments: Pattern := [];
    assert tokens[0..] == tokens;
    assert forall rest: Pattern :: segments + rest == rest;
    for i := 0 to |tokens|
      invariant ParseTokens(tokens) == Prepend(segments, ParseTokens(tokens[i..]))
    {
      assert tokens[i..][1..] == tokens[i + 1..];
      match ParseToken(tokens[i]) {
        case None => return None;
        case Some(seg) =>
          assert forall rest: Pattern :: segments + ([seg] + rest) == segments + [seg] + rest;
          segments := segments + [seg];
      }
    }
    assert segments + [] == segments;
    return Some(segments);
  }

  function PrintSegment(seg: Segment): string {
    seg.key + if seg.wildcard then WILDCARD else ""
  }

  function PrintSegments(segs: Pattern): (toks: seq<string>)
    ensures |toks| == |segs|
    ensures forall i :: 0 <= i < |segs| ==> toks[i] == PrintSegment(segs[i])
  {
    if segs == [] then [] else [PrintSegment(segs[0])] + PrintSegments(segs[1..])
  }

  function PrintPath(segs: Pattern): string
    requires segs != []
  {
    "$." + Join(PrintSegments(segs), '.')
  }

  /** The segments the path language can spell. */
  predicate Expressible(seg: Segment) {
    seg.key != "" && '.' !in seg.key && (seg.wildcard || ('[' !in seg.key && ']' !in seg.key))
  }

  lemma ParsePrintToken(seg: Segment)
    requires '.' !in seg.key
    ensures ParseToken(PrintSegment(seg)) == Some(seg) <==> Expressible(seg)
  {
    var t := PrintSegment(seg);
    if seg.wildcard {
      assert t[..|t| - 3] == seg.key && t[|t| - 3..] == WILDCARD;
    } else {
      assert t == seg.key;
      if HasSuffix(t, WILDCARD) {
        assert t[|t| - 3..][0] == t[|t| - 3] == '[';
      }
    }
  }

  lemma PrintParseToken(tok: string)
    requires ParseToken(tok).Some?
    requires '.' !in tok
    ensures PrintSegment(ParseToken(tok).value) == tok
    ensures Expressible(ParseToken(tok).value)
  {
    if HasSuffix(tok, WILDCARD) {
      assert tok == tok[..|tok| - 3] + tok[|tok| - 3..];
    }
  }

  lemma {:induction false} PrintParseTokens(toks: seq<string>)
    requires ParseTokens(toks).Some?
    requires forall t :: t in toks ==> '.' !in t
    ensures PrintSegments(ParseTokens(toks).value) == toks
    ensures forall seg :: seg in ParseTokens(toks).value ==> Expressible(seg)
  {
    if toks != [] {
      PrintParseToken(toks[0]);
      PrintParseTokens(toks[1..]);
      var rest := ParseTokens(toks[1..]).value;
      assert ([ParseToken(toks[0]).value] + rest)[1..] == rest;
    }
  }

  lemma {:induction false} ParsePrintTokens(segs: Pattern)
    requires forall seg :: seg in segs ==> Expressible(seg)
    ensures ParseTokens(PrintSegments(segs)) == Some(segs)
  {
    if segs != [] {
      assert segs[0] in segs && segs == [segs[0]] + segs[1..];
      ParsePrintToken(segs[0]);
      ParsePrintTokens(segs[1..]);
      assert PrintSegments(segs)[1..] == PrintSegments(segs[1..]);
    }
  }

  /** A parsed path determines the string it came from, so no two spellings share
      a meaning. */
  lemma PrintParsePath(path: string)
    requires ParsePath(path).Some?
    ensures ParsePath(path).value != []
    ensures PrintPath(ParsePath(path).value) == path
    ensures forall seg :: seg in ParsePath(path).value ==> Expressible(seg)
  {
    PrintParseTokens(Split(path[2..], '.'));
    JoinSplit(path[2..], '.');
    assert path == "$." + path[2..];
  }

  lemma ExpressibleTokens(segs: Pattern)
    requires segs != [] && forall seg :: seg in segs ==> Expressible(seg)
    ensures forall t :: t in PrintSegments(segs) ==> '.' !in t
    ensures Join(PrintSegments(segs), '.') != ""
  {
    var toks := PrintSegments(segs);
    forall t | t in toks ensures '.' !in t {
      var i :| 0 <= i < |toks| && t == toks[i];
      assert segs[i] in segs;
    }
    assert segs[0] in segs && toks[0] == PrintSegment(segs[0]);
    assert |toks[0]| > 0;
  }

  lemma ParsePrintExpressible(segs: Pattern)
    requires segs != [] && forall seg :: seg in segs ==> Expressible(seg)
    ensures ParsePath(PrintPath(segs)) == Some(segs)
  {
    hide Join, Split, ParseTokens, PrintSegments;
    var toks := PrintSegments(segs);
    ExpressibleTokens(segs);
    ParsePrintTokens(segs);
    SplitJoin(toks, '.');
    var path := PrintPath(segs);
    assert path[2..] == Join(toks, '.');
    assert |path| > 2;
  }

  /** Exactly the expressible segment lists survive printing and parsing. */
  lemma ParsePrintPath(segs: Pattern)
    requires segs != []
    ensures ParsePath(PrintPath(segs)) == Some(segs) <==> (forall seg :: seg in segs ==> Expressible(seg))
  {
    hide Join, Split, ParseTokens, PrintSegments, ParsePath;
    if forall seg :: seg in segs ==> Expressible(seg) {
      ParsePrintExpressible(segs);
    } else if ParsePath(PrintPath(segs)) == Some(segs) {
      PrintParsePath(PrintPath(segs));
    }
  }

  // ----- matching concrete paths -----

  /** Does the concrete path match the pattern? A wildcard segment consumes a key
      and the array index after it. */
  predicate Matches(p: Path, pat: Pattern) {
    if pat == [] then p == []
    else if pat[0].wildcard then
      |p| >= 2 && p[0] == Key(pat[0].key) && p[1].Index? && Matches(p[2..], pat[1..])
    else
      |p| >= 1 && p[0] == Key(pat[0].key) && Matches(p[1..], pat[1..])
  }

  /** The lockstep loop over both slices. */
  method MatchesIgnorePath(concrete: Path, pattern: Pattern) returns (r: bool)
    ensures r == Matches(concrete, pattern)
  {
    var ci, pi := 0, 0;
    while pi < |pattern| && ci < |concrete|
      invariant 0 <= ci <= |concrete| && 0 <= pi <= |pattern|
      invariant Matches(concrete, pattern) == Matches(concrete[ci..], pattern[pi..])
    {
      var ps, cs := pattern[pi], concrete[ci];
      if ps.wildcard {
        if cs.Index? || cs.key != ps.key { return false; }
        ci := ci + 1;
        if ci >= |concrete| || !concrete[ci].Index? { return false; }
        ci, pi := ci + 1, pi + 1;
      } else {
        if cs.Index? || cs.key != ps.key { return false; }
        ci, pi := ci + 1, pi + 1;
      }
    }
    return ci == |concrete| && pi == |pattern|;
  }

  function Wildcards(pat: Pattern): nat {
    if pat == [] then 0 else (if pat[0].wildcard then 1 else 0) + Wildcards(pat[1..])
  }

  /** The concrete path obtained by choosing an index for each wildcard. */
  function Instantiate(pat: Pattern, choice: seq<nat>): Path
    requires |choice| == Wildcards(pat)
  {
    if pat == [] then []
    else if pat[0].wildcard then [Key(pat[0].key), Index(choice[0])] + Instantiate(pat[1..], choice[1..])
    else [Key(pat[0].key)] + Instantiate(pat[1..], choice)
  }

  /** The matcher accepts exactly the instances of the pattern. */
  lemma {:induction false} MatchesIffInstance(p: Path, pat: Pattern)
    ensures Matches(p, pat) <==>
      exists choice: seq<nat> :: |choice| == Wildcards(pat) && p == Instantiate(pat, choice)
  {
    if Matches(p, pat) {
      var choice := ChoiceOf(p, pat);
    }
    forall choice: seq<nat> | |choice| == Wildcards(pat) && p == Instantiate(pat, choice)
      ensures Matches(p, pat)
    {
      InstanceMatches(pat, choice);
    }
  }

  lemma {:induction false} ChoiceOf(p: Path, pat: Pattern) returns (choice: seq<nat>)
    requires Matches(p, pat)
    ensures |choice| == Wildcards(pat) && p == Instantiate(pat, choice)
  {
    if pat == [] {
      choice := [];
    } else if pat[0].wildcard {
      var rest := ChoiceOf(p[2..], pat[1..]);
      choice := [p[1].index] + rest;
      assert choice[1..] == rest;
    } else {
      choice := ChoiceOf(p[1..], pat[1..]);
    }
  }

  lemma {:induction false} InstanceMatches(pat: Pattern, choice: seq<nat>)
    requires |choice| == Wildcards(pat)
    ensures Matches(Instantiate(pat, choice), pat)
  {
    if pat != [] {
      var p := Instantiate(pat, choice);
      if pat[0].wildcard {
        InstanceMatches(pat[1..], choice[1..]);
        assert p[2..] == Instantiate(pat[1..], choice[1..]);
      } else {
        InstanceMatches(pat[1..], choice);
        assert p[1..] == Instantiate(pat[1..], choice);
      }
    }
  }

  /** Does some prefix of the concrete path match the pattern? */
  predicate Covers(pat: Pattern, p: Path) {
    if pat == [] then true
    else if pat[0].wildcard then
      |p| >= 2 && p[0] == Key(pat[0].key) && p[1].Index? && Covers(pat[1..], p[2..])
    else
      |p| >= 1 && p[0] == Key(pat[0].key) && Covers(pat[1..], p[1..])
  }

  lemma {:induction false} CoversIffPrefixMatches(pat: Pattern, p: Path)
    ensures Covers(pat, p) <==> exists i :: 0 <= i <= |p| && Matches(p[..i], pat)
  {
    if pat == [] {
      assert Matches(p[..0], pat);
    } else {
      var n := if pat[0].wildcard then 2 else 1;
      if |p| >= n {
        CoversIffPrefixMatches(pat[1..], p[n..]);
        if Covers(pat, p) {
          var i :| 0 <= i <= |p[n..]| && Matches(p[n..][..i], pat[1..]);
          assert p[..n + i][n..] == p[n..][..i];
          assert Matches(p[..n + i], pat);
        }
        forall i | 0 <= i <= |p| && Matches(p[..i], pat) ensures Covers(pat, p) {
          assert i >= n;
          assert p[..i][n..] == p[n..][..i - n];
        }
      }
    }
  }
}
