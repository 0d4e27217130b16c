/** Scanning for nested {{...}} expressions (templating.go). */
module TemplateScan {
  import opened Options
  import opened Strings

  predicate IsOpen(s: string, i: int) {
    0 <= i && i + 1 < |s| && s[i] == '{' && s[i + 1] == '{'
  }

  predicate IsClose(s: string, i: int) {
    0 <= i && i + 1 < |s| && s[i] == '}' && s[i + 1] == '}'
  }

  /** The close that brings `depth` back to zero, walking token by token from `pos`;
      -1 when there is none. */
  function CloseFrom(s: string, pos: nat, depth: int): (r: int)
    ensures r == -1 || (pos <= r && r + 2 <= |s|)
    decreases |s| - pos
  {
    if pos + 1 >= |s| then -1
    else if IsOpen(s, pos) then CloseFrom(s, pos + 2, depth + 1)
    else if IsClose(s, pos) then (if depth == 1 then pos else CloseFrom(s, pos + 2, depth - 1))
    else CloseFrom(s, pos + 1, depth)
  }

  method FindMatchingClose(src: string, openIdx: nat) returns (r: int)
    ensures r == CloseFrom(src, openIdx + 2, 1)
  {
    var depth, pos := 1, openIdx + 2;
    while pos < |src| - 1
      invariant CloseFrom(src, openIdx + 2, 1) == CloseFrom(src, pos, depth)
      decreases |src| - pos
    {
      if src[pos] == '{' && src[pos + 1] == '{' {
        depth := depth + 1;
        pos := pos + 2;
        continue;
      }
      if src[pos] == '}' && src[pos + 1] == '}' {
        depth := depth - 1;
        if depth == 0 {
          return pos;
        }
        pos := pos + 2;
        continue;
      }
      pos := pos + 1;
    }
    return -1;
  }

  // ----- what a matching close is -----

  /** The nesting depth on reaching `to`, reading tokens from `from` at depth `d`;
      None when no token starts at `to`. */
  function DepthAt(s: string, from: nat, to: nat, d: int): Option<int>
    decreases |s| + to - from
  {
    if from == to then Some(d)
    else if from > to || from >= |s| then None
    else if IsOpen(s, from) then DepthAt(s, from + 2, to, d + 1)
    else if IsClose(s, from) then DepthAt(s, from + 2, to, d - 1)
    else DepthAt(s, from + 1, to, d)
  }

  /** `c` is where the depth first returns to zero: a close reached at depth one, with
      every token up to it read at depth one or more. */
  ghost predicate ReturnsToZeroAt(s: string, from: nat, c: nat, d: int) {
    from <= c && IsClose(s, c) && DepthAt(s, from, c, d) == Some(1) &&
    forall p: nat :: from <= p <= c && DepthAt(s, from, p, d).Some? ==> DepthAt(s, from, p, d).value >= 1
  }

  lemma {:induction false} CloseIsFirst(s: string, from: nat, d: int)
    requires d >= 1
    ensures CloseFrom(s, from, d) >= 0 ==> ReturnsToZeroAt(s, from, CloseFrom(s, from, d), d)
    ensures forall c: nat :: ReturnsToZeroAt(s, from, c, d) ==> CloseFrom(s, from, d) == c
    decreases |s| - from
  {
    if from + 1 < |s| {
      hide CloseFrom, DepthAt;
      var (n, e) := if IsOpen(s, from) then (2, 1) else if IsClose(s, from) then (2, -1) else (1, 0);
      forall to: nat ensures DepthAt(s, from, to, d) ==
          (if from == to then Some(d) else if to < from then None else DepthAt(s, from + n, to, d + e)) {
      }
      if d + e >= 1 {
        var next, inner := from + n, d + e;
        CloseIsFirst(s, next, inner);
        forall c: nat | ReturnsToZeroAt(s, from, c, d) ensures ReturnsToZeroAt(s, next, c, inner) {
          assert next <= c;
          forall p: nat | next <= p <= c && DepthAt(s, next, p, inner).Some? ensures DepthAt(s, next, p, inner).value >= 1 {
            assert DepthAt(s, from, p, d) == DepthAt(s, next, p, inner);
          }
        }
      } else {
        forall c: nat | ReturnsToZeroAt(s, from, c, d) ensures c == from {
          assert DepthAt(s, from, from + n, d) == DepthAt(s, from + n, from + n, 0);
        }
      }
    }
  }

  // ----- spans -----

  /** One expression: its text, trimmed, and where it stands. */
  datatype Span = Span(raw: string, start: nat, end: nat)

  /** The first opening from `pos` on, or -1. */
  function IndexOpen(s: string, pos: nat): (i: int)
    ensures i == -1 || (pos <= i && IsOpen(s, i))
    ensures forall j :: pos <= j < (if i < 0 then |s| else i) ==> !IsOpen(s, j)
    decreases |s| - pos
  {
    if pos >= |s| then -1 else if IsOpen(s, pos) then pos else IndexOpen(s, pos + 1)
  }

  /** The expressions from the first opening behind `pos` on. */
  function Scan(s: string, pos: nat): seq<Span>
    decreases if pos > |s| then 0 else |s| - pos, 1
  {
    ScanFrom(s, IndexOpen(s, pos))
  }

  function ScanFrom(s: string, open: int): seq<Span>
    decreases if open < 0 then 0 else |s| - open, 0
  {
    if open < 0 then []
    else
      var close := CloseFrom(s, open + 2, 1);
      if close < 0 then [] else [SpanAt(s, open, close)] + Scan(s, close + 2)
  }

  function SpanAt(s: string, open: nat, close: nat): Span
    requires open + 2 <= close <= |s|
  {
    Span(TrimSpace(s[open + 2..close]), open, close + 2)
  }

  lemma ScanStep(s: string, pos: nat, open: nat, close: int)
    requires IndexOpen(s, pos) == open && close == CloseFrom(s, open + 2, 1)
    ensures Scan(s, pos) == if close < 0 then [] else [SpanAt(s, open, close)] + Scan(s, close + 2)
  {
  }

  lemma ScanEnds(s: string, pos: nat)
    requires IndexOpen(s, pos) < 0
    ensures Scan(s, pos) == []
  {
  }

  method ScanTemplateExprs(src: string) returns (exprs: seq<Span>)
    ensures exprs == Scan(src, 0)
  {
    hide Scan, CloseFrom, TrimSpace;
    exprs := [];
    var pos := 0;
    while pos < |src|
      invariant pos <= |src|
      invariant exprs + Scan(src, pos) == Scan(src, 0)
      decreases |src| - pos
    {
      var openIdx := IndexOpen(src, pos);
      if openIdx < 0 {
        ScanEnds(src, pos);
        return;
      }
      var closeIdx := FindMatchingClose(src, openIdx);
      ScanStep(src, pos, openIdx, closeIdx);
      if closeIdx < 0 {
        return; // unclosed: the rest is literal
      }
      var span := Span(TrimSpace(src[openIdx + 2..closeIdx]), openIdx, closeIdx + 2);
      exprs := exprs + [span];
      pos := closeIdx + 2;
    }
    ScanEnds(src, pos);
  }

  /** The close of the expression that opens at `open`. */
  ghost predicate ClosesAt(s: string, open: nat, c: nat) { ReturnsToZeroAt(s, open + 2, c, 1) }

  lemma CloseIsTheOne(s: string, open: nat)
    ensures var c := CloseFrom(s, open + 2, 1);
      if c < 0 then forall k: nat :: !ClosesAt(s, open, k) else forall k: nat :: ClosesAt(s, open, k) <==> k == c
  {
    CloseIsFirst(s, open + 2, 1);
  }

  /** A span is an expression of the text: it opens at its start, and closes where the
      depth first returns to zero. */
  ghost predicate SpanOk(s: string, e: Span) {
    e.start + 4 <= e.end <= |s| && IsOpen(s, e.start) && ClosesAt(s, e.start, e.end - 2) &&
    e.raw == TrimSpace(s[e.start + 2..e.end - 2])
  }

  ghost predicate NoOpenIn(s: string, from: nat, to: nat) { forall j :: from <= j < to ==> !IsOpen(s, j) }

  ghost predicate Unclosed(s: string, open: nat) { forall c: nat :: !ClosesAt(s, open, c) }

  ghost predicate FirstOpen(s: string, pos: nat, open: nat) {
    pos <= open && IsOpen(s, open) && NoOpenIn(s, pos, open)
  }

  /** The spans tile the text from `pos`: in order, apart, with no opening between
      them, and behind the last one either no opening or one that is never closed. */
  ghost predicate Tiles(s: string, pos: nat, spans: seq<Span>)
    decreases |spans|
  {
    if spans == [] then
      NoOpenIn(s, pos, |s|) || exists open: nat :: FirstOpen(s, pos, open) && Unclosed(s, open)
    else
      SpanOk(s, spans[0]) && FirstOpen(s, pos, spans[0].start) && Tiles(s, spans[0].end, spans[1..])
  }

  /** The scanner finds exactly the expressions of the text. */
  lemma {:induction false} ScanTiles(s: string, pos: nat)
    ensures Tiles(s, pos, Scan(s, pos))
    decreases |s| - pos
  {
    hide CloseFrom, ClosesAt, IndexOpen, TrimSpace, IsOpen;
    var open := IndexOpen(s, pos);
    if open >= 0 {
      var close := CloseFrom(s, open + 2, 1);
      CloseIsTheOne(s, open);
      ScanStep(s, pos, open, close);
      if close >= 0 {
        ScanTiles(s, close + 2);
        assert Scan(s, pos)[1..] == Scan(s, close + 2);
      } else {
        assert FirstOpen(s, pos, open) && Unclosed(s, open);
      }
    }
  }

  lemma FirstOpenIsUnique(s: string, pos: nat, a: nat, b: nat)
    requires FirstOpen(s, pos, a) && FirstOpen(s, pos, b)
    ensures a == b
  {
  }

  lemma EmptyTilingIsUnique(s: string, pos: nat, b: seq<Span>)
    requires Tiles(s, pos, []) && Tiles(s, pos, b)
    ensures b == []
  {
    hide ClosesAt;
    if b != [] && !NoOpenIn(s, pos, |s|) {
      var open: nat :| FirstOpen(s, pos, open) && Unclosed(s, open);
      FirstOpenIsUnique(s, pos, open, b[0].start);
    }
  }

  lemma SpansAgree(s: string, a: Span, b: Span)
    requires SpanOk(s, a) && SpanOk(s, b) && a.start == b.start
    ensures a == b
  {
    hide ClosesAt, CloseFrom, TrimSpace, IsOpen;
    CloseIsTheOne(s, a.start);
    assert a.end - 2 == b.end - 2;
  }

  lemma TilesHead(s: string, pos: nat, a: seq<Span>)
    requires a != [] && Tiles(s, pos, a)
    ensures SpanOk(s, a[0]) && FirstOpen(s, pos, a[0].start) && Tiles(s, a[0].end, a[1..])
  {
  }

  /** There is only one way to tile a text, so the scanner's is it. */
  lemma {:induction false} TilingIsUnique(s: string, pos: nat, a: seq<Span>, b: seq<Span>)
    requires Tiles(s, pos, a) && Tiles(s, pos, b)
    ensures a == b
    decreases |a|
  {
    hide Tiles, FirstOpen, SpanOk;
    if a == [] {
      EmptyTilingIsUnique(s, pos, b);
    } else if b == [] {
      EmptyTilingIsUnique(s, pos, a);
    } else {
      TilesHead(s, pos, a);
      TilesHead(s, pos, b);
      FirstOpenIsUnique(s, pos, a[0].start, b[0].start);
      SpansAgree(s, a[0], b[0]);
      TilingIsUnique(s, a[0].end, a[1..], b[1..]);
      assert a == [a[0]] + a[1..] && b == [b[0]] + b[1..];
    }
  }

  lemma ScanIsTheTiling(s: string, spans: seq<Span>)
    ensures Tiles(s, 0, spans) <==> spans == Scan(s, 0)
  {
    ScanTiles(s, 0);
    if Tiles(s, 0, spans) { TilingIsUnique(s, 0, spans, Scan(s, 0)); }
  }
}

/** Printing nested template trees and scanning them back. */
module TemplateTrees {
  import opened Strings
  import opened TemplateScan

  /** A template: plain text and holes with templates inside. */
  datatype Node = Text(text: string) | Hole(inner: seq<Node>)

  function Print(ns: seq<Node>): string
    decreases ns
  {
    if ns == [] then "" else PrintNode(ns[0]) + Print(ns[1..])
  }

  function PrintNode(n: Node): string
    decreases n
  {
    match n
    case Text(t) => t
    case Hole(inner) => "{{" + Print(inner) + "}}"
  }

  predicate BraceFree(s: string) { forall i :: 0 <= i < |s| ==> s[i] != '{' && s[i] != '}' }

  predicate Plain(ns: seq<Node>)
    decreases ns
  {
    ns == [] || (PlainNode(ns[0]) && Plain(ns[1..]))
  }

  predicate PlainNode(n: Node)
    decreases n
  {
    match n
    case Text(t) => BraceFree(t)
    case Hole(inner) => Plain(inner)
  }

  /** The top-level holes as the scanner should report them, with the offset at which
      the list is printed. */
  function Holes(ns: seq<Node>, at: nat): seq<Span>
    decreases |ns|
  {
    if ns == [] then []
    else HoleOf(ns[0], at) + Holes(ns[1..], at + |PrintNode(ns[0])|)
  }

  function HoleOf(n: Node, at: nat): seq<Span> {
    match n
    case Text(_) => []
    case Hole(inner) => [Span(TrimSpace(Print(inner)), at, at + |PrintNode(n)|)]
  }

  // ----- a plain tree is read through at any depth -----

  lemma {:induction false} TextKeepsDepth(pre: string, t: string, rest: string, depth: int)
    requires BraceFree(t)
    ensures CloseFrom(pre + t + rest, |pre|, depth) == CloseFrom(pre + t + rest, |pre| + |t|, depth)
    decreases |t|
  {
    if t != "" {
      var s := pre + t + rest;
      assert s[|pre|] == t[0];
      var pre' := pre + [t[0]];
      assert pre' + t[1..] + rest == s;
      TextKeepsDepth(pre', t[1..], rest, depth);
      assert !IsOpen(s, |pre|) && !IsClose(s, |pre|);
    }
  }

  lemma CloseOfOpen(s: string, pos: nat, depth: int)
    requires IsOpen(s, pos)
    ensures CloseFrom(s, pos, depth) == CloseFrom(s, pos + 2, depth + 1)
  {
  }

  lemma CloseOfClose(s: string, pos: nat, depth: int)
    requires IsClose(s, pos)
    ensures CloseFrom(s, pos, depth) == if depth == 1 then pos else CloseFrom(s, pos + 2, depth - 1)
  {
  }

  lemma Regroup(a: string, b: string, c: string, d: string)
    ensures a + (b + c) + d == (a + b) + c + d && a + (b + c) + d == a + b + (c + d)
  {
  }

  lemma {:induction false} TreeKeepsDepth(pre: string, ns: seq<Node>, rest: string, depth: int)
    requires Plain(ns) && depth >= 1
    ensures CloseFrom(pre + Print(ns) + rest, |pre|, depth) == CloseFrom(pre + Print(ns) + rest, |pre| + |Print(ns)|, depth)
    decreases ns
  {
    hide CloseFrom;
    if ns != [] {
      var p, q := PrintNode(ns[0]), Print(ns[1..]);
      Regroup(pre, p, q, rest);
      NodeKeepsDepth(pre, ns[0], q + rest, depth);
      TreeKeepsDepth(pre + p, ns[1..], rest, depth);
    }
  }

  lemma {:induction false} NodeKeepsDepth(pre: string, n: Node, rest: string, depth: int)
    requires PlainNode(n) && depth >= 1
    ensures CloseFrom(pre + PrintNode(n) + rest, |pre|, depth) == CloseFrom(pre + PrintNode(n) + rest, |pre| + |PrintNode(n)|, depth)
    decreases n
  {
    hide CloseFrom;
    match n
    case Text(t) => TextKeepsDepth(pre, t, rest, depth);
    case Hole(inner) =>
      var s, w := pre + PrintNode(n) + rest, Print(inner);
      HoleShape(pre, w, rest);
      TreeKeepsDepth(pre + "{{", inner, "}}" + rest, depth + 1);
      CloseOfOpen(s, |pre|, depth);
      CloseOfClose(s, |pre| + 2 + |w|, depth + 1);
  }

  lemma HoleShape(pre: string, w: string, rest: string)
    ensures var s := pre + ("{{" + w + "}}") + rest;
      s == (pre + "{{") + w + ("}}" + rest) && IsOpen(s, |pre|) && IsClose(s, |pre| + 2 + |w|) && |s| >= |pre| + |w| + 4 &&
      s[|pre| + 2..|pre| + 2 + |w|] == w
  {
  }

  /** The close of a printed hole is its own. */
  lemma HoleCloses(pre: string, inner: seq<Node>, rest: string)
    requires Plain(inner)
    ensures var s := pre + PrintNode(Hole(inner)) + rest;
      IsOpen(s, |pre|) && CloseFrom(s, |pre| + 2, 1) == |pre| + 2 + |Print(inner)| &&
      |pre| + 4 + |Print(inner)| <= |s| && s[|pre| + 2..|pre| + 2 + |Print(inner)|] == Print(inner)
  {
    var s, w := pre + PrintNode(Hole(inner)) + rest, Print(inner);
    HoleShape(pre, w, rest);
    TreeKeepsDepth(pre + "{{", inner, "}}" + rest, 1);
    CloseOfClose(s, |pre| + 2 + |w|, 1);
  }

  // ----- scanning a printed tree -----

  lemma {:induction false} SkipText(pre: string, t: string, rest: string)
    requires BraceFree(t)
    ensures IndexOpen(pre + t + rest, |pre|) == IndexOpen(pre + t + rest, |pre| + |t|)
    decreases |t|
  {
    if t != "" {
      var s := pre + t + rest;
      assert s[|pre|] == t[0];
      var pre' := pre + [t[0]];
      assert pre' + t[1..] + rest == s;
      SkipText(pre', t[1..], rest);
    }
  }

  lemma ScanThroughHole(pre: string, inner: seq<Node>, rest: string)
    requires Plain(inner)
    ensures var s, p := pre + PrintNode(Hole(inner)) + rest, PrintNode(Hole(inner));
      Scan(s, |pre|) == [Span(TrimSpace(Print(inner)), |pre|, |pre| + |p|)] + Scan(s, |pre| + |p|)
  {
    hide *;
    PrintedHoleLength(inner);
    HoleCloses(pre, inner, rest);
    ScanAtHole(pre + PrintNode(Hole(inner)) + rest, |pre|, Print(inner));
  }

  lemma PrintedHoleLength(inner: seq<Node>)
    ensures |PrintNode(Hole(inner))| == |Print(inner)| + 4
  {
  }

  lemma ScanAtHole(s: string, i: nat, w: string)
    requires IsOpen(s, i) && CloseFrom(s, i + 2, 1) == i + 2 + |w| && i + 4 + |w| <= |s| && s[i + 2..i + 2 + |w|] == w
    ensures Scan(s, i) == [Span(TrimSpace(w), i, i + |w| + 4)] + Scan(s, i + |w| + 4)
  {
    hide *;
    ScanStep(s, i, i, i + 2 + |w|);
    SpanOfHole(s, i, w);
  }

  lemma SpanOfHole(s: string, open: nat, w: string)
    requires open + 4 + |w| <= |s| && s[open + 2..open + 2 + |w|] == w
    ensures SpanAt(s, open, open + 2 + |w|) == Span(TrimSpace(w), open, open + |w| + 4)
  {
  }

  lemma ScanThroughText(pre: string, t: string, rest: string)
    requires BraceFree(t)
    ensures Scan(pre + t + rest, |pre|) == Scan(pre + t + rest, |pre| + |t|)
  {
    SkipText(pre, t, rest);
    hide *;
  }

  lemma ScanThroughNode(pre: string, n: Node, rest: string)
    requires PlainNode(n)
    ensures var s := pre + PrintNode(n) + rest;
      Scan(s, |pre|) == HoleOf(n, |pre|) + Scan(s, |pre| + |PrintNode(n)|)
  {
    hide Scan, Print, TrimSpace, BraceFree;
    match n
    case Text(t) =>
      ScanThroughText(pre, t, rest);
    case Hole(inner) =>
      ScanThroughHole(pre, inner, rest);
  }

  /** Scanning a printed tree recovers its top-level holes: their trimmed text and
      their offsets. */
  lemma {:induction false} ScanOfPrint(pre: string, ns: seq<Node>)
    requires Plain(ns)
    ensures Scan(pre + Print(ns), |pre|) == Holes(ns, |pre|)
    decreases |ns|
  {
    hide Scan, PrintNode, HoleOf;
    if ns == [] {
      NothingLeft(pre + Print(ns));
    } else {
      ScanOfPrint(pre + PrintNode(ns[0]), ns[1..]);
      assert (pre + PrintNode(ns[0])) + Print(ns[1..]) == pre + Print(ns);
      ScanThroughNode(pre, ns[0], Print(ns[1..]));
    }
  }

  lemma NothingLeft(s: string)
    ensures Scan(s, |s|) == []
  {
  }

}
