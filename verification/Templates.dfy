/** Parsing and resolving template expressions (templating.go). */
module Templates {
  import opened Options
  import opened Strings
  import opened TemplateScan

  predicate IsBlank(c: char) { c == ' ' || c == '\t' }

  function IndexBlank(s: string, from: nat): (i: int)
    requires from <= |s|
    ensures i == -1 || (from <= i < |s| && IsBlank(s[i]))
    ensures forall j :: from <= j < (if i < 0 then |s| else i) ==> !IsBlank(s[j])
    decreases |s| - from
  {
    if from == |s| then -1 else if IsBlank(s[from]) then from else IndexBlank(s, from + 1)
  }

  /** Where an argument value ends: at a blank outside every {{...}}, or at the end.
      A stray close makes the depth negative, and the value then runs on. */
  function ArgEnd(s: string, i: nat, depth: int): (r: nat)
    requires i <= |s|
    ensures i <= r <= |s|
    decreases |s| - i
  {
    if i == |s| then i
    else if IsOpen(s, i) then ArgEnd(s, i + 2, depth + 1)
    else if IsClose(s, i) then ArgEnd(s, i + 2, depth - 1)
    else if depth == 0 && IsBlank(s[i]) then i
    else ArgEnd(s, i + 1, depth)
  }

  method ParseArgValue(s: string) returns (val: string, remaining: string)
    ensures var e := ArgEnd(s, 0, 0); val == s[..e] && remaining == s[e..]
  {
    var depth, i := 0, 0;
    while i < |s|
      invariant i <= |s| && ArgEnd(s, 0, 0) == ArgEnd(s, i, depth)
    {
      if i + 1 < |s| && s[i] == '{' && s[i + 1] == '{' {
        depth := depth + 1;
        i := i + 2;
        continue;
      }
      if i + 1 < |s| && s[i] == '}' && s[i + 1] == '}' {
        depth := depth - 1;
        i := i + 2;
        continue;
      }
      if depth == 0 && IsBlank(s[i]) {
        return s[..i], s[i..];
      }
      i := i + 1;
    }
    return s, "";
  }

  datatype Parsed = Parsed(name: string, args: map<string, string>)

  /** The key=value pairs; of two with one key the later wins. Every value is shorter
      than the text. */
  function ParseArgs(rest: string): (args: map<string, string>)
    ensures forall k :: k in args ==> |args[k]| < |rest|
    decreases |rest|, 1
  {
    ParsePair(rest, IndexByte(rest, '='))
  }

  /** The pair whose '=' stands at `eq`, and those behind it. */
  function ParsePair(rest: string, eq: int): (args: map<string, string>)
    requires eq < |rest|
    ensures forall k :: k in args ==> |args[k]| < |rest|
    decreases |rest|, 0
  {
    if eq < 0 then map[]
    else
      var tail := rest[eq + 1..];
      var e := ArgEnd(tail, 0, 0);
      map[TrimSpace(rest[..eq]) := tail[..e]] + ParseArgs(TrimSpace(tail[e..]))
  }

  function ParseTrimmed(raw: string): (p: Parsed)
    ensures forall k :: k in p.args ==> |p.args[k]| < |raw|
  {
    var i := IndexBlank(raw, 0);
    if i < 0 then Parsed(raw, map[]) else Parsed(raw[..i], ParseArgs(TrimSpace(raw[i + 1..])))
  }

  function ParseExprOf(raw: string): (p: Parsed)
    ensures forall k :: k in p.args ==> |p.args[k]| < |raw|
  {
    ParseTrimmed(TrimSpace(raw))
  }

  lemma PairsFrom(rest: string, eq: int)
    requires IndexByte(rest, '=') == eq
    ensures ParseArgs(rest) == ParsePair(rest, eq)
    ensures eq < 0 ==> ParseArgs(rest) == map[]
  {
    hide TrimSpace, ArgEnd, IndexByte;
  }

  method ParsePairs(text: string) returns (args: map<string, string>)
    ensures args == ParseArgs(text)
  {
    hide IndexByte, TrimSpace, ArgEnd, ParseArgs;
    args := map[];
    var rest := text;
    assert map[] + ParseArgs(text) == ParseArgs(text);
    while rest != ""
      invariant args + ParseArgs(rest) == ParseArgs(text)
      decreases |rest|
    {
      var eqIdx := IndexByte(rest, '=');
      if eqIdx < 0 {
        break;
      }
      PairsFrom(rest, eqIdx);
      var key := TrimSpace(rest[..eqIdx]);
      var val, remaining := ParseArgValue(rest[eqIdx + 1..]);
      args := args[key := val];
      rest := TrimSpace(remaining);
    }
    PairsFrom(rest, IndexByte(rest, '='));
  }

  method ParseExpr(text: string) returns (p: Parsed)
    ensures p == ParseExprOf(text)
  {
    hide ParseArgs, TrimSpace;
    var raw := TrimSpace(text);
    if raw == "" {
      return Parsed("", map[]);
    }
    var idx := IndexBlank(raw, 0);
    if idx < 0 {
      return Parsed(raw, map[]);
    }
    var args := ParsePairs(TrimSpace(raw[idx + 1..]));
    return Parsed(raw[..idx], args);
  }

  /** What a name and its resolved arguments stand for; None for what cannot be
      resolved. */
  type Env = (string, map<string, string>) -> Option<string>

  predicate Ordered(src: string, spans: seq<Span>, prev: nat)
    decreases |spans|
  {
    if spans == [] then prev <= |src|
    else
      prev <= spans[0].start && spans[0].start + 4 <= spans[0].end <= |src| && |spans[0].raw| < |src| &&
      Ordered(src, spans[1..], spans[0].end)
  }

  lemma {:induction false} ScanIsOrdered(s: string, pos: nat)
    requires pos <= |s|
    ensures Ordered(s, Scan(s, pos), pos)
    decreases |s| - pos
  {
    hide CloseFrom, IndexOpen, TrimSpace;
    var open := IndexOpen(s, pos);
    if open >= 0 {
      var close := CloseFrom(s, open + 2, 1);
      ScanStep(s, pos, open, close);
      if close >= 0 {
        ScanIsOrdered(s, close + 2);
        assert Scan(s, pos)[1..] == Scan(s, close + 2);
      }
    }
  }

  /** An expression's value. The arguments' own expressions are resolved first; each
      is shorter than the expression around it. */
  function ResolveExprOf(raw: string, env: Env): Option<string>
    decreases |raw|, 3
  {
    var pe := ParseExprOf(raw);
    if pe.name == "" then None else env(pe.name, ResolveAll(pe.args, |raw|, env))
  }

  function ResolveAll(args: map<string, string>, bound: nat, env: Env): map<string, string>
    requires forall k :: k in args ==> |args[k]| < bound
    decreases bound, 2
  {
    map k | k in args :: ResolveValue(args[k], env)
  }

  function ValueOr(v: Option<string>): string { if v.Some? then v.value else "" }

  /** The text with its expressions replaced, an unresolvable one by nothing. */
  function ResolveValue(v: string, env: Env): string
    decreases |v|, 1
  {
    ScanIsOrdered(v, 0);
    Splice(v, Scan(v, 0), 0, env)
  }

  function Splice(src: string, spans: seq<Span>, prev: nat, env: Env): string
    requires Ordered(src, spans, prev)
    decreases |src|, 0, |spans|
  {
    if spans == [] then src[prev..]
    else src[prev..spans[0].start] + ValueOr(ResolveExprOf(spans[0].raw, env)) + Splice(src, spans[1..], spans[0].end, env)
  }

  datatype Resolution = Ok(text: string) | Unresolvable(raw: string)

  /** The first span that cannot be resolved. */
  function FirstFailure(spans: seq<Span>, env: Env): (r: Option<string>)
    ensures r.None? <==> forall e :: e in spans ==> ResolveExprOf(e.raw, env).Some?
  {
    if spans == [] then None
    else if ResolveExprOf(spans[0].raw, env).None? then Some(spans[0].raw)
    else FirstFailure(spans[1..], env)
  }

  function ResolveBytes(body: string, env: Env, strict: bool): Resolution {
    var failure := FirstFailure(Scan(body, 0), env);
    if strict && failure.Some? then Unresolvable(failure.value) else Ok(ResolveValue(body, env))
  }

  // ----- the loops -----

  method ResolveExpr(raw: string, env: Env) returns (r: Option<string>)
    ensures r == ResolveExprOf(raw, env)
    decreases |raw|, 3
  {
    hide ParseExprOf, ResolveAll;
    var pe := ParseExpr(raw);
    if pe.name == "" {
      return None;
    }
    var args := ResolveArgs(pe.args, |raw|, env);
    return env(pe.name, args);
  }

  method ResolveArgs(args: map<string, string>, ghost bound: nat, env: Env) returns (resolved: map<string, string>)
    requires forall k :: k in args ==> |args[k]| < bound
    ensures resolved == ResolveAll(args, bound, env)
    decreases bound, 2
  {
    hide ResolveValue;
    resolved := map[];
    var left := args.Keys;
    while left != {}
      invariant left <= args.Keys && resolved.Keys == args.Keys - left
      invariant forall k :: k in resolved ==> resolved[k] == ResolveValue(args[k], env)
      decreases left
    {
      var k :| k in left;
      var v := ResolveNested(args[k], env);
      resolved := resolved[k := v];
      left := left - {k};
    }
  }

  /** A nested value is resolved leniently. */
  method ResolveNested(v: string, env: Env) returns (r: string)
    ensures r == ResolveValue(v, env)
    decreases |v|, 2
  {
    ScanIsOrdered(v, 0);
    if IndexOpen(v, 0) < 0 {
      return v;
    }
    var exprs := ScanTemplateExprs(v);
    var res := SpliceExprs(v, exprs, env, false);
    return res.text;
  }

  lemma SpliceEnds(src: string, prev: nat, env: Env)
    requires prev <= |src|
    ensures Splice(src, [], prev, env) == src[prev..] && FirstFailure([], env) == None
  {
  }

  lemma AppendThrice(a: string, b: string, c: string, d: string)
    ensures a + (b + c + d) == a + b + c + d
    ensures a + b + "" == a + b
  {
  }

  /** Copies the gaps and puts the values in between. */
  method SpliceExprs(src: string, exprs: seq<Span>, env: Env, strict: bool) returns (r: Resolution)
    requires Ordered(src, exprs, 0)
    ensures r == (var failure := FirstFailure(exprs, env);
      if strict && failure.Some? then Unresolvable(failure.value) else Ok(Splice(src, exprs, 0, env)))
    decreases |src|, 1
  {
    var buf: string := "";
    var prev: nat := 0;
    assert exprs[0..] == exprs;
    assert "" + Splice(src, exprs, 0, env) == Splice(src, exprs, 0, env);
    hide Splice, FirstFailure, ResolveExprOf, Ordered;
    for i := 0 to |exprs|
      invariant prev <= |src| && Ordered(src, exprs[i..], prev)
      invariant Splice(src, exprs, 0, env) == buf + Splice(src, exprs[i..], prev, env)
      invariant strict ==> FirstFailure(exprs, env) == FirstFailure(exprs[i..], env)
    {
      var expr := exprs[i];
      var resolved := ResolveExpr(expr.raw, env);
      if resolved.None? && strict {
        return Unresolvable(expr.raw);
      }
      AppendThrice(buf, src[prev..expr.start], ValueOr(resolved), Splice(src, exprs[i + 1..], expr.end, env));
      buf := buf + src[prev..expr.start];
      if resolved.Some? {
        buf := buf + resolved.value;
      }
      prev := expr.end;
    }
    assert exprs[|exprs|..] == [];
    SpliceEnds(src, prev, env);
    return Ok(buf + src[prev..]);
  }

  method ResolveTemplateBytes(body: string, env: Env, strict: bool) returns (r: Resolution)
    ensures r == ResolveBytes(body, env, strict)
  {
    var exprs := ScanTemplateExprs(body);
    ScanIsOrdered(body, 0);
    if |exprs| == 0 {
      assert exprs == [];
      SpliceEnds(body, 0, env);
      return Ok(body);
    }
    r := SpliceExprs(body, exprs, env, strict);
  }
}

/** Printed templates mean what they say: resolving the text of a call tree evaluates
    the tree. */
module TemplateMeaning {
  import opened Options
  import opened Strings
  import opened TemplateScan
  import opened TemplateTrees
  import opened Templates

  /** A template: literal text and inserted calls, whose argument values are templates
      again. */
  datatype Piece = Lit(text: string) | Insert(call: Call)
  datatype Call = Call(name: string, args: seq<Arg>)
  datatype Arg = Arg(key: string, value: seq<Piece>)

  // ----- the text of a tree -----

  function Nodes(ps: seq<Piece>): seq<Node>
    decreases ps, 1
  {
    if ps == [] then [] else [NodeOf(ps[0])] + Nodes(ps[1..])
  }

  function NodeOf(p: Piece): Node
    decreases p, 2
  {
    match p
    case Lit(t) => Text(t)
    case Insert(c) => Hole(CallNodes(c))
  }

  function CallNodes(c: Call): seq<Node>
    decreases c, 1
  {
    [Text(c.name)] + ArgNodes(c.args)
  }

  function ArgNodes(args: seq<Arg>): seq<Node>
    decreases args, 0
  {
    if args == [] then [] else [Text(" " + args[0].key + "=")] + Nodes(args[0].value) + ArgNodes(args[1..])
  }

  function TextOf(ps: seq<Piece>): string { Print(Nodes(ps)) }

  function CallText(c: Call): string { Print(CallNodes(c)) }

  function ArgsText(args: seq<Arg>): string { Print(ArgNodes(args)) }

  // ----- what a tree means -----

  function Eval(c: Call, env: Env): Option<string>
    decreases c, 1
  {
    env(c.name, EvalArgs(c.args, env))
  }

  /** Of two arguments with one key the later counts. */
  function EvalArgs(args: seq<Arg>, env: Env): map<string, string>
    decreases args, 0
  {
    if args == [] then map[] else map[args[0].key := Render(args[0].value, env)] + EvalArgs(args[1..], env)
  }

  /** Literals stand for themselves, a call for its value or, when it has none, for
      nothing. Values are taken as they are, whatever they contain. */
  function Render(ps: seq<Piece>, env: Env): string
    decreases ps, 1
  {
    if ps == [] then "" else RenderPiece(ps[0], env) + Render(ps[1..], env)
  }

  function RenderPiece(p: Piece, env: Env): string
    decreases p, 2
  {
    match p
    case Lit(t) => t
    case Insert(c) => ValueOr(Eval(c, env))
  }

  // ----- the trees that can be written down -----

  predicate NoSpace(s: string) { forall i :: 0 <= i < |s| ==> !IsSpace(s[i]) }

  predicate Word(s: string) { NoSpace(s) && BraceFree(s) }

  /** Literals have no braces; inside an argument value they have no white space
      either. */
  predicate Writable(ps: seq<Piece>, inArg: bool)
    decreases ps, 1
  {
    ps == [] || (WritablePiece(ps[0], inArg) && Writable(ps[1..], inArg))
  }

  predicate WritablePiece(p: Piece, inArg: bool)
    decreases p, 2
  {
    match p
    case Lit(t) => BraceFree(t) && (inArg ==> NoSpace(t))
    case Insert(c) => WritableCall(c)
  }

  predicate WritableCall(c: Call)
    decreases c, 1
  {
    c.name != "" && Word(c.name) && WritableArgs(c.args)
  }

  predicate WritableArgs(args: seq<Arg>)
    decreases args, 0
  {
    args == [] ||
    (Word(args[0].key) && '=' !in args[0].key && Writable(args[0].value, true) && WritableArgs(args[1..]))
  }

  // ----- printed trees are plain -----

  lemma {:induction false} PlainConcat(a: seq<Node>, b: seq<Node>)
    ensures Plain(a + b) <==> Plain(a) && Plain(b)
    decreases |a|
  {
    if a == [] {
      assert a + b == b;
    } else {
      assert (a + b)[1..] == a[1..] + b;
      PlainConcat(a[1..], b);
    }
  }

  lemma {:induction false} PrintConcat(a: seq<Node>, b: seq<Node>)
    ensures Print(a + b) == Print(a) + Print(b)
    decreases |a|
  {
    if a == [] {
      assert a + b == b;
    } else {
      assert (a + b)[1..] == a[1..] + b;
      PrintConcat(a[1..], b);
    }
  }

  lemma PlainOne(n: Node)
    ensures Plain([n]) <==> PlainNode(n)
    ensures Print([n]) == PrintNode(n)
  {
    assert [n][1..] == [];
  }

  lemma {:induction false} NodesArePlain(ps: seq<Piece>, inArg: bool)
    requires Writable(ps, inArg)
    ensures Plain(Nodes(ps))
    decreases ps, 1
  {
    if ps != [] {
      PieceIsPlain(ps[0], inArg);
      NodesArePlain(ps[1..], inArg);
      PlainOne(NodeOf(ps[0]));
      PlainConcat([NodeOf(ps[0])], Nodes(ps[1..]));
    }
  }

  lemma {:induction false} PieceIsPlain(p: Piece, inArg: bool)
    requires WritablePiece(p, inArg)
    ensures PlainNode(NodeOf(p))
    decreases p, 2
  {
    match p
    case Lit(t) =>
    case Insert(c) => CallIsPlain(c);
  }

  lemma {:induction false} CallIsPlain(c: Call)
    requires WritableCall(c)
    ensures Plain(CallNodes(c))
    decreases c, 1
  {
    ArgsArePlain(c.args);
    PlainOne(Text(c.name));
    PlainConcat([Text(c.name)], ArgNodes(c.args));
  }

  lemma {:induction false} ArgsArePlain(args: seq<Arg>)
    requires WritableArgs(args)
    ensures Plain(ArgNodes(args))
    decreases args, 0
  {
    if args != [] {
      var head := [Text(" " + args[0].key + "=")];
      NodesArePlain(args[0].value, true);
      ArgsArePlain(args[1..]);
      PlainOne(head[0]);
      PlainConcat(head, Nodes(args[0].value));
      PlainConcat(head + Nodes(args[0].value), ArgNodes(args[1..]));
    }
  }

  lemma CallTextParts(c: Call)
    ensures CallText(c) == c.name + ArgsText(c.args)
  {
    PrintConcat([Text(c.name)], ArgNodes(c.args));
    PlainOne(Text(c.name));
  }

  lemma ArgsTextParts(args: seq<Arg>)
    requires args != []
    ensures ArgsText(args) == " " + args[0].key + "=" + TextOf(args[0].value) + ArgsText(args[1..])
  {
    var head := [Text(" " + args[0].key + "=")];
    PlainOne(head[0]);
    PrintConcat(head + Nodes(args[0].value), ArgNodes(args[1..]));
    PrintConcat(head, Nodes(args[0].value));
  }

  // ----- an argument value ends where its text ends -----

  lemma {:induction false} TextKeepsArg(pre: string, t: string, rest: string, depth: int)
    requires BraceFree(t) && (depth == 0 ==> NoSpace(t))
    ensures ArgEnd(pre + t + rest, |pre|, depth) == ArgEnd(pre + t + rest, |pre| + |t|, depth)
    decreases |t|
  {
    if t != "" {
      var s := pre + t + rest;
      assert s[|pre|] == t[0];
      var pre' := pre + [t[0]];
      assert pre' + t[1..] + rest == s;
      TextKeepsArg(pre', t[1..], rest, depth);
    }
  }

  lemma ArgOfBraces(s: string, i: nat, depth: int)
    requires i < |s|
    ensures IsOpen(s, i) ==> i + 2 <= |s| && ArgEnd(s, i, depth) == ArgEnd(s, i + 2, depth + 1)
    ensures IsClose(s, i) ==> i + 2 <= |s| && ArgEnd(s, i, depth) == ArgEnd(s, i + 2, depth - 1)
  {
  }

  lemma {:induction false} TreeKeepsArg(pre: string, ns: seq<Node>, rest: string, depth: int)
    requires Plain(ns) && depth >= 1
    ensures ArgEnd(pre + Print(ns) + rest, |pre|, depth) == ArgEnd(pre + Print(ns) + rest, |pre| + |Print(ns)|, depth)
    decreases ns, 1
  {
    hide ArgEnd;
    if ns != [] {
      var p, q := PrintNode(ns[0]), Print(ns[1..]);
      Regroup(pre, p, q, rest);
      NodeKeepsArg(pre, ns[0], q + rest, depth);
      TreeKeepsArg(pre + p, ns[1..], rest, depth);
    }
  }

  /** A node keeps the depth: at depth zero too, unless it is text with blanks. */
  lemma {:induction false} NodeKeepsArg(pre: string, n: Node, rest: string, depth: int)
    requires PlainNode(n) && depth >= 0 && (depth == 0 && n.Text? ==> NoSpace(n.text))
    ensures ArgEnd(pre + PrintNode(n) + rest, |pre|, depth) == ArgEnd(pre + PrintNode(n) + rest, |pre| + |PrintNode(n)|, depth)
    decreases n, 2
  {
    hide ArgEnd;
    match n
    case Text(t) => TextKeepsArg(pre, t, rest, depth);
    case Hole(inner) =>
      var s, w := pre + PrintNode(n) + rest, Print(inner);
      HoleShape(pre, w, rest);
      TreeKeepsArg(pre + "{{", inner, "}}" + rest, depth + 1);
      ArgOfBraces(s, |pre|, depth);
      ArgOfBraces(s, |pre| + 2 + |w|, depth + 1);
  }

  lemma {:induction false} PiecesKeepArg(pre: string, ps: seq<Piece>, rest: string)
    requires Writable(ps, true)
    ensures ArgEnd(pre + TextOf(ps) + rest, |pre|, 0) == ArgEnd(pre + TextOf(ps) + rest, |pre| + |TextOf(ps)|, 0)
    decreases |ps|
  {
    hide ArgEnd, PrintNode;
    if ps != [] {
      var n, more := NodeOf(ps[0]), Nodes(ps[1..]);
      assert Nodes(ps)[0] == n && Nodes(ps)[1..] == more;
      var p, q := PrintNode(n), TextOf(ps[1..]);
      assert TextOf(ps) == p + q;
      Regroup(pre, p, q, rest);
      if ps[0].Insert? { CallIsPlain(ps[0].call); }
      NodeKeepsArg(pre, n, q + rest, 0);
      PiecesKeepArg(pre + p, ps[1..], rest);
    }
  }

  /** A close without an open takes the depth below zero, and the value then runs on
      over blanks: the arguments behind it are swallowed. */
  lemma StrayCloseSwallowsArguments(t: string)
    requires BraceFree(t)
    ensures ArgEnd("}}" + t, 0, 0) == |"}}" + t|
  {
    var s := "}}" + t;
    ArgOfBraces(s, 0, 0);
    TextKeepsArg("}}", t, "", -1);
    assert "}}" + t + "" == s;
  }

  // ----- trimming -----

  predicate Tight(s: string) { s == "" || (!IsSpace(s[0]) && !IsSpace(s[|s| - 1])) }

  predicate TightEnd(s: string) { s == "" || !IsSpace(s[|s| - 1]) }

  lemma TrimTight(s: string)
    requires Tight(s)
    ensures TrimSpace(s) == s && TrimSpace(" " + s) == s
  {
    assert (" " + s)[1..] == s;
    if s == "" { assert TrimLeft(" ") == ""; }
  }

  lemma {:induction false} PiecesEndTight(ps: seq<Piece>)
    requires Writable(ps, true)
    ensures TightEnd(TextOf(ps))
    decreases |ps|
  {
    if ps == [] {
      NoText();
    } else {
      hide TextOf, NodeOf, PrintNode, TightEnd;
      PiecesEndTight(ps[1..]);
      NodesStep(ps, 0);
      PieceEndsTight(ps[0]);
      TightEndConcat(PrintNode(NodeOf(ps[0])), TextOf(ps[1..]));
    }
  }

  lemma NoText()
    ensures TextOf([]) == "" && TightEnd("")
  {
  }

  lemma TightEndConcat(a: string, b: string)
    requires TightEnd(a) && TightEnd(b)
    ensures TightEnd(a + b)
  {
    if b == "" { assert a + b == a; }
  }

  lemma PieceEndsTight(p: Piece)
    requires WritablePiece(p, true)
    ensures TightEnd(PrintNode(NodeOf(p)))
  {
    if p.Insert? { HoleEndsTight(CallNodes(p.call)); }
  }

  lemma HoleEndsTight(inner: seq<Node>)
    ensures TightEnd(PrintNode(Hole(inner)))
  {
    var p := PrintNode(Hole(inner));
    assert p[|p| - 1] == '}';
  }

  lemma {:induction false} ArgsEndTight(args: seq<Arg>)
    requires WritableArgs(args)
    ensures TightEnd(ArgsText(args))
    decreases |args|
  {
    if args != [] {
      ArgsEndTight(args[1..]);
      PiecesEndTight(args[0].value);
      ArgsTextParts(args);
      var head := " " + args[0].key + "=";
      assert TightEnd(head);
      hide ArgNodes, Nodes, TightEnd;
      TightEndConcat(head, TextOf(args[0].value));
      TightEndConcat(head + TextOf(args[0].value), ArgsText(args[1..]));
    }
  }

  /** The arguments' text without its leading blank. */
  function ArgsBody(args: seq<Arg>): string {
    if args == [] then "" else args[0].key + "=" + TextOf(args[0].value) + ArgsText(args[1..])
  }

  lemma BodyIsTight(args: seq<Arg>)
    requires WritableArgs(args)
    ensures Tight(ArgsBody(args))
    ensures args != [] ==> ArgsText(args) == " " + ArgsBody(args)
    ensures TrimSpace(ArgsText(args)) == ArgsBody(args)
  {
    hide ArgNodes, Nodes, TextOf, TrimSpace;
    if args == [] {
      NoArgsText();
    } else {
      ArgsEndTight(args);
      ArgsTextParts(args);
      var v, r := TextOf(args[0].value), ArgsText(args[1..]);
      BodyShape(args[0].key, v, r);
      TrimTight(ArgsBody(args));
    }
  }

  lemma BodyShape(key: string, v: string, r: string)
    requires NoSpace(key) && TightEnd(" " + key + "=" + v + r)
    ensures Tight(key + "=" + v + r) && " " + key + "=" + v + r == " " + (key + "=" + v + r)
  {
    var body := key + "=" + v + r;
    assert " " + key + "=" + v + r == " " + body;
    assert (" " + body)[|body|] == body[|body| - 1];
    assert body[0] == if key == "" then '=' else key[0];
  }

  lemma NoArgsText()
    ensures ArgsText([]) == "" && TrimSpace("") == ""
  {
  }

  // ----- parsing a call's text -----

  function TextArgs(args: seq<Arg>): map<string, string> {
    if args == [] then map[] else map[args[0].key := TextOf(args[0].value)] + TextArgs(args[1..])
  }

  lemma ValueEnds(value: seq<Piece>, args: seq<Arg>)
    requires Writable(value, true)
    ensures ArgEnd(TextOf(value) + ArgsText(args), 0, 0) == |TextOf(value)|
  {
    var v, r := TextOf(value), ArgsText(args);
    PiecesKeepArg("", value, r);
    assert "" + v + r == v + r;
    if args != [] {
      ArgsTextParts(args);
      assert (v + r)[|v|] == ' ';
    } else {
      NoArgsText();
    }
    hide TextOf, ArgsText;
  }

  lemma {:induction false} ParsePairsOfText(args: seq<Arg>)
    requires WritableArgs(args)
    ensures ParseArgs(ArgsBody(args)) == TextArgs(args)
    decreases |args|
  {
    hide TextOf, ArgsText, ArgEnd, TrimSpace, IndexByte, ParseArgs, Writable;
    if args != [] {
      var key, v, r := args[0].key, TextOf(args[0].value), ArgsText(args[1..]);
      var body := ArgsBody(args);
      assert body == key + "=" + v + r && body == key + ['='] + (v + r);
      IndexAfterPrefix(key, '=', v + r);
      assert body[..|key|] == key && body[|key| + 1..] == v + r;
      ValueEnds(args[0].value, args[1..]);
      TrimTight(key);
      BodyIsTight(args[1..]);
      assert (v + r)[..|v|] == v && (v + r)[|v|..] == r;
      PairsFrom(body, |key|);
      ParsePairsOfText(args[1..]);
    }
  }

  lemma CallTextIsTight(c: Call)
    requires WritableCall(c)
    ensures Tight(CallText(c)) && TrimSpace(CallText(c)) == CallText(c)
  {
    hide CallNodes, ArgNodes;
    CallTextParts(c);
    ArgsEndTight(c.args);
    TrimTight(CallText(c));
  }

  /** Parsing a call's text gives back its name and its arguments' texts. */
  lemma ParseOfCall(c: Call)
    requires WritableCall(c)
    ensures ParseExprOf(CallText(c)) == Parsed(c.name, TextArgs(c.args))
  {
    CallTextIsTight(c);
    CallTextParts(c);
    var raw, r := CallText(c), ArgsText(c.args);
    BodyIsTight(c.args);
    ParsePairsOfText(c.args);
    if c.args == [] { NoArgsText(); }
    hide CallText, ArgsText, ArgsBody, TrimSpace, ParseArgs, TextArgs;
    NameEnds(c.name, r);
    if c.args == [] {
      assert raw == c.name;
    } else {
      assert raw[|c.name|] == ' ';
      assert raw[..|c.name|] == c.name && raw[|c.name| + 1..] == ArgsBody(c.args);
      BodyTrims(c.args);
    }
  }

  lemma BodyTrims(args: seq<Arg>)
    requires WritableArgs(args)
    ensures TrimSpace(ArgsBody(args)) == ArgsBody(args)
  {
    BodyIsTight(args);
    TrimTight(ArgsBody(args));
  }

  lemma NameEnds(name: string, r: string)
    requires NoSpace(name) && (r == "" || r[0] == ' ')
    ensures IndexBlank(name + r, 0) == if r == "" then -1 else |name|
  {
    assert forall i :: 0 <= i < |name| ==> (name + r)[i] == name[i] && !IsBlank(name[i]);
    if r != "" { assert (name + r)[|name|] == ' '; }
  }

  // ----- resolving -----

  lemma SpansOfText(pre: string, ps: seq<Piece>, inArg: bool)
    requires Writable(ps, inArg)
    ensures Scan(pre + TextOf(ps), |pre|) == Holes(Nodes(ps), |pre|)
  {
    NodesArePlain(ps, inArg);
    hide Nodes, Print, Scan;
    ScanOfPrint(pre, Nodes(ps));
  }

  lemma NodesStep(ps: seq<Piece>, at: nat)
    requires ps != []
    ensures var n := NodeOf(ps[0]);
      TextOf(ps) == PrintNode(n) + TextOf(ps[1..]) &&
      Holes(Nodes(ps), at) == HoleOf(n, at) + Holes(Nodes(ps[1..]), at + |PrintNode(n)|)
  {
    assert Nodes(ps)[0] == NodeOf(ps[0]) && Nodes(ps)[1..] == Nodes(ps[1..]);
  }

  /** Every call inserted at the top of the pieces evaluates as its text resolves. */
  ghost predicate Agrees(ps: seq<Piece>, env: Env) {
    forall c: Call :: Insert(c) in ps ==> ResolveExprOf(TrimSpace(CallText(c)), env) == Eval(c, env)
  }

  lemma SpliceCons(s: string, e: Span, rest: seq<Span>, prev: nat, env: Env)
    requires Ordered(s, [e] + rest, prev)
    ensures prev <= e.start <= e.end <= |s| && Ordered(s, rest, e.end)
    ensures Splice(s, [e] + rest, prev, env) ==
      s[prev..e.start] + ValueOr(ResolveExprOf(e.raw, env)) + Splice(s, rest, e.end, env)
  {
    hide ResolveExprOf;
    assert ([e] + rest)[0] == e && ([e] + rest)[1..] == rest;
  }

  lemma CutText(s: string, at: nat, p: string, q: string, prev: nat)
    requires prev <= at <= |s| && s[at..] == p + q
    ensures at + |p| <= |s| && s[at + |p|..] == q
    ensures s[prev..at + |p|] == s[prev..at] + p && s[at + |p|..at + |p|] == ""
  {
    assert s[at..][..|p|] == p && s[at..][|p|..] == q;
    assert s[at..at + |p|] == p;
  }

  /** Splicing the text of a template that stands at the end of `s`, from a place
      before it, copies what lies between and renders the template. */
  lemma {:induction false} SpliceRenders(s: string, at: nat, ps: seq<Piece>, prev: nat, inArg: bool, env: Env)
    requires Writable(ps, inArg) && Agrees(ps, env) && prev <= at <= |s| && s[at..] == TextOf(ps)
    requires Ordered(s, Holes(Nodes(ps), at), prev)
    ensures Splice(s, Holes(Nodes(ps), at), prev, env) == s[prev..at] + Render(ps, env)
    decreases |ps|
  {
    hide Splice, ResolveExprOf, Eval, TrimSpace, Ordered, Holes, Nodes, Print, TextOf, CallNodes, WritablePiece, PrintNode, Agrees;
    if ps == [] {
      SpliceNothing(s, at, prev, env);
    } else {
      var p := PrintNode(NodeOf(ps[0]));
      NodesStep(ps, at);
      AgreesStep(ps, env);
      CutText(s, at, p, TextOf(ps[1..]), prev);
      match ps[0] {
        case Lit(t) =>
          PrintText(t);
          assert [] + Holes(Nodes(ps[1..]), at + |p|) == Holes(Nodes(ps[1..]), at + |p|);
          SpliceRenders(s, at + |p|, ps[1..], prev, inArg, env);
          RegroupLast(s[prev..at], t, Render(ps[1..], env));
        case Insert(c) =>
          PrintedHoleLength(CallNodes(c));
          SpliceCons(s, Span(TrimSpace(CallText(c)), at, at + |p|), Holes(Nodes(ps[1..]), at + |p|), prev, env);
          SpliceRenders(s, at + |p|, ps[1..], at + |p|, inArg, env);
          RegroupLast(s[prev..at], ValueOr(Eval(c, env)), Render(ps[1..], env));
      }
    }
  }

  lemma RegroupLast(a: string, b: string, c: string)
    ensures a + b + c == a + (b + c) && "" + c == c
  {
  }

  lemma PrintText(t: string)
    ensures PrintNode(Text(t)) == t
  {
  }

  lemma AgreesStep(ps: seq<Piece>, env: Env)
    requires ps != [] && Agrees(ps, env)
    ensures Agrees(ps[1..], env)
    ensures ps[0].Insert? ==> ResolveExprOf(TrimSpace(CallText(ps[0].call)), env) == Eval(ps[0].call, env)
  {
    hide ResolveExprOf, TrimSpace, CallText, Eval;
    assert ps[0] in ps;
  }

  lemma SpliceNothing(s: string, at: nat, prev: nat, env: Env)
    requires prev <= at <= |s| && s[at..] == TextOf([])
    ensures Holes(Nodes([]), at) == []
    ensures Splice(s, [], prev, env) == s[prev..at] + Render([], env)
  {
    assert s[prev..at] + "" == s[prev..];
  }

  lemma ResolveRenders(ps: seq<Piece>, inArg: bool, env: Env)
    requires Writable(ps, inArg) && Agrees(ps, env)
    ensures ResolveValue(TextOf(ps), env) == Render(ps, env)
  {
    hide Splice, Ordered, Holes, Scan, TextOf, Nodes, Agrees, Writable, Render;
    var s := TextOf(ps);
    assert "" + s == s && s[0..] == s;
    SpansOfText("", ps, inArg);
    ScanIsOrdered(s, 0);
    SpliceRenders(s, 0, ps, 0, inArg, env);
    assert s[0..0] + Render(ps, env) == Render(ps, env);
  }

  // ----- the statements -----

  /** Resolving a call's text evaluates the call: names and keys are recovered, nested
      calls in arguments are resolved first, and values are never read again. */
  lemma {:induction false} CallMeansItself(c: Call, env: Env)
    requires WritableCall(c)
    ensures ResolveExprOf(CallText(c), env) == Eval(c, env)
    decreases c, 3
  {
    ParseOfCall(c);
    ArgsMeanThemselves(c.args, |CallText(c)|, env);
  }

  lemma {:induction false} ArgsMeanThemselves(args: seq<Arg>, bound: nat, env: Env)
    requires WritableArgs(args) && forall k :: k in TextArgs(args) ==> |TextArgs(args)[k]| < bound
    ensures ResolveAll(TextArgs(args), bound, env) == EvalArgs(args, env)
    decreases args, 2
  {
    hide ResolveValue, ResolveAll, TextOf, Render, Writable;
    if args == [] {
      ResolveAllOfNone(bound, env);
    } else {
      var rest := TextArgs(args[1..]);
      assert forall k :: k in rest ==> rest[k] == TextArgs(args)[k];
      ArgsMeanThemselves(args[1..], bound, env);
      PiecesMeanThemselves(args[0].value, true, env);
      ResolveRenders(args[0].value, true, env);
      assert TextArgs(args) == map[args[0].key := TextOf(args[0].value)] + rest;
      ResolveAllCons(args[0].key, TextOf(args[0].value), rest, bound, env);
    }
  }

  lemma ResolveAllOfNone(bound: nat, env: Env)
    ensures ResolveAll(map[], bound, env) == map[]
  {
  }

  lemma ResolveAllCons(k: string, v: string, rest: map<string, string>, bound: nat, env: Env)
    requires forall j :: j in map[k := v] + rest ==> |(map[k := v] + rest)[j]| < bound
    ensures forall j :: j in rest ==> |rest[j]| < bound
    ensures ResolveAll(map[k := v] + rest, bound, env) == map[k := ResolveValue(v, env)] + ResolveAll(rest, bound, env)
  {
    hide ResolveValue;
    assert forall j :: j in rest ==> rest[j] == (map[k := v] + rest)[j];
  }

  lemma {:induction false} PiecesMeanThemselves(ps: seq<Piece>, inArg: bool, env: Env)
    requires Writable(ps, inArg)
    ensures Agrees(ps, env)
    decreases ps, 4
  {
    hide ResolveExprOf, Eval, TrimSpace, CallText;
    if ps != [] {
      PieceMeansItself(ps[0], inArg, env);
      PiecesMeanThemselves(ps[1..], inArg, env);
      assert forall c: Call :: Insert(c) in ps ==> Insert(c) == ps[0] || Insert(c) in ps[1..];
    }
  }

  lemma {:induction false} PieceMeansItself(p: Piece, inArg: bool, env: Env)
    requires WritablePiece(p, inArg)
    ensures p.Insert? ==> ResolveExprOf(TrimSpace(CallText(p.call)), env) == Eval(p.call, env)
    decreases p, 5
  {
    match p
    case Lit(_) =>
    case Insert(c) =>
      CallTextIsTight(c);
      CallMeansItself(c, env);
  }

  /** The first call at the top of the pieces that has no value. */
  function FirstUndefined(ps: seq<Piece>, env: Env): Option<Call> {
    if ps == [] then None
    else if ps[0].Insert? && Eval(ps[0].call, env).None? then Some(ps[0].call)
    else FirstUndefined(ps[1..], env)
  }

  lemma {:induction false} FailuresAreUndefinedCalls(ps: seq<Piece>, at: nat, env: Env)
    requires Agrees(ps, env) && Writable(ps, false)
    ensures FirstFailure(Holes(Nodes(ps), at), env) ==
      match FirstUndefined(ps, env) case None => None case Some(c) => Some(CallText(c))
    decreases |ps|
  {
    hide ResolveExprOf, Eval, TrimSpace, TextOf, Print, Holes, Nodes, CallNodes, WritableCall, FirstFailure, Agrees, PrintNode;
    if ps == [] {
      NoFailures(at, env);
    } else {
      var next := at + |PrintNode(NodeOf(ps[0]))|;
      var rest := Holes(Nodes(ps[1..]), next);
      NodesStep(ps, at);
      AgreesStep(ps, env);
      FailuresAreUndefinedCalls(ps[1..], next, env);
      match ps[0] {
        case Lit(t) => assert [] + rest == rest;
        case Insert(c) =>
          CallTextIsTight(c);
          FailureCons(Span(TrimSpace(CallText(c)), at, next), rest, env);
      }
    }
  }

  lemma FailureCons(e: Span, rest: seq<Span>, env: Env)
    ensures FirstFailure([e] + rest, env) == if ResolveExprOf(e.raw, env).None? then Some(e.raw) else FirstFailure(rest, env)
  {
    hide ResolveExprOf;
    assert ([e] + rest)[0] == e && ([e] + rest)[1..] == rest;
  }

  lemma NoFailures(at: nat, env: Env)
    ensures FirstFailure(Holes(Nodes([]), at), env) == None
  {
  }

  /** Resolving a written template renders it, text and values side by side; in strict
      mode it fails exactly when one of its calls has no value, and names the first. */
  lemma TemplatesMeanThemselves(ps: seq<Piece>, env: Env, strict: bool)
    requires Writable(ps, false)
    ensures ResolveBytes(TextOf(ps), env, strict) ==
      match FirstUndefined(ps, env)
      case None => Ok(Render(ps, env))
      case Some(c) => if strict then Unresolvable(CallText(c)) else Ok(Render(ps, env))
  {
    hide FirstFailure, Holes, Scan, TextOf, Nodes, Agrees, Writable, Render, FirstUndefined, ResolveValue;
    PiecesMeanThemselves(ps, false, env);
    ResolveRenders(ps, false, env);
    assert "" + TextOf(ps) == TextOf(ps);
    SpansOfText("", ps, false);
    FailuresAreUndefinedCalls(ps, 0, env);
  }
}
