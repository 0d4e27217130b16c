/** Where an argument value ends (templating.go:154-171) against what its comment
    promises: at the next blank outside every {{...}} block. */
module TemplateArgs {
  import opened Options
  import opened TemplateScan
  import opened Templates

  /** The promised end: the first blank outside every block. A close without an open
      closes nothing. */
  function PromisedEnd(s: string, i: nat, nest: nat): (r: nat)
    requires i <= |s|
    ensures i <= r <= |s|
    decreases |s| - i
  {
    if i == |s| then i
    else if IsOpen(s, i) then PromisedEnd(s, i + 2, nest + 1)
    else if IsClose(s, i) then PromisedEnd(s, i + 2, if nest == 0 then 0 else nest - 1)
    else if nest == 0 && IsBlank(s[i]) then i
    else PromisedEnd(s, i + 1, nest)
  }

  /** How many blocks are open at a place, and how many closes before it closed
      nothing. */
  datatype Reading = Reading(nest: nat, strays: nat)

  /** The reading on reaching `to`, from `r` at `i`; None when no token starts there. */
  function ReadTo(s: string, i: nat, to: nat, r: Reading): Option<Reading>
    decreases |s| + to - i
  {
    if i == to then Some(r)
    else if i > to || i >= |s| then None
    else if IsOpen(s, i) then ReadTo(s, i + 2, to, r.(nest := r.nest + 1))
    else if IsClose(s, i) then ReadTo(s, i + 2, to, if r.nest == 0 then r.(strays := r.strays + 1) else r.(nest := r.nest - 1))
    else ReadTo(s, i + 1, to, r)
  }

  /** A blank behind stray closes that stands outside every block, or in as many
      blocks as there are stray closes before it. */
  predicate Misread(s: string, i: nat, r: Reading, p: nat) {
    p < |s| && IsBlank(s[p]) &&
    match ReadTo(s, i, p, r)
    case None => false
    case Some(at) => at.strays > 0 && (at.nest == 0 || at.nest == at.strays)
  }

  lemma ReadStep(s: string, i: nat, r: Reading, next: nat, r': Reading)
    requires i < |s| && next > i
    requires forall to: nat ::
      ReadTo(s, i, to, r) == (if to == i then Some(r) else if to < i then None else ReadTo(s, next, to, r'))
    ensures forall p: nat :: p > i ==> (Misread(s, i, r, p) <==> Misread(s, next, r', p))
    ensures forall p: nat :: i < p < next ==> !Misread(s, i, r, p)
  {
    hide IsOpen, IsClose, IsBlank;
    forall p: nat | i < p < next ensures ReadTo(s, next, p, r') == None {
    }
  }

  /** The code's walk and the promised one, from any reading. */
  lemma {:induction false} EndsAgreeFrom(s: string, i: nat, r: Reading)
    requires i <= |s|
    ensures ArgEnd(s, i, r.nest - r.strays) == PromisedEnd(s, i, r.nest) <==>
      forall p: nat :: i <= p <= PromisedEnd(s, i, r.nest) ==> !Misread(s, i, r, p)
    decreases |s| - i
  {
    if i < |s| {
      var (next, r') :=
        if IsOpen(s, i) then (i + 2, r.(nest := r.nest + 1))
        else if IsClose(s, i) then (i + 2, if r.nest == 0 then r.(strays := r.strays + 1) else r.(nest := r.nest - 1))
        else (i + 1, r);
      EndsAgreeFrom(s, next, r');
      ReadStep(s, i, r, next, r');
      assert Misread(s, i, r, i) <==> IsBlank(s[i]) && r.strays > 0 && (r.nest == 0 || r.nest == r.strays);
      if next == i + 1 && IsBlank(s[i]) && (r.nest == 0 || r.nest == r.strays) {
        hide Misread;
      } else {
        assert PromisedEnd(s, i, r.nest) == PromisedEnd(s, next, r'.nest);
        assert ArgEnd(s, i, r.nest - r.strays) == ArgEnd(s, next, r'.nest - r'.strays);
        hide ArgEnd, PromisedEnd, Misread;
      }
    }
  }

  /** An argument value ends where promised if and only if no blank up to the promised
      end is misread: it has no stray close before it, or it lies in a block and not
      exactly as deep as there are stray closes before it. */
  lemma ArgEndsAsPromisedIff(s: string)
    ensures ArgEnd(s, 0, 0) == PromisedEnd(s, 0, 0) <==>
      forall p: nat :: p <= PromisedEnd(s, 0, 0) ==> !Misread(s, 0, Reading(0, 0), p)
  {
    EndsAgreeFrom(s, 0, Reading(0, 0));
  }
}

/** The two ways in which an argument value ends too late or too early, in templates. */
module TemplateArgWitnesses {
  import opened Strings
  import opened TemplateScan
  import opened TemplateTrees
  import opened Templates
  import opened TemplateArgs
  import TemplateMeaning

  /** Both templates open a block in an argument's key and close it in its value, so
      the value starts with a stray close. */
  const SWALLOWING := "{{f {{k=}} b=1}}"
  const SPLITTING := "{{f {{k=}}{{a b}}}}"

  /** The first value runs over the blank it should end at, and takes the argument
      behind it along. */
  lemma StrayCloseSwallowsAnArgument()
    ensures ArgEnd("}} b=1", 0, 0) == 6 && PromisedEnd("}} b=1", 0, 0) == 2
    ensures ParseExprOf("f {{k=}} b=1") == Parsed("f", map["{{k" := "}} b=1"])
  {
    var v := "}} b=1";
    assert ArgEnd(v, 0, 0) == ArgEnd(v, 2, -1) == ArgEnd(v, 3, -1) == ArgEnd(v, 4, -1) == ArgEnd(v, 5, -1) == ArgEnd(v, 6, -1) == 6;
    assert PromisedEnd(v, 0, 0) == PromisedEnd(v, 2, 0) == 2;
    assert v[..6] == v && v[6..] == "";
    TemplateMeaning.TrimTight("");
    assert "f {{k=" + v == "f {{k=}} b=1";
    OneArgument(v, "");
  }

  /** The second value ends at a blank inside a block, and loses the rest of it. */
  lemma StrayCloseSplitsABlock()
    ensures ArgEnd("}}{{a b}}", 0, 0) == 5 && PromisedEnd("}}{{a b}}", 0, 0) == 9
    ensures ParseExprOf("f {{k=}}{{a b}}") == Parsed("f", map["{{k" := "}}{{a"])
  {
    var v := "}}{{a b}}";
    SplittingEnds();
    hide ArgEnd, PromisedEnd;
    assert v[..5] == "}}{{a" && v[5..] == " b}}";
    assert " b}}" == " " + "b}}";
    TemplateMeaning.TrimTight("b}}");
    assert "f {{k=" + v == "f {{k=}}{{a b}}";
    OneArgument(v, "b}}");
  }

  lemma SplittingEnds()
    ensures ArgEnd("}}{{a b}}", 0, 0) == 5 && PromisedEnd("}}{{a b}}", 0, 0) == 9
  {
    var v := "}}{{a b}}";
    assert ArgEnd(v, 0, 0) == ArgEnd(v, 2, -1) == ArgEnd(v, 4, 0) == ArgEnd(v, 5, 0) == 5;
    assert PromisedEnd(v, 0, 0) == PromisedEnd(v, 2, 0) == PromisedEnd(v, 4, 1) == PromisedEnd(v, 5, 1);
    assert PromisedEnd(v, 5, 1) == PromisedEnd(v, 6, 1) == PromisedEnd(v, 7, 1) == PromisedEnd(v, 9, 0) == 9;
  }

  /** Parsing a helper "f" with one pair, of key "{{k", and nothing that parses behind
      it. */
  lemma OneArgument(tail: string, left: string)
    requires tail != "" && !IsSpace(tail[|tail| - 1])
    requires TrimSpace(tail[ArgEnd(tail, 0, 0)..]) == left && '=' !in left
    ensures ParseExprOf("f {{k=" + tail) == Parsed("f", map["{{k" := tail[..ArgEnd(tail, 0, 0)]])
  {
    hide *;
    OnePair(tail, left);
    SameText(tail);
    NameF("{{k=" + tail);
  }

  lemma SameText(tail: string)
    requires tail != "" && !IsSpace(tail[|tail| - 1])
    ensures "f " + ("{{k=" + tail) == "f {{k=" + tail && TemplateMeaning.Tight("{{k=" + tail) && "{{k=" + tail != ""
  {
    assert ("{{k=" + tail)[0] == '{' && ("{{k=" + tail)[|tail| + 3] == tail[|tail| - 1];
  }

  lemma NameF(rest: string)
    requires TemplateMeaning.Tight(rest) && rest != ""
    ensures ParseExprOf("f " + rest) == Parsed("f", ParseArgs(rest))
  {
    var raw := "f " + rest;
    assert raw[0] == 'f' && raw[1] == ' ' && raw[2..] == rest && raw[..1] == "f" && raw[|raw| - 1] == rest[|rest| - 1];
    assert IndexBlank(raw, 0) == 1;
    hide IndexBlank, ParseArgs, TrimSpace;
    TemplateMeaning.TrimTight(raw);
    TemplateMeaning.TrimTight(rest);
  }

  lemma OnePair(tail: string, left: string)
    requires TrimSpace(tail[ArgEnd(tail, 0, 0)..]) == left && '=' !in left
    ensures ParseArgs("{{k=" + tail) == map["{{k" := tail[..ArgEnd(tail, 0, 0)]]
  {
    var rest, key := "{{k=" + tail, "{{k";
    assert rest == key + ['='] + tail && rest[..3] == key && rest[4..] == tail;
    IndexAfterPrefix(key, '=', tail);
    TemplateMeaning.TrimTight(key);
    hide TrimSpace, ArgEnd, ParseArgs;
    PairsFrom(rest, 3);
    PairsFrom(left, -1);
  }

  /** Templates with these expressions exist: the scanner yields exactly them. */
  lemma TheScannerYieldsThem()
    ensures Scan(SWALLOWING, 0) == [Span("f {{k=}} b=1", 0, 16)]
    ensures Scan(SPLITTING, 0) == [Span("f {{k=}}{{a b}}", 0, 19)]
  {
    SwallowingIsScanned();
    SplittingIsScanned();
  }

  lemma SwallowingIsScanned()
    ensures Scan(SWALLOWING, 0) == [Span("f {{k=}} b=1", 0, 16)]
  {
    var text := "f {{k=}} b=1";
    SwallowingText();
    hide Scan, Print, Plain, PlainNode, PrintNode, IsSpace;
    HoleOfText("k=");
    PlainText("f ");
    PlainText(" b=1");
    ThreeNodes(Text("f "), Hole([Text("k=")]), Text(" b=1"));
    ScanOne([Text("f "), Hole([Text("k=")]), Text(" b=1")], text);
  }

  lemma SwallowingText()
    ensures "f " + ("{{" + "k=" + "}}") + " b=1" == "f {{k=}} b=1"
    ensures "{{" + "f {{k=}} b=1" + "}}" == SWALLOWING
    ensures !IsSpace("f {{k=}} b=1"[0]) && !IsSpace("f {{k=}} b=1"[11])
  {
  }

  lemma SplittingIsScanned()
    ensures Scan(SPLITTING, 0) == [Span("f {{k=}}{{a b}}", 0, 19)]
  {
    var text := "f {{k=}}{{a b}}";
    SplittingText();
    hide Scan, Print, Plain, PlainNode, PrintNode, IsSpace;
    HoleOfText("k=");
    HoleOfText("a b");
    PlainText("f ");
    ThreeNodes(Text("f "), Hole([Text("k=")]), Hole([Text("a b")]));
    ScanOne([Text("f "), Hole([Text("k=")]), Hole([Text("a b")])], text);
  }

  lemma SplittingText()
    ensures "f " + ("{{" + "k=" + "}}") + ("{{" + "a b" + "}}") == "f {{k=}}{{a b}}"
    ensures "{{" + "f {{k=}}{{a b}}" + "}}" == SPLITTING
    ensures !IsSpace("f {{k=}}{{a b}}"[0]) && !IsSpace("f {{k=}}{{a b}}"[14])
  {
  }

  lemma PlainText(t: string)
    requires BraceFree(t)
    ensures PlainNode(Text(t)) && PrintNode(Text(t)) == t
  {
  }

  lemma HoleOfText(t: string)
    requires BraceFree(t)
    ensures PlainNode(Hole([Text(t)])) && PrintNode(Hole([Text(t)])) == "{{" + t + "}}"
  {
    TemplateMeaning.PlainOne(Text(t));
  }

  lemma ThreeNodes(a: Node, b: Node, c: Node)
    ensures Print([a, b, c]) == PrintNode(a) + PrintNode(b) + PrintNode(c)
    ensures Plain([a, b, c]) <==> PlainNode(a) && PlainNode(b) && PlainNode(c)
  {
    hide Print, Plain;
    assert [a, b, c] == [a] + [b] + [c];
    TemplateMeaning.PlainOne(a);
    TemplateMeaning.PlainOne(b);
    TemplateMeaning.PlainOne(c);
    TemplateMeaning.PrintConcat([a] + [b], [c]);
    TemplateMeaning.PrintConcat([a], [b]);
    TemplateMeaning.PlainConcat([a] + [b], [c]);
    TemplateMeaning.PlainConcat([a], [b]);
  }

  lemma ScanOne(inner: seq<Node>, text: string)
    requires Plain(inner) && Print(inner) == text && text != "" && !IsSpace(text[0]) && !IsSpace(text[|text| - 1])
    ensures Scan("{{" + text + "}}", 0) == [Span(text, 0, |text| + 4)]
  {
    var ns := [Hole(inner)];
    TemplateMeaning.PlainOne(ns[0]);
    assert Print(ns) == "{{" + text + "}}";
    assert Holes(ns, 0) == [Span(TrimSpace(text), 0, |text| + 4)] by { assert ns[1..] == []; }
    TemplateMeaning.TrimTight(text);
    hide Print, Scan, Holes, TrimSpace;
    ScanOfPrint("", ns);
    assert "" + Print(ns) == Print(ns);
  }
}
