/** Blanks, leftovers and missing values in templates (templating.go:112-171, 690-717). */
module TemplateLaws {
  import opened Options
  import opened Strings
  import opened TemplateScan
  import opened TemplateTrees
  import opened Templates
  import opened TemplateMeaning

  predicate Blank(c: char) { c == ' ' || c == '\t' }

  /** An argument value without braces and blanks ends at the first space or tab. */
  lemma {:induction false} BlankEndsValue(v: string, i: nat, c: char, rest: string)
    requires Blank(c) && BraceFree(v) && NoSpace(v) && i <= |v|
    ensures ArgEnd(v + [c] + rest, i, 0) == |v|
    decreases |v| - i
  {
    var s := v + [c] + rest;
    if i < |v| {
      assert s[i] == v[i];
      BlankEndsValue(v, i + 1, c, rest);
    } else {
      assert s[i] == c;
    }
  }

  lemma TrimLeftTight(s: string)
    requires s != "" && !IsSpace(s[0])
    ensures TrimLeft(s) == s
  {
  }

  lemma {:induction false} TrimRightBehind(head: string, c: char, rest: string)
    requires Blank(c)
    ensures TrimRight(head + [c] + rest) == if TrimRight(rest) == "" then TrimRight(head) else head + [c] + TrimRight(rest)
    decreases |rest|
  {
    TailOf(head, c, rest);
    if rest != "" && IsSpace(rest[|rest| - 1]) { TrimRightBehind(head, c, rest[..|rest| - 1]); }
  }

  lemma TailOf(head: string, c: char, rest: string)
    ensures var s := head + [c] + rest;
      s != "" && s[|s| - 1] == (if rest == "" then c else rest[|rest| - 1]) &&
      s[..|s| - 1] == if rest == "" then head else head + [c] + rest[..|rest| - 1]
  {
  }

  lemma WordIsTight(name: string)
    requires name != "" && NoSpace(name)
    ensures TrimLeft(name) == name && TrimRight(name) == name
  {
  }

  lemma {:induction false} TrimAfterRight(rest: string)
    ensures TrimSpace(TrimRight(rest)) == TrimSpace(rest)
    decreases |rest|
  {
    hide *;
    TrimCommutes(rest);
    TrimCommutes(TrimRight(rest));
    TrimRightTwice(rest);
  }

  lemma {:induction false} TrimRightTwice(s: string)
    ensures TrimRight(TrimRight(s)) == TrimRight(s)
    decreases |s|
  {
    if s != "" && IsSpace(s[|s| - 1]) { TrimRightTwice(s[..|s| - 1]); }
  }

  lemma {:induction false} TrimCommutes(s: string)
    ensures TrimSpace(s) == TrimLeft(TrimRight(s))
    decreases |s|
  {
    if s != "" && IsSpace(s[0]) {
      TrimCommutes(s[1..]);
      TrimRightDrops(s);
    }
  }

  lemma {:induction false} TrimRightDrops(s: string)
    requires s != "" && IsSpace(s[0])
    ensures TrimLeft(TrimRight(s)) == TrimLeft(TrimRight(s[1..]))
    decreases |s|
  {
    var n := |s| - 1;
    if IsSpace(s[n]) && n > 0 {
      assert s[..n][1..] == s[1..][..n - 1] && s[1..][n - 1] == s[n];
      TrimRightDrops(s[..n]);
    } else if n > 0 {
      assert s[1..][n - 1] == s[n];
    }
  }

  lemma NameAlone(name: string)
    requires name != "" && NoSpace(name)
    ensures ParseTrimmed(name) == Parsed(name, ParseArgs(""))
  {
    assert IndexBlank(name, 0) == -1 by { assert forall i :: 0 <= i < |name| ==> !IsBlank(name[i]); }
    PairsFrom("", -1);
  }

  lemma NameAndMore(name: string, c: char, tight: string)
    requires Blank(c) && name != "" && NoSpace(name)
    ensures ParseTrimmed(name + [c] + tight) == Parsed(name, ParseArgs(TrimSpace(tight)))
  {
    hide TrimSpace, ParseArgs;
    var s := name + [c] + tight;
    assert forall i :: 0 <= i < |name| ==> s[i] == name[i] && !IsBlank(name[i]);
    assert s[|name|] == c && s[..|name|] == name && s[|name| + 1..] == tight;
  }

  /** A name may be set off from its arguments by a tab or a space alike, and what stands
      behind is trimmed. */
  lemma NameEndsAtBlank(name: string, c: char, rest: string)
    requires Blank(c) && name != "" && NoSpace(name)
    ensures ParseExprOf(name + [c] + rest) == Parsed(name, ParseArgs(TrimSpace(rest)))
  {
    var s, tight := name + [c] + rest, TrimRight(rest);
    WordIsTight(name);
    assert s[0] == name[0];
    TrimLeftTight(s);
    TrimRightBehind(name, c, rest);
    TrimAfterRight(rest);
    assert TrimSpace(s) == if tight == "" then name else name + [c] + tight;
    assert TrimSpace("") == "";
    hide TrimSpace, TrimRight, TrimLeft, ParseArgs, ParseTrimmed;
    NameAlone(name);
    NameAndMore(name, c, tight);
  }

  /** So may the arguments be set off from each other: the value ends there, and what is
      behind is trimmed and read on. */
  lemma PairEndsAtBlank(key: string, v: string, c: char, rest: string)
    requires Blank(c) && '=' !in key && BraceFree(v) && NoSpace(v)
    ensures ParseArgs(key + "=" + v + [c] + rest) == map[TrimSpace(key) := v] + ParseArgs(TrimSpace([c] + rest))
  {
    var s, tail := key + "=" + v + [c] + rest, v + [c] + rest;
    assert s == key + ['='] + tail;
    IndexAfterPrefix(key, '=', tail);
    BlankEndsValue(v, 0, c, rest);
    assert s[..|key|] == key && s[|key| + 1..] == tail && tail[..|v|] == v && tail[|v|..] == [c] + rest;
    hide TrimSpace, ArgEnd, IndexByte;
    PairsFrom(s, |key|);
  }

  /** Text without an equals sign behind the last argument is left out. */
  lemma LeftoverIsIgnored(rest: string)
    requires '=' !in rest
    ensures ParseArgs(rest) == map[]
  {
    var i := IndexByte(rest, '=');
    assert forall k :: 0 <= k < |rest| ==> rest[k] in rest;
    PairsFrom(rest, i);
  }

  /** A call stands for its value, and for nothing at all where it has none. */
  lemma CallIsReplaced(a: string, c: Call, b: string, env: Env)
    requires WritableCall(c) && BraceFree(a) && BraceFree(b)
    ensures ResolveValue(TextOf([Lit(a), Insert(c), Lit(b)]), env) ==
      match Eval(c, env) case None => a + b case Some(v) => a + v + b
  {
    var ps := [Lit(a), Insert(c), Lit(b)];
    assert ps[1..] == [Insert(c), Lit(b)] && ps[1..][1..] == [Lit(b)] && ps[1..][1..][1..] == [];
    assert Writable(ps, false) by {
      assert Writable(ps[1..][1..][1..], false) && Writable(ps[1..][1..], false) && Writable(ps[1..], false);
    }
    PiecesMeanThemselves(ps, false, env);
    ResolveRenders(ps, false, env);
    hide Eval, ResolveValue, TextOf, WritableCall;
    assert Render(ps[1..][1..], env) == b by { assert b + "" == b; }
    assert Render(ps[1..], env) == ValueOr(Eval(c, env)) + b;
  }
}
