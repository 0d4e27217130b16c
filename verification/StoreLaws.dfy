/** What the stores promise their callers, in the fields of tapes, filters and names. */
module StoreLaws {
  import opened Options
  import opened Strings
  import opened Tapes
  import opened KeyOrder
  import opened StoreSpec
  import opened StoreRefinement

  // ----- listing -----

  /** The tape has the filter's route, where one is set, and its method, where one is set. */
  predicate Wanted(f: Filter, t: Tape) { (f.route != "" ==> t.route == f.route) && (f.verb != "" ==> t.verb == f.verb) }

  lemma AcceptsIsWanted(f: Filter, t: Tape)
    ensures Accepts(f, t) <==> Wanted(f, t)
  {
  }

  /** A tape file of the directory holds the tape. */
  ghost predicate InFile(d: Dir, t: Tape) { exists n :: n in d && d[n] == Good(t) && |n| >= 5 && n[|n| - 5..] == ".json" }

  ghost predicate InMap(m: Memory, t: Tape) { exists id :: id in m && m[id] == t }

  lemma FileListed(d: Dir, f: Filter, t: Tape)
    ensures t in ListOf(d, f) <==> InFile(d, t) && Wanted(f, t)
  {
    AcceptsIsWanted(f, t);
    hide Accepts, Wanted;
    if t in ListOf(d, f) {
      var n :| n in d && IsTapeFile(n) && d[n].Good? && Accepts(f, d[n].tape) && d[n].tape == t;
      assert d[n] == Good(t);
    }
    if InFile(d, t) && Accepts(f, t) {
      var n :| n in d && d[n] == Good(t) && |n| >= 5 && n[|n| - 5..] == ".json";
      assert IsTapeFile(n);
    }
  }

  lemma ListingIsListOf(d: Dir, f: Filter, t: Tape)
    ensures t in Listing(d, SortedKeys(d.Keys), f) <==> t in ListOf(d, f)
  {
    ListingMembers(d, SortedKeys(d.Keys), f);
    hide Accepts, IsTapeFile, Listing;
  }

  /** The file store lists exactly the tapes in its files that have the filter's route,
      where one is set, and its method, where one is set: as an answer, and file by file. */
  lemma FilesListed(d: Dir, f: Filter)
    ensures FileStep(d, List(f)).1.Listed?
    ensures forall t :: t in FileStep(d, List(f)).1.tapes <==> InFile(d, t) && Wanted(f, t)
    ensures forall t :: t in Listing(d, SortedKeys(d.Keys), f) <==> InFile(d, t) && Wanted(f, t)
  {
    hide ListOf, Listing, InFile, Wanted;
    forall t ensures (t in ListOf(d, f) <==> InFile(d, t) && Wanted(f, t)) && (t in Listing(d, SortedKeys(d.Keys), f) <==> t in ListOf(d, f)) {
      FileListed(d, f, t);
      ListingIsListOf(d, f, t);
    }
  }

  /** So does the memory store with the tapes of its map. */
  lemma MapListed(m: Memory, f: Filter)
    ensures MemoryStep(m, List(f)).1.Listed?
    ensures forall t :: t in MemoryStep(m, List(f)).1.tapes <==> InMap(m, t) && Wanted(f, t)
  {
    forall t ensures t in MemoryList(m, f) <==> InMap(m, t) && Wanted(f, t) {
      AcceptsIsWanted(f, t);
      hide Accepts, Wanted;
    }
    hide InMap, Wanted;
  }

  // ----- reading what was written -----

  /** The tape last saved under the ID and not deleted since. */
  function LastWritten(ops: seq<Op>, id: string): Option<Tape> {
    if ops == [] then None
    else
      match ops[|ops| - 1]
      case Save(tape, _, _) => if tape.id == id then Some(tape) else LastWritten(ops[..|ops| - 1], id)
      case Delete(i) => if i == id then None else LastWritten(ops[..|ops| - 1], id)
      case _ => LastWritten(ops[..|ops| - 1], id)
  }

  lemma {:induction false} MemoryAfterMore(m: Memory, ops: seq<Op>, op: Op)
    ensures MemoryAfter(m, ops + [op]) == MemoryStep(MemoryAfter(m, ops), op).0
    decreases |ops|
  {
    var more := ops + [op];
    if ops == [] {
      assert more == [op] && more[1..] == [];
    } else {
      assert more[0] == ops[0] && more[1..] == ops[1..] + [op];
      MemoryAfterMore(MemoryStep(m, ops[0]).0, ops[1..], op);
    }
  }

  lemma {:induction false} MemoryHolds(ops: seq<Op>, id: string)
    ensures var m := MemoryAfter(map[], ops);
      LastWritten(ops, id) == (if id in m then Some(m[id]) else None)
    decreases |ops|
  {
    if ops != [] {
      var n := |ops| - 1;
      assert ops == ops[..n] + [ops[n]];
      MemoryAfterMore(map[], ops[..n], ops[n]);
      MemoryHolds(ops[..n], id);
    }
  }

  ghost predicate Written(ops: seq<Op>, t: Tape) { exists i :: LastWritten(ops, i) == Some(t) }

  lemma InMapIsWritten(ops: seq<Op>, t: Tape)
    ensures InMap(MemoryAfter(map[], ops), t) <==> Written(ops, t)
  {
    hide MemoryAfter, LastWritten;
    var m := MemoryAfter(map[], ops);
    if InMap(m, t) {
      var i :| i in m && m[i] == t;
      MemoryHolds(ops, i);
    }
    if i :| LastWritten(ops, i) == Some(t) { MemoryHolds(ops, i); }
  }

  /** After any operations the memory store answers from what was last written: Load gives
      it, Delete finds it, and List shows it. */
  lemma AnswersAreLastWritten(ops: seq<Op>, id: string, f: Filter)
    ensures var m := MemoryAfter(map[], ops);
      MemoryStep(m, Load(id)).1 == (match LastWritten(ops, id) case None => NotFound case Some(t) => Loaded(t)) &&
      MemoryStep(m, Delete(id)).1 == (if LastWritten(ops, id).None? then NotFound else Deleted)
    ensures forall t :: t in MemoryStep(MemoryAfter(map[], ops), List(f)).1.tapes <==> Written(ops, t) && Wanted(f, t)
  {
    MemoryHolds(ops, id);
    MapListed(MemoryAfter(map[], ops), f);
    hide MemoryAfter, LastWritten, InMap, Wanted, MemoryList, Written;
    forall t ensures InMap(MemoryAfter(map[], ops), t) <==> Written(ops, t) { InMapIsWritten(ops, t); }
  }

  // ----- names -----

  /** An ID is refused if and only if it is empty, a dot or two, or has a separator in it. */
  lemma RefusedIds(d: Dir, op: Op)
    ensures FileStep(d, op).1 == InvalidId <==>
      !op.List? && var id := OpId(op).value; id == "" || id == "." || id == ".." || '/' in id || '\\' in id
  {
    hide Stem, FirstAvailable, SortedKeys;
  }

  predicate Slashes(s: string) { forall i :: 0 <= i < |s| ==> s[i] == '/' }

  lemma {:induction false} StripTail(path: string, tail: string)
    requires Slashes(tail) && path != "" && path[|path| - 1] != '/'
    ensures StripSlashes(path + tail) == path
    decreases |tail|
  {
    var s := path + tail;
    if tail == "" {
      assert s == path;
    } else {
      assert s[..|s| - 1] == path + tail[..|tail| - 1];
      StripTail(path, tail[..|tail| - 1]);
    }
  }

  lemma {:induction false} StripAll(tail: string)
    requires Slashes(tail)
    ensures StripSlashes(tail) == ""
    decreases |tail|
  {
    if tail != "" { StripAll(tail[..|tail| - 1]); }
  }

  lemma {:induction false} LastOf(dir: string, name: string)
    requires '/' !in name && (dir == "" || dir[|dir| - 1] == '/')
    ensures AfterLastSlash(dir + name) == name
    decreases |name|
  {
    var s := dir + name;
    if name == "" {
      assert s == dir;
    } else {
      var n := |name| - 1;
      assert s[|s| - 1] == name[n] && name[n] in name && s[..|s| - 1] == dir + name[..n];
      LastOf(dir, name[..n]);
      assert name == name[..n] + [name[n]];
    }
  }

  /** The base of a path is what stands behind the last slash that has something behind
      it; of slashes alone it is one slash, and of nothing a dot. */
  lemma BaseIsLastElement(dir: string, name: string, tail: string)
    requires '/' !in name && (dir == "" || dir[|dir| - 1] == '/') && Slashes(tail)
    ensures name != "" ==> Base(dir + name + tail) == name
    ensures name == "" && dir == "" && tail != "" ==> Base(tail) == "/"
    ensures Base("") == "."
  {
    if name != "" {
      var path := dir + name;
      assert path[|path| - 1] == name[|name| - 1] && name[|name| - 1] in name;
      StripTail(path, tail);
      LastOf(dir, name);
    }
    StripAll(tail);
    assert AfterLastSlash("") == "";
  }

  /** The names tried for a stem, in order. */
  function Tried(stem: string, k: nat): string {
    if k == 1 then stem + ".json" else stem + "_" + Decimal(k) + ".json"
  }

  predicate Foreign(d: Dir, n: string, id: string) { n in d && !(d[n].Good? && d[n].tape.id == id) }

  lemma TriedIsCandidate(stem: string, k: nat)
    requires k >= 1 && stem != "" && '/' !in stem
    ensures Tried(stem, k) == Candidate(stem, k) == Entry(Candidate(stem, k))
  {
    CandidateTail(stem, k);
    assert stem[0] in stem;
  }

  /** Save writes to the first of stem.json, stem_2.json, ..., stem_99.json that is free or
      the tape's own, and gives up when none is. */
  lemma SaveTakesFirstFreeName(d: Dir, tape: Tape, strategy: FilenameStrategy, stem: string, k: nat)
    requires ValidId(tape.id) && stem == Stem(strategy, tape) && stem != "/"
    requires 1 <= k <= 100 && forall j :: 1 <= j < k ==> Foreign(d, Tried(stem, j), tape.id)
    requires k <= 99 ==> !Foreign(d, Tried(stem, k), tape.id)
    ensures var r := SaveIn(d, tape, strategy, Works);
      if k == 100 then r == (d, Collision)
      else r.1 == Saved && Tried(stem, k) in r.0 && r.0[Tried(stem, k)] == Good(tape)
  {
    StemShape(strategy, tape);
    forall j: nat | 1 <= j <= 99 ensures Available(d, Candidate(stem, j), tape.id) <==> !Foreign(d, Tried(stem, j), tape.id) {
      TriedIsCandidate(stem, j);
    }
    if k <= 99 { TriedIsCandidate(stem, k); }
    hide Stem, Candidate, Tried, Foreign, Available, SortedKeys, FirstHolder;
    FirstFree(d, stem, tape.id, k);
  }

  lemma FirstFree(d: Dir, stem: string, id: string, k: nat)
    requires 1 <= k <= 100 && forall j: nat :: 1 <= j < k ==> !Available(d, Candidate(stem, j), id)
    requires k <= 99 ==> Available(d, Candidate(stem, k), id)
    ensures FirstAvailable(d, stem, id, 1) == if k == 100 then None else Some(Candidate(stem, k))
  {
    hide Available, Candidate;
  }

  /** The stem is the strategy's base name, or the ID where that is no name. */
  lemma StemIs(strategy: FilenameStrategy, tape: Tape)
    ensures Stem(strategy, tape) ==
      if Base(strategy(tape)) in {".", ".."} then tape.id else Base(strategy(tape))
  {
  }
}
