/** The file store behaves as the map, wherever it does not refuse. */
module StoreRefinement {
  import opened Options
  import opened Strings
  import opened Tapes
  import opened KeyOrder
  import opened StoreSpec

  ghost predicate UniqueIds(d: Dir) {
    forall m, n, id :: Holds(d, m, id) && Holds(d, n, id) ==> m == n
  }

  /** File names have no separator, and no two tape files hold one ID. */
  ghost predicate Wellformed(d: Dir) {
    UniqueIds(d) && forall n :: n in d ==> '/' !in n
  }

  ghost function Ids(d: Dir): set<string> {
    set n | n in d && IsTapeFile(n) && d[n].Good? :: d[n].tape.id
  }

  /** The map a directory stands for. */
  ghost function Abs(d: Dir): Memory {
    map id | id in Ids(d) && Find(d, id, None).Some? :: d[Find(d, id, None).value].tape
  }

  lemma AbsAt(d: Dir, n: string, id: string)
    requires UniqueIds(d) && Holds(d, n, id)
    ensures id in Abs(d) && Abs(d)[id] == d[n].tape
  {
    assert d[n].tape.id in Ids(d);
  }

  lemma AbsHas(d: Dir, id: string) returns (n: string)
    requires id in Abs(d)
    ensures Holds(d, n, id)
  {
    n := Find(d, id, None).value;
  }

  /** A map is the directory's if the tape files spell it out. */
  lemma AbsIs(d: Dir, m: Memory)
    requires UniqueIds(d)
    requires forall n, id :: Holds(d, n, id) ==> id in m && m[id] == d[n].tape
    requires forall id :: id in m ==> exists n :: Holds(d, n, id)
    ensures Abs(d) == m
  {
    forall id | id in Abs(d) ensures id in m && m[id] == Abs(d)[id] {
      var n := AbsHas(d, id);
      AbsAt(d, n, id);
    }
    forall id | id in m ensures id in Abs(d) {
      var n :| Holds(d, n, id);
      AbsAt(d, n, id);
    }
  }

  /** Removing the file that holds an ID removes the ID, and nothing else. */
  lemma RemovalIsDeletion(d: Dir, n: string, id: string)
    requires Wellformed(d) && Holds(d, n, id)
    ensures Wellformed(d - {n}) && Abs(d - {n}) == Abs(d) - {id}
  {
    var d' := d - {n};
    hide Abs, IsTapeFile;
    assert forall m, i :: Holds(d', m, i) <==> Holds(d, m, i) && m != n;
    forall m, i | Holds(d', m, i) ensures i in Abs(d) - {id} && (Abs(d) - {id})[i] == d'[m].tape {
      AbsAt(d, m, i);
    }
    forall i | i in Abs(d) - {id} ensures exists m :: Holds(d', m, i) {
      var m := AbsHas(d, i);
      assert Holds(d', m, i);
    }
    AbsIs(d', Abs(d) - {id});
  }

  /** No other ID's file is at `n`, and no other file holds the ID. */
  ghost predicate ReadyFor(d: Dir, n: string, id: string) {
    Wellformed(d) && IsTapeFile(n) && '/' !in n && (n in d ==> Holds(d, n, id)) && forall m :: Holds(d, m, id) ==> m == n
  }

  lemma WriteIsUpdate(d: Dir, n: string, tape: Tape)
    requires ReadyFor(d, n, tape.id)
    ensures var d' := d[n := Good(tape)]; Wellformed(d') && Abs(d') == Abs(d)[tape.id := tape]
  {
    var d' := d[n := Good(tape)];
    var m' := Abs(d)[tape.id := tape];
    assert forall m, i :: Holds(d', m, i) <==> if m == n then i == tape.id else Holds(d, m, i);
    forall m, i | Holds(d', m, i) ensures i in m' && m'[i] == d'[m].tape {
      if m != n { AbsAt(d, m, i); }
    }
    forall i | i in m' ensures exists m :: Holds(d', m, i) {
      if i == tape.id {
        assert Holds(d', n, i);
      } else {
        var m := AbsHas(d, i);
        assert Holds(d', m, i);
      }
    }
    AbsIs(d', m');
  }

  // ----- save -----

  /** A stem is free of separators, except that an all-slash stem stays one slash. */
  lemma StemShape(strategy: FilenameStrategy, tape: Tape)
    requires ValidId(tape.id)
    ensures var stem := Stem(strategy, tape); stem == "/" || (stem != "" && '/' !in stem)
  {
  }

  predicate SlashFree(s: string) { forall i :: 0 <= i < |s| ==> s[i] != '/' }

  lemma SlashFreeName(stem: string, k: nat)
    requires SlashFree(stem)
    ensures SlashFree(stem + ".json") && SlashFree(stem + "_" + Decimal(k) + ".json")
  {
    assert SlashFree(Decimal(k)) by { assert forall i :: 0 <= i < |Decimal(k)| ==> Decimal(k)[i] in Decimal(k); }
    assert SlashFree(".json") && SlashFree("_");
    hide SlashFree;
  }

  /** A name less its first character. */
  lemma CandidateTail(stem: string, k: nat)
    requires stem != ""
    ensures Candidate(stem, k)[0] == stem[0]
    ensures Candidate(stem, k)[1..] == if k <= 1 then stem[1..] + ".json" else stem[1..] + "_" + Decimal(k) + ".json"
  {
    if k > 1 {
      assert (stem + "_")[1..] == stem[1..] + "_";
      assert (stem + "_" + Decimal(k))[1..] == stem[1..] + "_" + Decimal(k);
    }
  }

  lemma CandidateShape(stem: string, k: nat)
    requires stem == "/" || (stem != "" && '/' !in stem)
    ensures IsTapeFile(Entry(Candidate(stem, k))) && '/' !in Entry(Candidate(stem, k))
    ensures stem != "/" ==> Entry(Candidate(stem, k)) == Candidate(stem, k)
    ensures stem == "/" ==> Candidate(stem, k)[0] == '/'
  {
    CandidateTail(stem, k);
    if stem == "/" {
      SlashFreeName("", k);
      assert stem[1..] == "";
      assert SlashFree(Candidate(stem, k)[1..]);
    } else {
      SlashFreeName(stem, k);
      assert SlashFree(Candidate(stem, k));
    }
  }

  ghost predicate AllTaken(d: Dir, tape: Tape, strategy: FilenameStrategy) {
    forall k: nat :: 1 <= k <= MAX_COLLISION_COUNTER ==> !Available(d, Candidate(Stem(strategy, tape), k), tape.id)
  }

  /** What is known of the name a save writes to. */
  lemma TargetShape(d: Dir, tape: Tape, strategy: FilenameStrategy, target: string)
    requires ValidId(tape.id) && Wellformed(d)
    requires FirstAvailable(d, Stem(strategy, tape), tape.id, 1) == Some(target)
    ensures IsTapeFile(Entry(target)) && '/' !in Entry(target) && Available(d, target, tape.id)
    ensures forall m :: Holds(d, m, tape.id) && m == target ==> m == Entry(target)
  {
    var stem := Stem(strategy, tape);
    StemShape(strategy, tape);
    var k: nat :| 1 <= k <= MAX_COLLISION_COUNTER && target == Candidate(stem, k) && Available(d, target, tape.id);
    CandidateShape(stem, k);
  }

  /** The directory once the file under the tape's former name is gone. */
  lemma AfterCleaning(d: Dir, tape: Tape, target: string, found: Option<string>)
    requires Wellformed(d) && IsTapeFile(Entry(target)) && '/' !in Entry(target) && Available(d, target, tape.id)
    requires forall m :: Holds(d, m, tape.id) && m == target ==> m == Entry(target)
    requires found == Find(d, tape.id, Some(target))
    ensures var c := Without(d, found);
      ReadyFor(c, Entry(target), tape.id) && Abs(c) == (if found.Some? then Abs(d) - {tape.id} else Abs(d))
  {
    if found.Some? {
      RemovalIsDeletion(d, found.value, tape.id);
      forall m ensures !Holds(Without(d, found), m, tape.id) {
        assert Holds(d, m, tape.id) ==> m == found.value;
      }
    }
  }

  lemma SomeTarget(d: Dir, tape: Tape, strategy: FilenameStrategy) returns (target: string)
    requires ValidId(tape.id) && !AllTaken(d, tape, strategy)
    ensures FirstAvailable(d, Stem(strategy, tape), tape.id, 1) == Some(target)
    ensures var c := Without(d, Find(d, tape.id, Some(target)));
      SaveIn(d, tape, strategy, Works) == (c[Entry(target) := Good(tape)], Saved)
  {
    hide Stem, Entry, Candidate, Available, Find;
    target := FirstAvailable(d, Stem(strategy, tape), tape.id, 1).value;
  }

  /** What one Save does to the map. */
  lemma SaveRefines(d: Dir, tape: Tape, strategy: FilenameStrategy)
    requires Wellformed(d) && ValidId(tape.id) && !AllTaken(d, tape, strategy)
    ensures var r := SaveIn(d, tape, strategy, Works);
      r.1 == Saved && Wellformed(r.0) && Abs(r.0) == Abs(d)[tape.id := tape]
  {
    hide SaveIn, Wellformed, Abs, ReadyFor, Entry, Without, Stem, FirstAvailable, AllTaken, ValidId, Find;
    var target := SomeTarget(d, tape, strategy);
    TargetShape(d, tape, strategy, target);
    var found := Find(d, tape.id, Some(target));
    AfterCleaning(d, tape, target, found);
    WriteIsUpdate(Without(d, found), Entry(target), tape);
  }

  /** A Save that fails on writing has already removed the file under the former
      name: it loses the tape exactly when it was stored under another name than
      the one now chosen. */
  lemma FailedWriteLosesRenamedTape(d: Dir, tape: Tape, strategy: FilenameStrategy)
    requires Wellformed(d) && ValidId(tape.id) && !AllTaken(d, tape, strategy)
    ensures var r := SaveIn(d, tape, strategy, WriteFails);
      var target := FirstAvailable(d, Stem(strategy, tape), tape.id, 1).value;
      r.1 == IoError && Wellformed(r.0) &&
      Abs(r.0) == (if exists n :: Holds(d, n, tape.id) && n != target then Abs(d) - {tape.id} else Abs(d))
  {
    var target := FirstAvailable(d, Stem(strategy, tape), tape.id, 1).value;
    TargetShape(d, tape, strategy, target);
    var found := Find(d, tape.id, Some(target));
    AfterCleaning(d, tape, target, found);
    if found.Some? { assert Holds(d, found.value, tape.id); }
  }

  // ----- load, list, delete -----

  lemma JsonName(id: string)
    requires ValidId(id)
    ensures IsTapeFile(id + ".json") && '/' !in id + ".json"
  {
  }

  lemma LoadRefines(d: Dir, id: string)
    requires Wellformed(d) && ValidId(id)
    ensures LoadFrom(d, id) ==
      if id + ".json" in d && d[id + ".json"].Corrupt? then CorruptFile
      else MemoryStep(Abs(d), Load(id)).1
  {
    JsonName(id);
    var fast := id + ".json";
    if Holds(d, fast, id) {
      AbsAt(d, fast, id);
    } else if Find(d, id, None).Some? {
      AbsAt(d, Find(d, id, None).value, id);
    } else if id in Abs(d) {
      var n := AbsHas(d, id);
    }
  }

  lemma ListRefines(d: Dir, f: Filter)
    requires Wellformed(d)
    ensures ListOf(d, f) == MemoryList(Abs(d), f)
  {
    forall t | t in ListOf(d, f) ensures t in MemoryList(Abs(d), f) {
      var n :| n in d && IsTapeFile(n) && d[n].Good? && Accepts(f, d[n].tape) && d[n].tape == t;
      AbsAt(d, n, t.id);
    }
    forall t | t in MemoryList(Abs(d), f) ensures t in ListOf(d, f) {
      var id :| id in Abs(d) && Accepts(f, Abs(d)[id]) && Abs(d)[id] == t;
      var n := AbsHas(d, id);
      AbsAt(d, n, id);
    }
  }

  lemma {:induction false} ListingMembers(d: Dir, names: seq<string>, f: Filter)
    ensures forall t :: t in Listing(d, names, f) <==>
      exists n :: n in names && n in d && IsTapeFile(n) && d[n].Good? && Accepts(f, d[n].tape) && d[n].tape == t
  {
    hide Accepts, IsTapeFile;
    if names != [] {
      ListingMembers(d, names[1..], f);
      assert forall n :: n in names <==> n == names[0] || n in names[1..];
    }
  }

  /** The listing is exactly the accepted tapes of the map, each once. */
  lemma ListingIsExact(d: Dir, f: Filter)
    requires Wellformed(d)
    ensures var tapes := Listing(d, SortedKeys(d.Keys), f);
      (set t | t in tapes) == MemoryList(Abs(d), f) && DistinctIds(tapes)
  {
    hide Accepts, IsTapeFile;
    ListingMembers(d, SortedKeys(d.Keys), f);
    assert ListOf(d, f) == (set t | t in Listing(d, SortedKeys(d.Keys), f));
    ListRefines(d, f);
    NoRepeats(d, SortedKeys(d.Keys), f);
  }

  predicate DistinctIds(tapes: seq<Tape>) {
    forall i, j :: 0 <= i < j < |tapes| ==> tapes[i].id != tapes[j].id
  }

  lemma {:induction false} NoRepeats(d: Dir, names: seq<string>, f: Filter)
    requires UniqueIds(d) && Sorted(names)
    ensures DistinctIds(Listing(d, names, f))
  {
    hide Accepts, IsTapeFile;
    if names != [] {
      var n, rest := names[0], Listing(d, names[1..], f);
      NoRepeats(d, names[1..], f);
      if ListingOf(d, n, f) != [] {
        forall t | t in rest ensures t.id != d[n].tape.id { HeadIsNew(d, names, f, t); }
        assert Listing(d, names, f) == [d[n].tape] + rest;
      } else {
        assert Listing(d, names, f) == rest;
      }
    }
  }

  lemma HeadIsNew(d: Dir, names: seq<string>, f: Filter, t: Tape)
    requires UniqueIds(d) && Sorted(names) && names != [] && ListingOf(d, names[0], f) != []
    requires t in Listing(d, names[1..], f)
    ensures t.id != d[names[0]].tape.id
  {
    ListingMembers(d, names[1..], f);
    var m :| m in names[1..] && m in d && IsTapeFile(m) && d[m].Good? && d[m].tape == t;
    var k :| 0 < k < |names| && names[k] == m;
    LessTotal(names[0], m);
    assert Holds(d, names[0], d[names[0]].tape.id) && Holds(d, m, t.id);
  }

  lemma DeleteRefines(d: Dir, id: string)
    requires Wellformed(d) && ValidId(id)
    ensures var r := DeleteFrom(d, id);
      Wellformed(r.0) && (Abs(r.0), r.1) == MemoryStep(Abs(d), Delete(id))
  {
    JsonName(id);
    var fast := id + ".json";
    if Holds(d, fast, id) {
      AbsAt(d, fast, id);
      RemovalIsDeletion(d, fast, id);
    } else if Find(d, id, None).Some? {
      AbsAt(d, Find(d, id, None).value, id);
      RemovalIsDeletion(d, Find(d, id, None).value, id);
    } else if id in Abs(d) {
      var n := AbsHas(d, id);
    }
  }

  // ----- a failed write -----

  /** One tape saved under one strategy into an empty directory. */
  lemma FirstSave(tape: Tape, strategy: FilenameStrategy) returns (n: string)
    requires ValidId(tape.id)
    ensures n == Entry(Candidate(Stem(strategy, tape), 1))
    ensures SaveIn(map[], tape, strategy, Works) == (map[n := Good(tape)], Saved)
    ensures IsTapeFile(n) && '/' !in n && Wellformed(map[n := Good(tape)])
  {
    var d: Dir := map[];
    var stem := Stem(strategy, tape);
    StemShape(strategy, tape);
    CandidateShape(stem, 1);
    hide Stem, Candidate, Entry, SortedKeys, FirstHolder, IsTapeFile;
    n := Entry(Candidate(stem, 1));
    assert Available(d, Candidate(stem, 1), tape.id);
    assert FirstAvailable(d, stem, tape.id, 1) == Some(Candidate(stem, 1));
    assert forall m :: !Holds(d, m, tape.id);
  }

  /** A tape saved under one strategy and then, failing on the write, under another is
      gone if and only if the two strategies name it differently or by the separator. */
  lemma RenamedTapeIsLostIff(tape: Tape, one: FilenameStrategy, other: FilenameStrategy)
    requires ValidId(tape.id)
    ensures var d := SaveIn(map[], tape, one, Works).0;
      var d' := SaveIn(d, tape, other, WriteFails).0;
      LoadFrom(d', tape.id) == NotFound <==> Stem(one, tape) != Stem(other, tape) || Stem(one, tape) == "/"
  {
    var n := FirstSave(tape, one);
    var d := map[n := Good(tape)];
    var target := Candidate(Stem(other, tape), 1);
    FirstNames(d, n, tape, one, other);
    FailedWriteLosesRenamedTape(d, tape, other);
    FailedSaveShrinks(d, tape, other);
    OnlyHolder(d, n, tape);
    hide *;
    var d' := SaveIn(d, tape, other, WriteFails).0;
    assert Holds(d, n, tape.id) && ((exists m :: Holds(d, m, tape.id) && m != target) <==> n != target);
    LoadRefines(d', tape.id);
    LoadMisses(Abs(d'), tape.id);
  }

  lemma OnlyHolder(d: Dir, n: string, tape: Tape)
    requires d == map[n := Good(tape)] && IsTapeFile(n) && Wellformed(d)
    ensures forall m :: Holds(d, m, tape.id) <==> m == n
    ensures tape.id in Abs(d)
  {
    hide IsTapeFile;
    assert Holds(d, n, tape.id);
    AbsAt(d, n, tape.id);
  }

  lemma FailedSaveShrinks(d: Dir, tape: Tape, strategy: FilenameStrategy)
    ensures var d' := SaveIn(d, tape, strategy, WriteFails).0; forall m :: m in d' ==> m in d && d'[m] == d[m]
  {
    hide FirstAvailable, Stem, SortedKeys;
  }

  lemma LoadMisses(m: Memory, id: string)
    ensures MemoryStep(m, Load(id)).1 == NotFound <==> id !in m
  {
  }

  lemma FirstNames(d: Dir, n: string, tape: Tape, one: FilenameStrategy, other: FilenameStrategy)
    requires ValidId(tape.id) && n == Entry(Candidate(Stem(one, tape), 1)) && d == map[n := Good(tape)]
    ensures !AllTaken(d, tape, other)
    ensures FirstAvailable(d, Stem(other, tape), tape.id, 1) == Some(Candidate(Stem(other, tape), 1))
    ensures n == Candidate(Stem(other, tape), 1) <==> Stem(one, tape) == Stem(other, tape) && Stem(one, tape) != "/"
  {
    StemShape(one, tape);
    StemShape(other, tape);
    SameFirstName(Stem(one, tape), Stem(other, tape));
    hide Stem, Candidate, Entry;
    assert Available(d, Candidate(Stem(other, tape), 1), tape.id);
  }

  lemma SameFirstName(a: string, b: string)
    requires a == "/" || (a != "" && '/' !in a)
    requires b == "/" || (b != "" && '/' !in b)
    ensures Entry(Candidate(a, 1)) == Candidate(b, 1) <==> a == b && a != "/"
  {
    CandidateTail(a, 1);
    var ca, cb := Candidate(a, 1), Candidate(b, 1);
    assert ca[..|a|] == a && cb[..|b|] == b;
    if a == "/" {
      assert Entry(ca) == ".json" && |cb| > 5;
    }
  }

  // ----- the statements -----

  /** When the file store answers otherwise than the map. */
  ghost predicate Refused(d: Dir, op: Op) {
    match op
    case Save(tape, strategy, io) => !ValidId(tape.id) || !io.Works? || AllTaken(d, tape, strategy)
    case Load(id) => !ValidId(id) || (id + ".json" in d && d[id + ".json"].Corrupt?)
    case List(_) => false
    case Delete(id) => !ValidId(id)
  }

  /** One operation: the directory keeps one file per ID, and the store answers as
      the map and stays equal to it exactly when it does not refuse. */
  lemma StepRefines(d: Dir, op: Op)
    requires Wellformed(d)
    ensures Wellformed(FileStep(d, op).0)
    ensures FileStep(d, op).1 == MemoryStep(Abs(d), op).1 <==> !Refused(d, op)
    ensures !Refused(d, op) ==> Abs(FileStep(d, op).0) == MemoryStep(Abs(d), op).0
    ensures Refused(d, op) && !(op.Save? && op.io.WriteFails?) ==> FileStep(d, op).0 == d
  {
    hide Abs, Wellformed, Available, SortedKeys;
    match op
    case Save(tape, strategy, io) =>
      if ValidId(tape.id) && !AllTaken(d, tape, strategy) {
        SaveRefines(d, tape, strategy);
        FailedWriteLosesRenamedTape(d, tape, strategy);
      }
    case Load(id) => if ValidId(id) { LoadRefines(d, id); }
    case List(f) => ListRefines(d, f);
    case Delete(id) => if ValidId(id) { DeleteRefines(d, id); }
  }

  /** The ID an operation is about. */
  function OpId(op: Op): Option<string> {
    match op
    case Save(tape, _, _) => Some(tape.id)
    case Load(id) => Some(id)
    case List(_) => None
    case Delete(id) => Some(id)
  }

  /** Every file that does not hold the operation's own ID stays as it was: corrupt
      files, foreign files and the tapes of other IDs. */
  lemma OthersAreUntouched(d: Dir, op: Op, n: string)
    requires Wellformed(d) && n in d && (OpId(op).Some? ==> !Holds(d, n, OpId(op).value))
    ensures var d' := FileStep(d, op).0; n in d' && d'[n] == d[n]
  {
    hide FirstAvailable, SortedKeys;
    if op.Save? && ValidId(op.tape.id) && !AllTaken(d, op.tape, op.strategy) {
      var target := FirstAvailable(d, Stem(op.strategy, op.tape), op.tape.id, 1).value;
      TargetShape(d, op.tape, op.strategy, target);
    } else if op.Delete? && ValidId(op.id) {
      JsonName(op.id);
    }
  }

  ghost function FileAnswers(d: Dir, ops: seq<Op>): (r: seq<Answer>)
    decreases |ops|
  {
    if ops == [] then [] else [FileStep(d, ops[0]).1] + FileAnswers(FileStep(d, ops[0]).0, ops[1..])
  }

  function MemoryAnswers(m: Memory, ops: seq<Op>): (r: seq<Answer>)
    decreases |ops|
  {
    if ops == [] then [] else [MemoryStep(m, ops[0]).1] + MemoryAnswers(MemoryStep(m, ops[0]).0, ops[1..])
  }

  ghost function DirAfter(d: Dir, ops: seq<Op>): Dir
    decreases |ops|
  {
    if ops == [] then d else DirAfter(FileStep(d, ops[0]).0, ops[1..])
  }

  function MemoryAfter(m: Memory, ops: seq<Op>): Memory
    decreases |ops|
  {
    if ops == [] then m else MemoryAfter(MemoryStep(m, ops[0]).0, ops[1..])
  }

  ghost predicate NeverRefused(d: Dir, ops: seq<Op>)
    decreases |ops|
  {
    ops == [] || (!Refused(d, ops[0]) && NeverRefused(FileStep(d, ops[0]).0, ops[1..]))
  }

  /** Over any sequence of operations, under any strategies, the file store keeps one
      file per ID, and it is indistinguishable from the map exactly when it never
      refuses. */
  lemma {:induction false} FileStoreRefinesMemoryStore(d: Dir, ops: seq<Op>)
    requires Wellformed(d)
    ensures Wellformed(DirAfter(d, ops))
    ensures FileAnswers(d, ops) == MemoryAnswers(Abs(d), ops) <==> NeverRefused(d, ops)
    ensures NeverRefused(d, ops) ==> Abs(DirAfter(d, ops)) == MemoryAfter(Abs(d), ops)
    decreases |ops|
  {
    if ops != [] {
      hide FileStep, MemoryStep, Refused, Wellformed, Abs;
      StepRefines(d, ops[0]);
      FileStoreRefinesMemoryStore(FileStep(d, ops[0]).0, ops[1..]);
      HeadAndTail(FileStep(d, ops[0]).1, FileAnswers(FileStep(d, ops[0]).0, ops[1..]),
        MemoryStep(Abs(d), ops[0]).1, MemoryAnswers(MemoryStep(Abs(d), ops[0]).0, ops[1..]));
    }
  }

  lemma HeadAndTail<T>(a: T, s: seq<T>, b: T, t: seq<T>)
    ensures [a] + s == [b] + t <==> a == b && s == t
  {
    assert ([a] + s)[1..] == s && ([b] + t)[1..] == t;
    assert ([a] + s)[0] == a && ([b] + t)[0] == b;
  }

  // ----- when names run out -----

  lemma NumeralOfName(stem: string, k: nat)
    ensures var n := stem + "_" + Decimal(k) + ".json"; |n| > |stem| + 6 && n[|stem| + 1..|n| - 5] == Decimal(k)
  {
    assert |Decimal(k)| >= 1;
  }

  lemma CandidatesDiffer(stem: string, i: nat, j: nat)
    requires stem == "/" || (stem != "" && '/' !in stem)
    requires 1 <= i < j
    ensures Entry(Candidate(stem, i)) != Entry(Candidate(stem, j))
  {
    CandidateShape(stem, i);
    CandidateShape(stem, j);
    var a, b := Candidate(stem, i), Candidate(stem, j);
    NumeralOfName(stem, i);
    NumeralOfName(stem, j);
    ValueOfDecimal(i);
    ValueOfDecimal(j);
    assert a != b;
    assert stem == "/" ==> a == "/" + Entry(a) && b == "/" + Entry(b);
  }

  function TakenNames(stem: string, k: nat): (s: set<string>)
  {
    set i: nat | 1 <= i <= k :: Entry(Candidate(stem, i))
  }

  lemma {:induction false} TakenNamesCount(stem: string, k: nat)
    requires stem == "/" || (stem != "" && '/' !in stem)
    ensures |TakenNames(stem, k)| == k
  {
    if k > 0 {
      hide Candidate, Entry;
      var last := Entry(Candidate(stem, k));
      assert TakenNames(stem, k) == TakenNames(stem, k - 1) + {last};
      assert last !in TakenNames(stem, k - 1) by {
        forall i: nat | 1 <= i <= k - 1 ensures Entry(Candidate(stem, i)) != last { CandidatesDiffer(stem, i, k); }
      }
      TakenNamesCount(stem, k - 1);
    } else {
      assert TakenNames(stem, k) == {};
    }
  }

  lemma SubsetIsSmaller<T>(a: set<T>, b: set<T>)
    requires a <= b
    ensures |a| <= |b|
    decreases |a|
  {
    if a != {} {
      var x :| x in a;
      SubsetIsSmaller(a - {x}, b - {x});
    }
  }

  /** Names run out only in a directory where 99 different files other than the
      tape's own already bear the stem's names. */
  lemma CollisionNeedsNinetyNineFiles(d: Dir, tape: Tape, strategy: FilenameStrategy)
    requires Wellformed(d) && ValidId(tape.id) && SaveIn(d, tape, strategy, Works).1 == Collision
    ensures |d| >= MAX_COLLISION_COUNTER
    ensures forall k: nat :: 1 <= k <= MAX_COLLISION_COUNTER ==>
      var n := Entry(Candidate(Stem(strategy, tape), k)); n in d && !Holds(d, n, tape.id)
  {
    var stem := Stem(strategy, tape);
    StemShape(strategy, tape);
    hide Candidate, Entry, Stem, Base;
    assert FirstAvailable(d, stem, tape.id, 1) == None;
    assert forall k: nat :: 1 <= k <= MAX_COLLISION_COUNTER ==> !Available(d, Candidate(stem, k), tape.id);
    assert TakenNames(stem, MAX_COLLISION_COUNTER) <= d.Keys;
    TakenNamesCount(stem, MAX_COLLISION_COUNTER);
    SubsetIsSmaller(TakenNames(stem, MAX_COLLISION_COUNTER), d.Keys);
    assert |d.Keys| == |d|;
  }

  // ----- the default strategy -----

  const UUID_FILENAMES: FilenameStrategy := (t: Tape) => t.id

  /** A directory as the default strategy leaves it. */
  ghost predicate NamedById(d: Dir) {
    forall n :: n in d && IsTapeFile(n) ==> d[n].Good? && n == d[n].tape.id + ".json"
  }

  /** The operations of a store with the default strategy, valid IDs and working
      files. */
  ghost predicate Plain(op: Op) {
    match op
    case Save(tape, strategy, io) => strategy == UUID_FILENAMES && ValidId(tape.id) && io.Works?
    case Load(id) => ValidId(id)
    case List(_) => true
    case Delete(id) => ValidId(id)
  }

  lemma BaseOfId(id: string)
    requires ValidId(id)
    ensures Base(id) == id
  {
    assert StripSlashes(id) == id;
    NoSlashAfterLast(id);
  }

  lemma {:induction false} NoSlashAfterLast(path: string)
    requires '/' !in path
    ensures AfterLastSlash(path) == path
  {
    if path != "" { NoSlashAfterLast(path[..|path| - 1]); }
  }

  lemma PlainSave(d: Dir, tape: Tape)
    requires Wellformed(d) && NamedById(d) && ValidId(tape.id)
    ensures FirstAvailable(d, Stem(UUID_FILENAMES, tape), tape.id, 1) == Some(tape.id + ".json")
    ensures Entry(tape.id + ".json") == tape.id + ".json" && IsTapeFile(tape.id + ".json")
  {
    hide Wellformed, NamedById;
    BaseOfId(tape.id);
    JsonName(tape.id);
    assert Stem(UUID_FILENAMES, tape) == tape.id && Candidate(tape.id, 1) == tape.id + ".json";
    if tape.id + ".json" in d { IdsOfNames(d, tape.id); }
    assert Available(d, Candidate(tape.id, 1), tape.id);
  }

  lemma PlainStep(d: Dir, op: Op)
    requires Wellformed(d) && NamedById(d) && Plain(op)
    ensures !Refused(d, op) && NamedById(FileStep(d, op).0)
  {
    hide SortedKeys, Wellformed, IsTapeFile, Stem, FirstAvailable, Available, Entry, Candidate, FirstHolder;
    match op
    case Save(tape, strategy, io) => PlainSave(d, tape);
    case Load(id) => JsonName(id);
    case List(f) =>
    case Delete(id) => JsonName(id);
  }

  lemma IdsOfNames(d: Dir, id: string)
    requires NamedById(d) && ValidId(id) && id + ".json" in d
    ensures d[id + ".json"].Good? && d[id + ".json"].tape.id == id
  {
    JsonName(id);
    var n := id + ".json";
    var other := d[n].tape.id;
    assert n[..|n| - 5] == id && (other + ".json")[..|other|] == other;
  }

  /** With the default strategy, in a directory it alone has written, no operation on
      a valid ID is ever refused, so the file store is the map without conditions. */
  lemma {:induction false} DefaultStrategyNeverRefuses(d: Dir, ops: seq<Op>)
    requires Wellformed(d) && NamedById(d) && forall i :: 0 <= i < |ops| ==> Plain(ops[i])
    ensures NeverRefused(d, ops) && FileAnswers(d, ops) == MemoryAnswers(Abs(d), ops)
    decreases |ops|
  {
    FileStoreRefinesMemoryStore(d, ops);
    if ops != [] {
      hide FileStep, Refused, Wellformed, NamedById, Plain;
      PlainStep(d, ops[0]);
      StepRefines(d, ops[0]);
      DefaultStrategyNeverRefuses(FileStep(d, ops[0]).0, ops[1..]);
    }
  }
}
