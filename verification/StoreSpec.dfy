/** The store operations (store_file.go, store_memory.go) as functions: a directory
    of tape files on one side, a map from ID to tape on the other. */
module StoreSpec {
  import opened Options
  import opened Strings
  import opened Tapes
  import opened KeyOrder

  /** A file holds a tape, or bytes that do not parse. */
  datatype File = Good(tape: Tape) | Corrupt

  type Dir = map<string, File>

  type FilenameStrategy = Tape -> string

  datatype Filter = Filter(route: string, verb: string)

  /** The outcome of the file operations inside a Save. */
  datatype Io = Works | ReadFails | WriteFails

  datatype Op =
    | Save(tape: Tape, strategy: FilenameStrategy, io: Io)
    | Load(id: string)
    | List(filter: Filter)
    | Delete(id: string)

  datatype Answer =
    | Saved
    | Loaded(tape: Tape)
    | Listed(tapes: set<Tape>)
    | Deleted
    | NotFound
    | InvalidId
    | Collision
    | CorruptFile
    | IoError

  predicate Accepts(f: Filter, t: Tape) {
    (f.route == "" || t.route == f.route) && (f.verb == "" || t.verb == f.verb)
  }

  // ----- names -----

  const MAX_COLLISION_COUNTER: nat := 99

  predicate IsTapeFile(name: string) { HasSuffix(name, ".json") }

  predicate ValidId(id: string) {
    id != "" && '/' !in id && '\\' !in id && id != ".." && id != "."
  }

  function StripSlashes(path: string): string {
    if path != "" && path[|path| - 1] == '/' then StripSlashes(path[..|path| - 1]) else path
  }

  function AfterLastSlash(path: string): (r: string)
    ensures '/' !in r
  {
    if path == "" || path[|path| - 1] == '/' then "" else AfterLastSlash(path[..|path| - 1]) + [path[|path| - 1]]
  }

  /** filepath.Base. */
  function Base(path: string): string {
    if path == "" then "."
    else
      var last := AfterLastSlash(StripSlashes(path));
      if last == "" then "/" else last
  }

  function Stem(strategy: FilenameStrategy, tape: Tape): string {
    var stem := Base(strategy(tape));
    if stem == "" || stem == "." || stem == ".." then tape.id else stem
  }

  /** The k-th name tried for a stem. */
  function Candidate(stem: string, k: nat): string {
    if k <= 1 then stem + ".json" else stem + "_" + Decimal(k) + ".json"
  }

  /** The directory entry a name joined to the directory denotes: the stem "/" leaves
      a leading separator, which joining drops. */
  function Entry(name: string): string {
    if name != "" && name[0] == '/' then name[1..] else name
  }

  // ----- file operations -----

  predicate Holds(d: Dir, name: string, id: string) {
    name in d && IsTapeFile(name) && d[name].Good? && d[name].tape.id == id
  }

  /** A name is available to an ID if it is free or holds that ID's tape. */
  predicate Available(d: Dir, name: string, id: string) {
    var n := Entry(name);
    n !in d || (d[n].Good? && d[n].tape.id == id)
  }

  function FirstAvailable(d: Dir, stem: string, id: string, k: nat): (r: Option<string>)
    ensures r.None? <==> forall i :: k <= i <= MAX_COLLISION_COUNTER ==> !Available(d, Candidate(stem, i), id)
    ensures r.Some? ==>
      exists i :: k <= i <= MAX_COLLISION_COUNTER && r.value == Candidate(stem, i) && Available(d, r.value, id) &&
        forall j :: k <= j < i ==> !Available(d, Candidate(stem, j), id)
    decreases MAX_COLLISION_COUNTER + 1 - k
  {
    if k > MAX_COLLISION_COUNTER then None
    else if Available(d, Candidate(stem, k), id) then Some(Candidate(stem, k))
    else FirstAvailable(d, stem, id, k + 1)
  }

  /** The first listed file that holds the ID's tape, not counting `skip`. */
  function FirstHolder(d: Dir, names: seq<string>, id: string, skip: Option<string>): (r: Option<string>)
    ensures r.Some? ==> r.value in names && Holds(d, r.value, id) && Some(r.value) != skip
    ensures r.None? ==> forall n :: n in names && Holds(d, n, id) ==> Some(n) == skip
  {
    if names == [] then None
    else if Holds(d, names[0], id) && Some(names[0]) != skip then Some(names[0])
    else FirstHolder(d, names[1..], id, skip)
  }

  ghost function Find(d: Dir, id: string, skip: Option<string>): (r: Option<string>)
    ensures r.Some? ==> Holds(d, r.value, id) && Some(r.value) != skip
    ensures r.None? ==> forall n :: Holds(d, n, id) ==> Some(n) == skip
  {
    FirstHolder(d, SortedKeys(d.Keys), id, skip)
  }

  ghost function Without(d: Dir, name: Option<string>): Dir {
    if name.Some? then d - {name.value} else d
  }

  ghost function SaveIn(d: Dir, tape: Tape, strategy: FilenameStrategy, io: Io): (r: (Dir, Answer)) {
    if !ValidId(tape.id) then (d, InvalidId)
    else if io.ReadFails? then (d, IoError)
    else
      match FirstAvailable(d, Stem(strategy, tape), tape.id, 1)
      case None => (d, Collision)
      case Some(target) =>
        var cleaned := Without(d, Find(d, tape.id, Some(target)));
        if io.WriteFails? then (cleaned, IoError) else (cleaned[Entry(target) := Good(tape)], Saved)
  }

  ghost function LoadFrom(d: Dir, id: string): Answer {
    var fast := id + ".json";
    if !ValidId(id) then InvalidId
    else if fast in d && d[fast].Corrupt? then CorruptFile
    else if fast in d && d[fast].tape.id == id then Loaded(d[fast].tape)
    else match Find(d, id, None)
      case None => NotFound
      case Some(n) => Loaded(d[n].tape)
  }

  /** The tapes a listing yields from the named files, in that order. */
  function Listing(d: Dir, names: seq<string>, f: Filter): seq<Tape> {
    if names == [] then [] else ListingOf(d, names[0], f) + Listing(d, names[1..], f)
  }

  function ListingOf(d: Dir, n: string, f: Filter): seq<Tape> {
    if n in d && IsTapeFile(n) && d[n].Good? && Accepts(f, d[n].tape) then [d[n].tape] else []
  }

  lemma {:induction false} ListingConcat(d: Dir, a: seq<string>, b: seq<string>, f: Filter)
    ensures Listing(d, a + b, f) == Listing(d, a, f) + Listing(d, b, f)
  {
    hide ListingOf;
    if a == [] {
      assert a + b == b;
    } else {
      assert (a + b)[1..] == a[1..] + b;
      ListingConcat(d, a[1..], b, f);
    }
  }

  lemma ListingSnoc(d: Dir, names: seq<string>, i: nat, f: Filter)
    requires i < |names|
    ensures Listing(d, names[..i + 1], f) == Listing(d, names[..i], f) + ListingOf(d, names[i], f)
  {
    hide ListingOf;
    assert names[..i + 1] == names[..i] + [names[i]];
    ListingConcat(d, names[..i], [names[i]], f);
    assert [names[i]][1..] == [];
  }

  ghost function ListOf(d: Dir, f: Filter): set<Tape> {
    set n | n in d && IsTapeFile(n) && d[n].Good? && Accepts(f, d[n].tape) :: d[n].tape
  }

  ghost function DeleteFrom(d: Dir, id: string): (r: (Dir, Answer)) {
    var fast := id + ".json";
    if !ValidId(id) then (d, InvalidId)
    else if fast in d && d[fast].Good? && d[fast].tape.id == id then (d - {fast}, Deleted)
    else match Find(d, id, None)
      case None => (d, NotFound)
      case Some(n) => (d - {n}, Deleted)
  }

  ghost function FileStep(d: Dir, op: Op): (r: (Dir, Answer)) {
    match op
    case Save(tape, strategy, io) => SaveIn(d, tape, strategy, io)
    case Load(id) => (d, LoadFrom(d, id))
    case List(f) => (d, Listed(ListOf(d, f)))
    case Delete(id) => DeleteFrom(d, id)
  }

  // ----- the simple map -----

  type Memory = map<string, Tape>

  function MemoryList(m: Memory, f: Filter): set<Tape> {
    set id | id in m && Accepts(f, m[id]) :: m[id]
  }

  function MemoryStep(m: Memory, op: Op): (r: (Memory, Answer)) {
    match op
    case Save(tape, _, _) => (m[tape.id := tape], Saved)
    case Load(id) => (m, if id in m then Loaded(m[id]) else NotFound)
    case List(f) => (m, Listed(MemoryList(m, f)))
    case Delete(id) => if id in m then (m - {id}, Deleted) else (m, NotFound)
  }
}
