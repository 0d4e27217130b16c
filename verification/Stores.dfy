/** The two stores as objects: the file store with its scanning and suffix loops
    over a directory, the memory store over a map. */
module Stores {
  import opened Options
  import opened Strings
  import opened Tapes
  import opened KeyOrder
  import opened StoreSpec
  import opened StoreLaws

  class FileStore {
    var dir: Dir
    const strategy: FilenameStrategy

    constructor (dir: Dir, strategy: FilenameStrategy)
      ensures this.dir == dir && this.strategy == strategy
    {
      this.dir := dir;
      this.strategy := strategy;
    }

    method FilenameAvailableForID(name: string, id: string) returns (ok: bool)
      ensures ok == Available(dir, name, id)
    {
      var entry := Entry(name);
      if entry !in dir {
        return true;
      }
      if dir[entry].Corrupt? {
        return false; // treated as occupied
      }
      return dir[entry].tape.id == id;
    }

    /** The stem's own name, then the suffixes _2 to _99. */
    method ResolveFilename(stem: string, id: string) returns (name: Option<string>)
      ensures name == FirstAvailable(dir, stem, id, 1)
    {
      var candidate := stem + ".json";
      var ok := FilenameAvailableForID(candidate, id);
      if ok {
        return Some(candidate);
      }
      for i := 2 to MAX_COLLISION_COUNTER + 1
        invariant FirstAvailable(dir, stem, id, 1) == FirstAvailable(dir, stem, id, i)
      {
        candidate := stem + "_" + Decimal(i) + ".json";
        ok := FilenameAvailableForID(candidate, id);
        if ok {
          return Some(candidate);
        }
      }
      return None;
    }

    /** Scans the directory, in name order, for a file with the ID. */
    method Scan(id: string, skip: Option<string>) returns (found: Option<string>)
      ensures found == Find(dir, id, skip)
    {
      var names := SortKeys(dir.Keys);
      found := ScanFiles(dir, names, id, skip);
    }

    static method ScanFiles(d: Dir, names: seq<string>, id: string, skip: Option<string>) returns (found: Option<string>)
      requires forall n :: n in names ==> n in d
      ensures found == FirstHolder(d, names, id, skip)
    {
      for i := 0 to |names|
        invariant FirstHolder(d, names, id, skip) == FirstHolder(d, names[i..], id, skip)
      {
        var name := names[i];
        assert names[i..][1..] == names[i + 1..];
        if !IsTapeFile(name) || Some(name) == skip || d[name].Corrupt? {
          continue;
        }
        if d[name].tape.id == id {
          return Some(name);
        }
      }
      return None;
    }

    method RemoveOldFile(id: string, newFilename: string)
      modifies this
      ensures dir == Without(old(dir), Find(old(dir), id, Some(newFilename)))
    {
      var found := Scan(id, Some(newFilename));
      if found.Some? {
        dir := dir - {found.value};
      }
    }

    /** Save removes the file under the former name before it writes, so a failing
        write leaves the directory without it. */
    method Save(tape: Tape, io: Io) returns (a: Answer)
      modifies this
      ensures (dir, a) == FileStep(old(dir), Op.Save(tape, strategy, io))
    {
      if !ValidId(tape.id) {
        return InvalidId;
      }
      var stem := Base(strategy(tape));
      if stem == "" || stem == "." || stem == ".." {
        stem := tape.id;
      }
      if io.ReadFails? {
        return IoError;
      }
      var target := ResolveFilename(stem, tape.id);
      if target.None? {
        return Collision;
      }
      RemoveOldFile(tape.id, target.value);
      if io.WriteFails? {
        return IoError;
      }
      dir := dir[Entry(target.value) := Good(tape)];
      return Saved;
    }

    method Load(id: string) returns (a: Answer)
      ensures (dir, a) == FileStep(dir, Op.Load(id))
    {
      if !ValidId(id) {
        return InvalidId;
      }
      var fastPath := id + ".json";
      if fastPath in dir {
        if dir[fastPath].Corrupt? {
          return CorruptFile;
        }
        if dir[fastPath].tape.id == id {
          return Loaded(dir[fastPath].tape);
        }
      }
      var found := Scan(id, None);
      return match found case None => NotFound case Some(name) => Loaded(dir[name].tape);
    }

    method List(filter: Filter) returns (tapes: seq<Tape>)
      ensures tapes == Listing(dir, SortedKeys(dir.Keys), filter)
      ensures forall t :: t in tapes <==> InFile(dir, t) && Wanted(filter, t)
    {
      var d := dir;
      var names := SortKeys(d.Keys);
      tapes := ListFiles(d, names, filter);
      FilesListed(d, filter);
    }

    static method ListFiles(d: Dir, names: seq<string>, filter: Filter) returns (tapes: seq<Tape>)
      requires forall n :: n in names ==> n in d
      ensures tapes == Listing(d, names, filter)
    {
      tapes := [];
      for i := 0 to |names|
        invariant tapes == Listing(d, names[..i], filter)
      {
        var name := names[i];
        ListingSnoc(d, names, i, filter);
        if IsTapeFile(name) && d[name].Good? && Accepts(filter, d[name].tape) {
          tapes := tapes + [d[name].tape];
        }
      }
      assert names[..|names|] == names;
    }

    method Delete(id: string) returns (a: Answer)
      modifies this
      ensures (dir, a) == FileStep(old(dir), Op.Delete(id))
    {
      if !ValidId(id) {
        return InvalidId;
      }
      var fastPath := id + ".json";
      if fastPath in dir && dir[fastPath].Good? && dir[fastPath].tape.id == id {
        dir := dir - {fastPath};
        return Deleted;
      }
      var found := Scan(id, None);
      if found.None? {
        return NotFound;
      }
      dir := dir - {found.value};
      return Deleted;
    }
  }

  class MemoryStore {
    var tapes: Memory

    constructor ()
      ensures tapes == map[]
    {
      tapes := map[];
    }

    method Save(tape: Tape) returns (a: Answer)
      modifies this
      ensures forall strategy, io :: (tapes, a) == MemoryStep(old(tapes), Op.Save(tape, strategy, io))
    {
      tapes := tapes[tape.id := tape];
      return Saved;
    }

    method Load(id: string) returns (a: Answer)
      ensures (tapes, a) == MemoryStep(tapes, Op.Load(id))
    {
      return if id in tapes then Loaded(tapes[id]) else NotFound;
    }

    /** The listing in no particular order. */
    method List(filter: Filter) returns (result: seq<Tape>)
      ensures MemoryStep(tapes, Op.List(filter)) == (tapes, Listed(set t | t in result))
      ensures forall t :: t in result <==> InMap(tapes, t) && Wanted(filter, t)
    {
      result := [];
      var left := tapes.Keys;
      while left != {}
        invariant left <= tapes.Keys
        invariant forall t :: t in result <==> exists id :: id in tapes.Keys - left && Accepts(filter, tapes[id]) && tapes[id] == t
        decreases left
      {
        var id :| id in left;
        if Accepts(filter, tapes[id]) {
          result := result + [tapes[id]];
        }
        left := left - {id};
      }
      assert (set t | t in result) == MemoryList(tapes, filter);
      MapListed(tapes, filter);
    }

    method Delete(id: string) returns (a: Answer)
      modifies this
      ensures (tapes, a) == MemoryStep(old(tapes), Op.Delete(id))
    {
      if id !in tapes {
        return NotFound;
      }
      tapes := tapes - {id};
      return Deleted;
    }
  }
}
