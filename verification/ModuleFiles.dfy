/** Finding a module in the local file system: extensions, index files and the shebang line. */
module ModuleFiles {
  import opened Bytes
  import opened ModulePaths

  /** `opens` says whether the file may be read; to probe a fault throws. */
  datatype Entry = File(bytes: seq<Byte>, opens: bool) | Directory | Fault

  type Tree = map<string, Entry>

  predicate IsFile(fs: Tree, path: string) {
    path in fs && fs[path].File?
  }

  predicate IsDirectory(fs: Tree, path: string) {
    path in fs && fs[path].Directory?
  }

  /** path.append("index"). */
  function Index(path: string): string {
    if path == "" || path[|path| - 1] == SEPARATOR then path + "index" else path + "/index"
  }

  // ---- one step of the search

  /** Where the search goes on from `path`, if it does. */
  predicate Leads(fs: Tree, path: string, next: string) {
    || (IsDirectory(fs, path) && next == Index(path))
    || (path !in fs && path + ".mjs" in fs && next == path + ".mjs")
    || (path !in fs && path + ".mjs" !in fs && path + ".js" in fs && next == path + ".js")
  }

  /** Nothing is left to try, or the probe throws. */
  predicate DeadEnd(fs: Tree, path: string) {
    (path !in fs && path + ".mjs" !in fs && path + ".js" !in fs) || (path in fs && fs[path].Fault?)
  }

  /** A search from its first path to its last. */
  predicate Trail(fs: Tree, paths: seq<string>) {
    paths != [] && forall i :: 0 <= i < |paths| - 1 ==> Leads(fs, paths[i], paths[i + 1])
  }

  // ---- why it ends

  /** No path of the tree is longer. */
  ghost function Longest(paths: set<string>): (n: nat)
    ensures forall path :: path in paths ==> |path| <= n
  {
    if paths == {} then 0
    else
      var path :| path in paths;
      var n := Longest(paths - {path});
      if |path| > n then |path| else n
  }

  /** How much longer a path of the tree can get. */
  ghost function Room(fs: Tree, path: string): nat {
    if |path| <= Longest(fs.Keys) then Longest(fs.Keys) + 1 - |path| else 0
  }

  // ---- the search

  /** fetchModuleFromLocalFileSystem up to opening the file. */
  function Lookup(fs: Tree, path: string): (found: Option<string>)
    decreases Room(fs, path)
  {
    if path !in fs then
      if path + ".mjs" in fs then Lookup(fs, path + ".mjs")
      else if path + ".js" in fs then Lookup(fs, path + ".js")
      else None
    else if fs[path].Directory? then Lookup(fs, Index(path))
    else if fs[path].Fault? then None
    else Some(path)
  }

  /** Whichever way a search goes, it decides: a file at its end is what is found, a dead end means nothing is. */
  lemma {:induction false} TrailDecides(fs: Tree, paths: seq<string>)
    requires Trail(fs, paths)
    ensures var last := paths[|paths| - 1];
            && (IsFile(fs, last) ==> Lookup(fs, paths[0]) == Some(last))
            && (DeadEnd(fs, last) ==> Lookup(fs, paths[0]) == None)
    decreases |paths|
  {
    if |paths| > 1 {
      forall i | 0 <= i < |paths[1..]| - 1
        ensures Leads(fs, paths[1..][i], paths[1..][i + 1])
      {
        assert Leads(fs, paths[i + 1], paths[i + 2]);
      }
      assert Leads(fs, paths[0], paths[1]);
      TrailDecides(fs, paths[1..]);
    }
  }

  /** Every search comes to an end, at a file or at a dead end, over paths that only get longer. */
  lemma {:induction false} TrailEnds(fs: Tree, path: string) returns (paths: seq<string>)
    ensures Trail(fs, paths) && paths[0] == path
    ensures IsFile(fs, paths[|paths| - 1]) || DeadEnd(fs, paths[|paths| - 1])
    ensures path <= paths[|paths| - 1]
    decreases Room(fs, path)
  {
    paths := [path];
    if !IsFile(fs, path) && !DeadEnd(fs, path) {
      var next := NextOnTrail(fs, path);
      var rest := TrailEnds(fs, next);
      paths := [path] + rest;
      TrailGrows(fs, path, rest);
    }
  }

  lemma NextOnTrail(fs: Tree, path: string) returns (next: string)
    requires !IsFile(fs, path) && !DeadEnd(fs, path)
    ensures Leads(fs, path, next) && path <= next && Room(fs, next) < Room(fs, path)
  {
    next := if path in fs then Index(path) else if path + ".mjs" in fs then path + ".mjs" else path + ".js";
  }

  lemma TrailGrows(fs: Tree, path: string, rest: seq<string>)
    requires Trail(fs, rest) && Leads(fs, path, rest[0])
    ensures Trail(fs, [path] + rest)
  {
    var paths := [path] + rest;
    forall i | 0 <= i < |paths| - 1
      ensures Leads(fs, paths[i], paths[i + 1])
    {
      assert i > 0 ==> Leads(fs, rest[i - 1], rest[i]);
    }
  }

  // ---- the file that is found

  /** What a search adds to the name asked for. */
  datatype Part = Mjs | Js | IndexFile

  function Add(path: string, part: Part): string {
    match part
    case Mjs => path + ".mjs"
    case Js => path + ".js"
    case IndexFile => Index(path)
  }

  function Spell(name: string, parts: seq<Part>): string
    decreases |parts|
  {
    if parts == [] then name else Spell(Add(name, parts[0]), parts[1..])
  }

  /**
   * Index files are looked for in directories only, and an extension is added only to a path that does
   * not exist, ".js" only where there is no ".mjs"; two extensions never follow each other.
   */
  predicate FitsAt(fs: Tree, path: string, parts: seq<Part>, i: nat)
    requires i < |parts|
  {
    match parts[i]
    case IndexFile => IsDirectory(fs, path)
    case Mjs => path !in fs && (i + 1 < |parts| ==> parts[i + 1].IndexFile?)
    case Js => path !in fs && path + ".mjs" !in fs && (i + 1 < |parts| ==> parts[i + 1].IndexFile?)
  }

  ghost predicate Fits(fs: Tree, name: string, parts: seq<Part>) {
    forall i :: 0 <= i < |parts| ==> FitsAt(fs, Spell(name, parts[..i]), parts, i)
  }

  lemma FitsFirst(fs: Tree, name: string, part: Part, rest: seq<Part>)
    ensures Fits(fs, name, [part] + rest) <==>
              FitsAt(fs, name, [part] + rest, 0) && Fits(fs, Add(name, part), rest)
    ensures Spell(name, [part] + rest) == Spell(Add(name, part), rest)
  {
    var parts := [part] + rest;
    assert parts[1..] == rest && parts[..0] == [];
    forall i | 0 <= i < |rest|
      ensures FitsAt(fs, Spell(name, parts[..i + 1]), parts, i + 1)
              == FitsAt(fs, Spell(Add(name, part), rest[..i]), rest, i)
    {
      assert parts[..i + 1] == [part] + rest[..i] && parts[..i + 1][1..] == rest[..i];
    }
    forall i | 0 < i < |parts|
      ensures FitsAt(fs, Spell(name, parts[..i]), parts, i) == FitsAt(fs, Spell(Add(name, part), rest[..i - 1]), rest, i - 1)
    {
      assert parts[..i] == [part] + rest[..i - 1] && parts[..i][1..] == rest[..i - 1];
    }
    if Fits(fs, name, parts) {
      forall i | 0 <= i < |rest|
        ensures FitsAt(fs, Spell(Add(name, part), rest[..i]), rest, i)
      {
        assert FitsAt(fs, Spell(name, parts[..i + 1]), parts, i + 1);
      }
    }
  }

  lemma {:induction false} FittingIsFound(fs: Tree, name: string, parts: seq<Part>)
    requires Fits(fs, name, parts) && IsFile(fs, Spell(name, parts))
    ensures Lookup(fs, name) == Some(Spell(name, parts))
    decreases |parts|
  {
    if parts != [] {
      var part, rest := parts[0], parts[1..];
      assert parts == [part] + rest;
      FitsFirst(fs, name, part, rest);
      FittingIsFound(fs, Add(name, part), rest);
      if rest != [] {
        assert rest == [rest[0]] + rest[1..];
        FitsFirst(fs, Add(name, part), rest[0], rest[1..]);
      }
    }
  }

  lemma {:induction false} FoundFits(fs: Tree, name: string) returns (parts: seq<Part>)
    requires Lookup(fs, name).Some?
    ensures Fits(fs, name, parts) && Lookup(fs, name) == Some(Spell(name, parts)) && IsFile(fs, Spell(name, parts))
    ensures name in fs && fs[name].File? ==> parts == []
    ensures name in fs && fs[name].Directory? ==> parts != [] && parts[0].IndexFile?
    decreases Room(fs, name)
  {
    parts := [];
    if !IsFile(fs, name) {
      var part := if name in fs then IndexFile else if name + ".mjs" in fs then Mjs else Js;
      var rest := FoundFits(fs, Add(name, part));
      FitsFirst(fs, name, part, rest);
      parts := [part] + rest;
    }
  }

  /**
   * The file that a search finds is the name asked for with at most one extension, followed by any
   * number of "index" files of directories, each with at most one extension of its own, where each
   * extension stands for a path that does not exist; and every file that can be spelled so is found.
   */
  lemma LookupExactly(fs: Tree, name: string, file: string)
    ensures Lookup(fs, name) == Some(file) <==>
              IsFile(fs, file) && exists parts :: Fits(fs, name, parts) && Spell(name, parts) == file
  {
    if Lookup(fs, name) == Some(file) {
      var parts := FoundFits(fs, name);
    }
    forall parts | Fits(fs, name, parts) && Spell(name, parts) == file && IsFile(fs, file)
      ensures Lookup(fs, name) == Some(file)
    {
      FittingIsFound(fs, name, parts);
    }
  }

  // ---- the file's bytes

  const HASH: Byte := 35
  const BANG: Byte := 33
  const SLASH: Byte := 47

  function Commented(bytes: seq<Byte>): seq<Byte> {
    if |bytes| >= 2 && bytes[0] == HASH && bytes[1] == BANG then [SLASH, SLASH] + bytes[2..] else bytes
  }

  /** convertShebangToJSComment. */
  method ConvertShebang(buffer: array<Byte>)
    modifies buffer
    ensures buffer[..] == Commented(old(buffer[..]))
  {
    if buffer.Length >= 2 {
      if buffer[0] == HASH && buffer[1] == BANG {
        buffer[0], buffer[1] := SLASH, SLASH;
        assert buffer[2..] == old(buffer[2..]);
      }
    }
  }

  /** Converting makes "//" of a leading "#!", keeps every other byte where it is, and is done after one time. */
  lemma ShebangGoesOnce(bytes: seq<Byte>)
    ensures |Commented(bytes)| == |bytes| && Commented(Commented(bytes)) == Commented(bytes)
    ensures Commented(bytes) != bytes <==> |bytes| >= 2 && bytes[..2] == [HASH, BANG]
    ensures |bytes| >= 2 && bytes[0] == 35 && bytes[1] == 33 ==> Commented(bytes)[0] == 47 && Commented(bytes)[1] == 47
    ensures forall i :: 2 <= i < |bytes| ==> Commented(bytes)[i] == bytes[i]
  {
    if |bytes| >= 2 && bytes[0] == HASH && bytes[1] == BANG {
      assert Commented(bytes)[0] != bytes[0];
    } else if |bytes| >= 2 {
      assert bytes[..2][0] == bytes[0] && bytes[..2][1] == bytes[1];
    }
  }

  /** What the stream gives: a file that cannot be opened sets a flag that is not looked at, and reads as empty. */
  function ReadAll(entry: Entry): seq<Byte>
    requires entry.File?
  {
    if entry.opens then entry.bytes else []
  }

  /** fetchModuleFromLocalFileSystem; the buffer is null where the source returns false. */
  method Fetch(fs: Tree, name: string) returns (buffer: array?<Byte>)
    ensures buffer == null <==> Lookup(fs, name) == None
    ensures buffer != null ==> fresh(buffer) && IsFile(fs, Lookup(fs, name).value)
    ensures buffer != null ==> buffer[..] == Commented(ReadAll(fs[Lookup(fs, name).value]))
    decreases Room(fs, name)
  {
    if name !in fs {
      if name + ".mjs" in fs {
        buffer := Fetch(fs, name + ".mjs");
      } else if name + ".js" in fs {
        buffer := Fetch(fs, name + ".js");
      } else {
        buffer := null;
      }
    } else if fs[name].Directory? {
      buffer := Fetch(fs, Index(name));
    } else if fs[name].Fault? {
      buffer := null;
    } else {
      var bytes := ReadAll(fs[name]);
      buffer := new Byte[|bytes|](i requires 0 <= i < |bytes| => bytes[i]);
      assert buffer[..] == bytes;
      ConvertShebang(buffer);
    }
  }
}
