/** Module path resolution: directories and module names as strings, split into components and joined again. */
module ModulePaths {

  const SEPARATOR := '/'

  datatype Option<T> = None | Some(value: T)

  /** `root` ends with the first separator of the path; `query` is what lies between the first and the last. */
  datatype DirectoryName = DirectoryName(root: string, query: string)

  // ---- splitting and joining

  /** splitAllowingEmptyEntries: the empty string has one empty component. */
  function Split(s: string): (pieces: seq<string>)
    ensures |pieces| >= 1
  {
    if s == "" then [""]
    else
      var rest := Split(s[1..]);
      if s[0] == SEPARATOR then [""] + rest else [[s[0]] + rest[0]] + rest[1..]
  }

  function Join(pieces: seq<string>): string {
    if pieces == [] then ""
    else if |pieces| == 1 then pieces[0]
    else pieces[0] + [SEPARATOR] + Join(pieces[1..])
  }

  predicate Plain(piece: string) {
    SEPARATOR !in piece
  }

  predicate AllPlain(pieces: seq<string>) {
    forall i :: 0 <= i < |pieces| ==> Plain(pieces[i])
  }

  lemma {:induction false} SplitIsPlain(s: string)
    ensures AllPlain(Split(s))
  {
    if s != "" {
      SplitIsPlain(s[1..]);
    }
  }

  lemma {:induction false} SplitPlain(s: string)
    requires Plain(s)
    ensures Split(s) == [s]
  {
    if s != "" {
      assert s[0] in s;
      SplitPlain(s[1..]);
      assert [s[0]] + s[1..] == s;
    }
  }

  lemma {:induction false} SplitAtSeparator(a: string, b: string)
    ensures Split(a + [SEPARATOR] + b) == Split(a) + Split(b)
  {
    var s := a + [SEPARATOR] + b;
    if a == "" {
      assert s[1..] == b;
    } else {
      assert s[1..] == a[1..] + [SEPARATOR] + b;
      SplitAtSeparator(a[1..], b);
    }
  }

  lemma {:induction false} SplitJoin(pieces: seq<string>)
    requires pieces != [] && AllPlain(pieces)
    ensures Split(Join(pieces)) == pieces
  {
    SplitPlain(pieces[0]);
    if |pieces| > 1 {
      SplitJoin(pieces[1..]);
      SplitAtSeparator(pieces[0], Join(pieces[1..]));
    }
  }

  lemma {:induction false} JoinSplit(s: string)
    ensures Join(Split(s)) == s
  {
    if s != "" {
      JoinSplit(s[1..]);
      var rest := Split(s[1..]);
      assert |rest| > 1 ==> Split(s)[1..] == (if s[0] == SEPARATOR then rest else rest[1..]);
    }
  }

  lemma {:induction false} JoinLast(pieces: seq<string>)
    requires |pieces| >= 2
    ensures Join(pieces) == Join(pieces[..|pieces| - 1]) + [SEPARATOR] + pieces[|pieces| - 1]
  {
    var front := pieces[..|pieces| - 1];
    if |pieces| > 2 {
      JoinLast(pieces[1..]);
      assert front[1..] == pieces[1..][..|pieces| - 2];
    }
  }

  // ---- extractDirectoryName

  function Find(s: string): (position: Option<nat>)
    ensures position.Some? ==> position.value < |s| && s[position.value] == SEPARATOR && Plain(s[..position.value])
    ensures position.None? ==> Plain(s)
  {
    if s == "" then None
    else if s[0] == SEPARATOR then Some(0)
    else
      match Find(s[1..])
      case None => None
      case Some(k) => assert s[..k + 1] == [s[0]] + s[1..][..k]; Some(k + 1)
  }

  function ReverseFind(s: string): (position: Option<nat>)
    ensures position.Some? ==> position.value < |s| && s[position.value] == SEPARATOR && Plain(s[position.value + 1..])
    ensures position.None? ==> Plain(s)
  {
    if s == "" then None
    else if s[|s| - 1] == SEPARATOR then Some(|s| - 1)
    else
      match ReverseFind(s[..|s| - 1])
      case None => None
      case Some(k) => assert s[k + 1..] == s[..|s| - 1][k + 1..] + [s[|s| - 1]]; Some(k)
  }

  function ExtractDirectoryName(path: string): Option<DirectoryName> {
    match Find(path)
    case None => None
    case Some(first) =>
      match ReverseFind(path)
      case None => None
      case Some(last) =>
        if first >= last then Some(DirectoryName(path[..first + 1], ""))
        else Some(DirectoryName(path[..first + 1], path[first + 1..last]))
  }

  predicate IsRoot(root: string) {
    root != "" && root[|root| - 1] == SEPARATOR && Plain(root[..|root| - 1])
  }

  /** A referrer has a directory exactly if it has a separator; its root ends at the first one. */
  lemma DirectoryHasRoot(path: string)
    ensures ExtractDirectoryName(path).Some? <==> !Plain(path)
    ensures ExtractDirectoryName(path).Some? ==>
              IsRoot(ExtractDirectoryName(path).value.root) && ExtractDirectoryName(path).value.root <= path
  {
  }

  lemma {:induction false} FindIs(a: string, b: string)
    requires Plain(a)
    ensures Find(a + [SEPARATOR] + b) == Some(|a|)
  {
    var s := a + [SEPARATOR] + b;
    if a != "" {
      assert s[0] in a;
      assert s[1..] == a[1..] + [SEPARATOR] + b;
      FindIs(a[1..], b);
    }
  }

  lemma {:induction false} ReverseFindIs(a: string, b: string)
    requires Plain(b)
    ensures ReverseFind(a + [SEPARATOR] + b) == Some(|a|)
  {
    var s := a + [SEPARATOR] + b;
    if b != "" {
      assert s[|s| - 1] in b;
      assert s[..|s| - 1] == a + [SEPARATOR] + b[..|b| - 1];
      ReverseFindIs(a, b[..|b| - 1]);
    }
  }

  // ---- resolvePath

  /** One component of a module name. */
  function Follow(pieces: seq<string>, query: string): seq<string> {
    if query == ".." then if pieces == [] then [] else pieces[..|pieces| - 1]
    else if query == "" || query == "." then pieces
    else pieces + [query]
  }

  function Walk(pieces: seq<string>, queries: seq<string>): seq<string>
    decreases |queries|
  {
    if queries == [] then pieces else Walk(Follow(pieces, queries[0]), queries[1..])
  }

  predicate StartsWithRoot(name: string) {
    Split(name)[0] == ""
  }

  /** The components that a module name resolves to from a directory. */
  function Pieces(d: DirectoryName, name: string): seq<string> {
    Walk(if StartsWithRoot(name) then [] else Split(d.query), Split(name))
  }

  function Resolve(d: DirectoryName, name: string): string {
    d.root + Join(Pieces(d, name))
  }

  /** The source's two loops: over the components of the name, and over the result. */
  method ResolvePath(d: DirectoryName, name: string) returns (path: string)
    ensures path == Resolve(d, name)
  {
    var pieces, queries := Split(d.query), Split(name);
    if queries[0] == "" {
      pieces := [];
    }
    ghost var start := pieces;
    for i := 0 to |queries|
      invariant Walk(pieces, queries[i..]) == Walk(start, queries)
    {
      var query := queries[i];
      if query == ".." {
        if |pieces| != 0 {
          pieces := pieces[..|pieces| - 1];
        }
      } else if query != "" && query != "." {
        pieces := pieces + [query];
      }
      assert queries[i..][1..] == queries[i + 1..];
    }
    path := d.root;
    for i := 0 to |pieces|
      invariant path + Join(pieces[i..]) == d.root + Join(pieces)
    {
      assert pieces[i..][1..] == pieces[i + 1..];
      assert path + (pieces[i] + [SEPARATOR] + Join(pieces[i + 1..])) == path + pieces[i] + [SEPARATOR] + Join(pieces[i + 1..]);
      path := path + pieces[i];
      if i + 1 != |pieces| {
        path := path + [SEPARATOR];
      }
    }
  }

  lemma {:induction false} WalkAppend(pieces: seq<string>, a: seq<string>, b: seq<string>)
    ensures Walk(pieces, a + b) == Walk(Walk(pieces, a), b)
    decreases |a|
  {
    if a == [] {
      assert a + b == b;
    } else {
      assert (a + b)[1..] == a[1..] + b;
      WalkAppend(Follow(pieces, a[0]), a[1..], b);
    }
  }

  lemma {:induction false} WalkIsPlain(pieces: seq<string>, queries: seq<string>)
    requires AllPlain(pieces) && AllPlain(queries)
    ensures AllPlain(Walk(pieces, queries))
    decreases |queries|
  {
    if queries != [] {
      WalkIsPlain(Follow(pieces, queries[0]), queries[1..]);
    }
  }

  lemma PiecesArePlain(d: DirectoryName, name: string)
    ensures AllPlain(Pieces(d, name))
  {
    SplitIsPlain(d.query);
    SplitIsPlain(name);
    WalkIsPlain(if StartsWithRoot(name) then [] else Split(d.query), Split(name));
  }

  // ---- the directory of a resolved module

  /** Below the root: the directory is made of all components but the last. */
  lemma DirectoryOfDeep(root: string, pieces: seq<string>)
    requires IsRoot(root) && AllPlain(pieces) && |pieces| >= 2
    ensures ExtractDirectoryName(root + Join(pieces)) == Some(DirectoryName(root, Join(pieces[..|pieces| - 1])))
  {
    var front, last := Join(pieces[..|pieces| - 1]), pieces[|pieces| - 1];
    var drive := root[..|root| - 1];
    assert root == drive + [SEPARATOR];
    JoinLast(pieces);
    Regroup(drive + [SEPARATOR], front, last);
    ExtractAt(drive, front, last);
  }

  lemma Regroup(root: string, front: string, last: string)
    ensures root + (front + [SEPARATOR] + last) == root + front + [SEPARATOR] + last
  {
  }

  lemma ExtractAt(drive: string, front: string, last: string)
    requires Plain(drive) && Plain(last)
    ensures ExtractDirectoryName(drive + [SEPARATOR] + front + [SEPARATOR] + last)
            == Some(DirectoryName(drive + [SEPARATOR], front))
  {
    var path := drive + [SEPARATOR] + front + [SEPARATOR] + last;
    assert path == drive + [SEPARATOR] + (front + [SEPARATOR] + last);
    FindIs(drive, front + [SEPARATOR] + last);
    assert path == (drive + [SEPARATOR] + front) + [SEPARATOR] + last;
    ReverseFindIs(drive + [SEPARATOR] + front, last);
    assert path[..|drive| + 1] == drive + [SEPARATOR];
    assert path[|drive| + 1..|drive| + 1 + |front|] == front;
  }

  /** Directly under the root, or the root itself: the directory's query is empty, which splits to one empty component. */
  lemma DirectoryOfShallow(root: string, pieces: seq<string>)
    requires IsRoot(root) && AllPlain(pieces) && |pieces| <= 1
    ensures ExtractDirectoryName(root + Join(pieces)) == Some(DirectoryName(root, ""))
  {
    var drive := root[..|root| - 1];
    var name := if pieces == [] then "" else pieces[0];
    assert Join(pieces) == name && Plain(name);
    assert root == drive + [SEPARATOR];
    ExtractRoot(drive, name);
  }

  lemma ExtractRoot(drive: string, name: string)
    requires Plain(drive) && Plain(name)
    ensures ExtractDirectoryName(drive + [SEPARATOR] + name) == Some(DirectoryName(drive + [SEPARATOR], ""))
  {
    FindIs(drive, name);
    ReverseFindIs(drive, name);
    assert (drive + [SEPARATOR] + name)[..|drive| + 1] == drive + [SEPARATOR];
  }

  // ---- import chains

  /** Below `depth` own components, the name goes up past where it started. */
  predicate Dips(depth: nat, queries: seq<string>)
    decreases |queries|
  {
    if queries == [] then false
    else if queries[0] == ".." then if depth == 0 then true else Dips(depth - 1, queries[1..])
    else if queries[0] == "" || queries[0] == "." then Dips(depth, queries[1..])
    else Dips(depth + 1, queries[1..])
  }

  /** A component at the bottom stays there unless the name dips below it. */
  lemma {:induction false} WalkAbove(bottom: string, pieces: seq<string>, queries: seq<string>)
    ensures Walk([bottom] + pieces, queries) ==
              if Dips(|pieces|, queries) then Walk(pieces, queries) else [bottom] + Walk(pieces, queries)
    decreases |queries|
  {
    if queries != [] {
      var query := queries[0];
      if query == ".." && pieces == [] {
        assert Follow([bottom] + pieces, query) == [];
      } else {
        assert Follow([bottom] + pieces, query) == [bottom] + Follow(pieces, query);
        WalkAbove(bottom, Follow(pieces, query), queries[1..]);
      }
    }
  }

  predicate Relative(name: string) {
    name != "" && name[0] != SEPARATOR
  }

  lemma RelativeDoesNotStartWithRoot(name: string)
    ensures StartsWithRoot(name) <==> !Relative(name)
  {
  }

  /** Going through the parent of the first module in one name. */
  lemma PiecesOfChain(d: DirectoryName, first: string, second: string)
    ensures Pieces(d, first + "/../" + second) == Walk(Follow(Pieces(d, first), ".."), Split(second))
  {
    var name := first + "/../" + second;
    SplitAtSeparator("..", second);
    SplitPlain("..");
    assert name == first + [SEPARATOR] + (".." + [SEPARATOR] + second);
    SplitAtSeparator(first, ".." + [SEPARATOR] + second);
    var rest := [".."] + Split(second);
    assert Split(name) == Split(first) + rest;
    WalkAppend(if StartsWithRoot(first) then [] else Split(d.query), Split(first), rest);
    assert rest[1..] == Split(second);
  }

  /** A module that lies at least two components deep: importing from it is importing past its parent. */
  lemma DeepImportsCompose(d: DirectoryName, first: string, second: string)
    requires IsRoot(d.root) && Relative(second) && |Pieces(d, first)| >= 2
    ensures var e := ExtractDirectoryName(Resolve(d, first));
            e.Some? && Resolve(e.value, second) == Resolve(d, first + "/../" + second)
  {
    var pieces := Pieces(d, first);
    PiecesArePlain(d, first);
    DirectoryOfDeep(d.root, pieces);
    SplitJoin(pieces[..|pieces| - 1]);
    RelativeDoesNotStartWithRoot(second);
    PiecesOfChain(d, first, second);
  }

  lemma ShallowImports(d: DirectoryName, first: string, second: string)
    requires IsRoot(d.root) && Relative(second) && |Pieces(d, first)| <= 1
    ensures var e := ExtractDirectoryName(Resolve(d, first));
            && e.Some? && Pieces(e.value, second) == Walk([""], Split(second)) && e.value.root == d.root
            && Pieces(d, first + "/../" + second) == Walk([], Split(second))
  {
    var pieces := Pieces(d, first);
    PiecesArePlain(d, first);
    DirectoryOfShallow(d.root, pieces);
    RelativeDoesNotStartWithRoot(second);
    PiecesOfChain(d, first, second);
  }

  /**
   * Import chains compose exactly when the first module lies at least two components deep, or the
   * second name goes up past its start, or leads nowhere at all. Otherwise the empty component of a
   * directory directly under the root stays in front, and the result gets a second separator.
   */
  lemma ImportsComposeExactlyWhen(d: DirectoryName, first: string, second: string)
    requires IsRoot(d.root) && Relative(second)
    ensures var e := ExtractDirectoryName(Resolve(d, first));
            && e.Some?
            && (Resolve(e.value, second) == Resolve(d, first + "/../" + second) <==>
                  |Pieces(d, first)| >= 2 || Dips(0, Split(second)) || Walk([], Split(second)) == [])
  {
    if |Pieces(d, first)| >= 2 {
      DeepImportsCompose(d, first, second);
    } else {
      ShallowImports(d, first, second);
      WalkAbove("", [], Split(second));
      assert [""] + [] == [""];
      var clean := Walk([], Split(second));
      if !Dips(0, Split(second)) && clean != [] {
        assert ([""] + clean)[1..] == clean;
        assert |Join([""] + clean)| == |Join(clean)| + 1;
      }
    }
  }

  /** The smallest case: from a module directly under the root, "m" resolves to "//m". */
  lemma RootReferrerGetsTwoSeparators()
    ensures ExtractDirectoryName("/a") == Some(DirectoryName("/", ""))
    ensures Resolve(DirectoryName("/", ""), "m") == "//m"
  {
    FindIs("", "a");
    ReverseFindIs("", "a");
    assert "/a" == "" + [SEPARATOR] + "a" && "/a"[..1] == "/";
    SplitPlain("m");
    SplitPlain("");
    assert Walk([""], ["m"]) == Walk(["", "m"], []);
    assert Join(["", "m"]) == "" + "/" + Join(["m"]);
  }

  // ---- normal form

  predicate Proper(piece: string) {
    Plain(piece) && piece != "" && piece != "." && piece != ".."
  }

  predicate AllProper(pieces: seq<string>) {
    forall i :: 0 <= i < |pieces| ==> Proper(pieces[i])
  }

  lemma {:induction false} WalkIsProper(pieces: seq<string>, queries: seq<string>)
    requires AllProper(pieces) && AllPlain(queries)
    ensures AllProper(Walk(pieces, queries))
    decreases |queries|
  {
    if queries != [] {
      WalkIsProper(Follow(pieces, queries[0]), queries[1..]);
    }
  }

  lemma {:induction false} WalkOverProper(pieces: seq<string>, queries: seq<string>)
    requires AllProper(queries)
    ensures Walk(pieces, queries) == pieces + queries
    decreases |queries|
  {
    if queries != [] {
      WalkOverProper(Follow(pieces, queries[0]), queries[1..]);
      assert pieces + queries == (pieces + [queries[0]]) + queries[1..];
    }
  }

  /** From a directory without "", "." and ".." nothing resolves to a path with one; absolute names need no such directory. */
  lemma ResolvedIsProper(d: DirectoryName, name: string)
    requires StartsWithRoot(name) || AllProper(Split(d.query))
    ensures AllProper(Pieces(d, name))
  {
    SplitIsPlain(name);
    WalkIsProper(if StartsWithRoot(name) then [] else Split(d.query), Split(name));
  }

  /** Resolving a resolved Unix path again, from any directory, gives it back. */
  lemma ResolvingAgainChangesNothing(d: DirectoryName, name: string, other: DirectoryName)
    requires d.root == "/" && other.root == "/" && (StartsWithRoot(name) || AllProper(Split(d.query)))
    ensures Resolve(other, Resolve(d, name)) == Resolve(d, name)
  {
    var pieces := Pieces(d, name);
    var path := Resolve(d, name);
    ResolvedIsProper(d, name);
    assert path == "" + [SEPARATOR] + Join(pieces);
    SplitAtSeparator("", Join(pieces));
    SplitPlain("");
    if pieces == [] {
      assert Split(path) == ["", ""];
      assert Walk([], ["", ""]) == Walk([], [""]) == [];
    } else {
      PiecesArePlain(d, name);
      SplitJoin(pieces);
      assert Split(path) == [""] + pieces;
      assert Split(path)[1..] == pieces;
      WalkOverProper([], pieces);
      assert [] + pieces == pieces;
    }
  }
}
