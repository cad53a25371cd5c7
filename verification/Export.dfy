/**
  Exporting a received collection to a directory without overwriting anything
  (engine/native/src/export.rs).

  Paths are sequences of components. A file system maps the paths that exist to what is there.
 */
module Export {
  import opened Common
  import opened Text

  type Path = seq<string>
  type Hash = nat
  type Content = seq<nat>

  datatype Entry = File(content: Content) | Directory

  type Tree = map<Path, Entry>

  const LAST_INDEX: nat := 9_999

  // ---------------------------------------------------------------------- export paths

  predicate ValidComponent(c: string) {
    && c != "" && '/' !in c && '\\' !in c && ':' !in c && '\0' !in c
    && c != ".." && c != "."
  }

  predicate ValidName(name: string) {
    forall i :: 0 <= i < |Split(name, '/')| ==> ValidComponent(Split(name, '/')[i])
  }

  function ExportPath(root: Path, name: string): Path {
    root + Split(name, '/')
  }

  /** Different names have different paths: the components give the name back. */
  lemma {:induction false} ExportPathInjective(root: Path, a: string, b: string)
    requires ExportPath(root, a) == ExportPath(root, b)
    ensures a == b
  {
    assert Split(a, '/') == ExportPath(root, a)[|root|..] == Split(b, '/');
    JoinOfSplit(a, '/');
    JoinOfSplit(b, '/');
  }

  /** Following a path component by component, as a file system does. */
  function Followed(at: Path, parts: seq<string>): Path
    decreases |parts|
  {
    if parts == [] then at
    else if parts[0] == "" || parts[0] == "." then Followed(at, parts[1..])
    else if parts[0] == ".." then Followed(if at == [] then [] else at[..|at| - 1], parts[1..])
    else Followed(at + [parts[0]], parts[1..])
  }

  /** A valid name leads to its export path by going down only: it stays inside the root. */
  lemma {:induction false} ValidNamesGoDown(root: Path, name: string)
    requires ValidName(name)
    ensures Followed(root, Split(name, '/')) == ExportPath(root, name)
  {
    GoesDown(root, Split(name, '/'));
  }

  lemma {:induction false} GoesDown(at: Path, parts: seq<string>)
    requires forall i :: 0 <= i < |parts| ==> ValidComponent(parts[i])
    ensures Followed(at, parts) == at + parts
    decreases |parts|
  {
    if parts != [] {
      GoesDown(at + [parts[0]], parts[1..]);
      assert at + [parts[0]] + parts[1..] == at + parts;
    } else {
      assert at + parts == at;
    }
  }

  /** Wherever they stand in a name, backslash, colon and NUL are refused. */
  lemma {:induction false} ForbiddenCharacters(name: string)
    requires '\\' in name || ':' in name || '\0' in name
    ensures !ValidName(name)
  {
    var c := if '\\' in name then '\\' else if ':' in name then ':' else '\0';
    JoinOfSplit(name, '/');
    CharInSomePart(Split(name, '/'), c);
  }

  lemma {:induction false} CharInSomePart(parts: seq<string>, c: char)
    requires parts != [] && c != '/' && c in Join(parts, '/')
    ensures exists i :: 0 <= i < |parts| && c in parts[i]
  {
    if c !in parts[0] {
      var rest := parts[1..];
      assert Join(parts, '/') == parts[0] + ['/'] + Join(rest, '/');
      CharInSomePart(rest, c);
      var i :| 0 <= i < |rest| && c in rest[i];
      assert c in parts[i + 1];
    }
  }

  /** None when some component of the name is not a plain file name. */
  method GetExportPath(root: Path, name: string) returns (path: Option<Path>)
    ensures path.Some? <==> ValidName(name)
    ensures path.Some? ==> path.value == ExportPath(root, name)
  {
    var parts, p := Split(name, '/'), root;
    for i := 0 to |parts|
      invariant p == root + parts[..i]
      invariant forall j :: 0 <= j < i ==> ValidComponent(parts[j])
    {
      if !ValidComponent(parts[i]) {
        return None;
      }
      p := p + [parts[i]];
      assert parts[..i + 1] == parts[..i] + [parts[i]];
    }
    assert parts[..|parts|] == parts;
    return Some(p);
  }

  // ----------------------------------------------------------------- numbered candidates

  /** Position of the last dot that has something before it. */
  function ExtensionDot(name: string): Option<nat> {
    LastDot(name, |name|)
  }

  function LastDot(name: string, end: nat): (dot: Option<nat>)
    requires end <= |name|
    ensures dot.Some? ==> 0 < dot.value < end && name[dot.value] == '.'
  {
    if end <= 1 then None else if name[end - 1] == '.' then Some(end - 1) else LastDot(name, end - 1)
  }

  function Numbered(name: string, index: nat): string {
    match ExtensionDot(name)
    case None => name + " (" + Digits(index) + ")"
    case Some(dot) => name[..dot] + " (" + Digits(index) + ")." + name[dot + 1..]
  }

  /** A name with an extension is numbered before its last dot. */
  lemma {:induction false} NumberedBeforeExtension(stem: string, ext: string, index: nat)
    requires stem != "" && '.' !in ext
    ensures Numbered(stem + "." + ext, index) == stem + " (" + Digits(index) + ")." + ext
  {
    var name := stem + "." + ext;
    LastDotIs(name, |name|, |stem|);
    assert name[..|stem|] == stem && name[|stem| + 1..] == ext;
  }

  /** A name without one, also when its only dot is the first character, is numbered at its end. */
  lemma {:induction false} NumberedAtEnd(name: string, index: nat)
    requires forall i :: 0 < i < |name| ==> name[i] != '.'
    ensures Numbered(name, index) == name + " (" + Digits(index) + ")"
  {
  }

  lemma {:induction false} LastDotIs(name: string, end: nat, dot: nat)
    requires 0 < dot < end <= |name| && name[dot] == '.' && forall i :: dot < i < end ==> name[i] != '.'
    ensures LastDot(name, end) == Some(dot)
    decreases end
  {
    if dot < end - 1 {
      LastDotIs(name, end - 1, dot);
    }
  }

  function Candidate(path: Path, index: nat): Path
    requires path != []
  {
    path[..|path| - 1] + [Numbered(path[|path| - 1], index)]
  }

  lemma {:induction false} SplitMiddle(a: string, b: string, c: string, d: string)
    requires a + b + c == a + d + c
    ensures b == d
  {
    assert |b| == |d|;
    assert (a + b + c)[|a|..|a| + |b|] == b;
    assert (a + d + c)[|a|..|a| + |d|] == d;
  }

  /** Different indices give different names, for every name. */
  lemma {:induction false} NumberingInjective(path: Path, i: nat, j: nat)
    requires path != [] && Candidate(path, i) == Candidate(path, j)
    ensures i == j
  {
    var name, last := path[|path| - 1], |path| - 1;
    assert Candidate(path, i)[last] == Numbered(name, i) && Candidate(path, j)[last] == Numbered(name, j);
    var dot := ExtensionDot(name);
    var head := (if dot.None? then name else name[..dot.value]) + " (";
    var tail := if dot.None? then ")" else ")." + name[dot.value + 1..];
    assert Numbered(name, i) == head + Digits(i) + tail;
    assert Numbered(name, j) == head + Digits(j) + tail;
    SplitMiddle(head, Digits(i), tail, Digits(j));
    DigitsInjective(i, j);
  }

  /** The first free candidate, or None when all numbered names are taken. */
  method ResolveConflictPath(tree: Tree, path: Path) returns (resolved: Option<Path>)
    requires path != []
    ensures resolved.None? <==> forall i :: 1 <= i <= LAST_INDEX ==> Candidate(path, i) in tree
    ensures resolved.Some? ==>
              && resolved.value !in tree
              && exists i :: 1 <= i <= LAST_INDEX && resolved.value == Candidate(path, i)
                             && forall j :: 1 <= j < i ==> Candidate(path, j) in tree
  {
    for index := 1 to LAST_INDEX + 1
      invariant forall j :: 1 <= j < index ==> Candidate(path, j) in tree
    {
      var candidate := Candidate(path, index);
      if candidate !in tree {
        return Some(candidate);
      }
    }
    return None;
  }

  function Candidates(path: Path, n: nat): set<Path>
    requires path != []
  {
    if n == 0 then {} else Candidates(path, n - 1) + {Candidate(path, n)}
  }

  lemma {:induction false} CandidatesAreMany(path: Path, n: nat)
    requires path != []
    ensures |Candidates(path, n)| == n
    ensures forall p :: p in Candidates(path, n) ==> exists i :: 1 <= i <= n && p == Candidate(path, i)
  {
    if n > 0 {
      CandidatesAreMany(path, n - 1);
      if Candidate(path, n) in Candidates(path, n - 1) {
        var i :| 1 <= i <= n - 1 && Candidate(path, n) == Candidate(path, i);
        NumberingInjective(path, n, i);
      }
    }
  }

  function Siblings(tree: Tree, path: Path): set<Path>
    requires path != []
  {
    set p | p in tree && |p| == |path| && p[..|p| - 1] == path[..|path| - 1]
  }

  /** Conflict resolution cannot fail in a directory with fewer entries than there are numbered names. */
  lemma {:induction false} FailureNeedsFullDirectory(tree: Tree, path: Path)
    requires path != [] && forall i :: 1 <= i <= LAST_INDEX ==> Candidate(path, i) in tree
    ensures |Siblings(tree, path)| >= LAST_INDEX
  {
    CandidatesAreMany(path, LAST_INDEX);
    forall p | p in Candidates(path, LAST_INDEX) ensures p in Siblings(tree, path) {
      var i :| 1 <= i <= LAST_INDEX && p == Candidate(path, i);
    }
    SubsetSize(Candidates(path, LAST_INDEX), Siblings(tree, path));
  }

  // ------------------------------------------------------------------------- the export

  datatype Conflict = Conflict(original: Path, resolved: Path)

  /** The conflicts a list of targets implies: one for each entry that did not land on its own name. */
  function ConflictsOf(root: Path, names: seq<string>, targets: seq<Path>): seq<Conflict>
    requires |targets| <= |names|
  {
    if targets == [] then []
    else
      var last := |targets| - 1;
      var desired := ExportPath(root, names[last]);
      ConflictsOf(root, names, targets[..last])
      + (if targets[last] == desired then [] else [Conflict(desired, targets[last])])
  }

  /** A file stands where one of the directories of `dir` should be. */
  predicate Blocked(tree: Tree, dir: Path) {
    exists k :: 1 <= k <= |dir| && dir[..k] in tree && tree[dir[..k]].File?
  }

  /** The ways one entry can fail. */
  predicate Fails(tree: Tree, blobs: map<Hash, Content>, name: string, hash: Hash, root: Path) {
    var p := ExportPath(root, name);
    || !ValidName(name)
    || (p in tree && forall i :: 1 <= i <= LAST_INDEX ==> Candidate(p, i) in tree)
    || Blocked(tree, p[..|p| - 1])
    || hash !in blobs
  }

  predicate IsUnder(root: Path, p: Path) {
    |root| < |p| && root <= p
  }

  /** Nothing that existed is changed, and the new files are all listed in `added`. */
  ghost predicate Extends(before: Tree, after: Tree, added: seq<Path>) {
    && (forall p :: p in before ==> p in after && after[p] == before[p])
    && (forall p :: p in after && p !in before && after[p].File? ==> p in added)
  }

  /** An entry lands on its own path, or, where that is taken, on the first numbered one that was not. */
  ghost predicate LandsOn(tree: Tree, desired: Path, target: Path)
    requires desired != []
  {
    || target == desired
    || (desired in tree
        && exists i :: 1 <= i <= LAST_INDEX && target == Candidate(desired, i)
                       && forall j :: 1 <= j < i ==> Candidate(desired, j) in tree)
  }

  lemma {:induction false} LandingLasts(before: Tree, after: Tree, desired: Path, target: Path)
    requires desired != [] && LandsOn(before, desired, target) && forall p :: p in before ==> p in after
    ensures LandsOn(after, desired, target)
  {
  }

  /** The entry is on disk, on a new path of its own name under `root`, with its own content. */
  ghost predicate OnDisk(
      before: Tree, after: Tree, blobs: map<Hash, Content>, name: string, hash: Hash, root: Path, target: Path)
  {
    && target in after && target !in before && IsUnder(root, target)
    && hash in blobs && after[target] == File(blobs[hash])
    && ValidName(name) && LandsOn(after, ExportPath(root, name), target)
  }

  /** The first `|targets|` entries are on disk, on distinct paths, and they are the only new files. */
  ghost predicate Exported(
      before: Tree, after: Tree, blobs: map<Hash, Content>, names: seq<string>, hashes: seq<Hash>, root: Path,
      targets: seq<Path>)
  {
    && Extends(before, after, targets)
    && |targets| <= |hashes| == |names|
    && (forall i :: 0 <= i < |targets| ==> OnDisk(before, after, blobs, names[i], hashes[i], root, targets[i]))
    && (forall i, j :: 0 <= i < j < |targets| ==> targets[i] != targets[j])
  }

  lemma {:induction false} ExportedOneMore(
      before: Tree, mid: Tree, after: Tree, blobs: map<Hash, Content>, names: seq<string>, hashes: seq<Hash>,
      root: Path, targets: seq<Path>, target: Path)
    requires Exported(before, mid, blobs, names, hashes, root, targets) && |targets| < |hashes|
    requires Extends(mid, after, [target])
    requires OnDisk(mid, after, blobs, names[|targets|], hashes[|targets|], root, target)
    ensures Exported(before, after, blobs, names, hashes, root, targets + [target])
  {
    var more := targets + [target];
    forall p | p in after && p !in before && after[p].File? ensures p in more {
      if p !in mid {
        assert p in [target];
      }
    }
    forall i | 0 <= i < |targets| ensures OnDisk(before, after, blobs, names[i], hashes[i], root, targets[i]) {
      LandingLasts(mid, after, ExportPath(root, names[i]), targets[i]);
    }
    assert OnDisk(before, after, blobs, names[|targets|], hashes[|targets|], root, target);
  }

  /** A failed entry leaves the entries before it as they were, and would fail again. */
  lemma {:induction false} ExportedStill(
      before: Tree, mid: Tree, after: Tree, blobs: map<Hash, Content>, names: seq<string>, hashes: seq<Hash>,
      root: Path, targets: seq<Path>)
    requires Exported(before, mid, blobs, names, hashes, root, targets) && Extends(mid, after, [])
    ensures Exported(before, after, blobs, names, hashes, root, targets)
  {
    forall i | 0 <= i < |targets| ensures OnDisk(before, after, blobs, names[i], hashes[i], root, targets[i]) {
      LandingLasts(mid, after, ExportPath(root, names[i]), targets[i]);
    }
  }

  lemma {:induction false} FailureLasts(
      mid: Tree, after: Tree, blobs: map<Hash, Content>, name: string, hash: Hash, root: Path)
    requires Fails(mid, blobs, name, hash, root) && Extends(mid, after, [])
    ensures Fails(after, blobs, name, hash, root)
  {
  }

  class FileSystem {
    var tree: Tree

    /** `create_dir_all`: fails when a file is in the way. */
    method CreateDirs(dir: Path) returns (ok: bool)
      modifies this
      ensures forall p :: p in old(tree) ==> p in tree && tree[p] == old(tree)[p]
      ensures forall p :: p in tree && p !in old(tree) ==> p <= dir && tree[p].Directory?
      ensures ok <==> !Blocked(old(tree), dir)
      ensures ok ==> forall k :: 1 <= k <= |dir| ==> dir[..k] in tree && tree[dir[..k]].Directory?
    {
      for k := 1 to |dir| + 1
        invariant forall p :: p in old(tree) ==> p in tree && tree[p] == old(tree)[p]
        invariant forall p :: p in tree && p !in old(tree) ==> p <= dir && tree[p].Directory?
        invariant forall j :: 1 <= j < k ==> dir[..j] in tree && tree[dir[..j]].Directory?
      {
        assert dir[..k] in tree && tree[dir[..k]].File? ==> dir[..k] in old(tree);
        if dir[..k] in tree && tree[dir[..k]].File? {
          return false;
        }
        tree := tree[dir[..k] := Directory];
      }
      return true;
    }

    /** Where the next entry goes, and whether that is not where its name says. */
    method ChooseTarget(root: Path, name: string) returns (target: Option<Path>)
      ensures target.Some? ==>
                && ValidName(name)
                && target.value !in tree
                && IsUnder(root, target.value)
                && LandsOn(tree, ExportPath(root, name), target.value)
                && target.value[..|target.value| - 1] == ExportPath(root, name)[..|ExportPath(root, name)| - 1]
                && (target.value == ExportPath(root, name) <==> ExportPath(root, name) !in tree)
      ensures target.None? <==>
                || !ValidName(name)
                || (var p := ExportPath(root, name);
                    p in tree && forall i :: 1 <= i <= LAST_INDEX ==> Candidate(p, i) in tree)
    {
      var desired := GetExportPath(root, name);
      if desired.None? {
        return None;
      }
      if desired.value !in tree {
        return desired;
      }
      target := ResolveConflictPath(tree, desired.value);
      if target.Some? {
        assert root <= target.value;
      }
    }

    /** One entry: choose a free path, make its directory, write the blob. */
    method ExportEntry(blobs: map<Hash, Content>, name: string, hash: Hash, root: Path)
      returns (target: Option<Path>)
      modifies this
      ensures Extends(old(tree), tree, if target.Some? then [target.value] else [])
      ensures target.None? <==> Fails(old(tree), blobs, name, hash, root)
      ensures target.Some? ==>
                && OnDisk(old(tree), tree, blobs, name, hash, root, target.value)
                && (target.value == ExportPath(root, name) <==> ExportPath(root, name) !in old(tree))
    {
      target := ChooseTarget(root, name);
      if target.None? {
        return;
      }
      var parent := target.value[..|target.value| - 1];
      var made := CreateDirs(parent);
      assert target.value !in tree || target.value <= parent;
      if !made || hash !in blobs {
        return None;
      }
      tree := tree[target.value := File(blobs[hash])];
      LandingLasts(old(tree), tree, ExportPath(root, name), target.value);
    }

    /**
      Exports the entries in order and stops at the first failure. Whatever the outcome, nothing
      that existed is changed, and the new files are exactly the entries exported so far.
     */
    method ExportToDirectory(blobs: map<Hash, Content>, names: seq<string>, hashes: seq<Hash>, root: Path)
      returns (conflicts: Option<seq<Conflict>>, ghost targets: seq<Path>)
      requires |names| == |hashes|
      modifies this
      ensures Exported(old(tree), tree, blobs, names, hashes, root, targets)
      ensures conflicts.None? ==>
                |targets| < |names| && Fails(tree, blobs, names[|targets|], hashes[|targets|], root)
      ensures conflicts.Some? ==> |targets| == |names| && conflicts.value == ConflictsOf(root, names, targets)
    {
      var found: seq<Conflict> := [];
      targets := [];
      for n := 0 to |names|
        invariant |targets| == n
        invariant Exported(old(tree), tree, blobs, names, hashes, root, targets)
        invariant found == ConflictsOf(root, names, targets)
      {
        ghost var mid := tree;
        var target := ExportEntry(blobs, names[n], hashes[n], root);
        if target.None? {
          FailureLasts(mid, tree, blobs, names[n], hashes[n], root);
          ExportedStill(old(tree), mid, tree, blobs, names, hashes, root, targets);
          return None, targets;
        }
        if target.value != ExportPath(root, names[n]) {
          found := found + [Conflict(ExportPath(root, names[n]), target.value)];
        }
        ExportedOneMore(old(tree), mid, tree, blobs, names, hashes, root, targets, target.value);
        assert (targets + [target.value])[..n] == targets;
        targets := targets + [target.value];
      }
      return Some(found), targets;
    }
  }
}
