/**
  Which path a history row opens (src-tauri/src/commands.rs, `resolve_open_target`).

  Paths are sequences of components; an absolute path starts with the root component, and the
  root and the empty path have no parent.
 */
module OpenTarget {
  import opened Common
  import opened Counting

  type Path = seq<string>

  const ROOT := "/"

  /** A recorded name, as its components; absolute names and climbing ones did not come from the transfer. */
  datatype Name = Name(absolute: bool, climbs: bool, parts: seq<string>)

  function Parent(p: Path): Option<Path> {
    if p == [] || p == [ROOT] then None else Some(p[..|p| - 1])
  }

  /** The recorded names that are inside the destination and still exist. */
  function Survivors(base: Path, names: seq<Name>, onDisk: set<Path>): seq<Path> {
    if names == [] then []
    else
      var n := names[|names| - 1];
      Survivors(base, names[..|names| - 1], onDisk)
      + (if !n.absolute && !n.climbs && base + n.parts in onDisk then [base + n.parts] else [])
  }

  /** A name counts when it is relative, does not climb, and its path under the destination exists. */
  predicate Survives(base: Path, n: Name, onDisk: set<Path>) {
    n.absolute == false && n.climbs == false && base + n.parts in onDisk
  }

  /** There is one survivor for each name that counts, under the destination, and no other. */
  lemma {:induction false} SurvivorsAre(base: Path, names: seq<Name>, onDisk: set<Path>)
    ensures |Survivors(base, names, onDisk)| == Count(names, n => Survives(base, n, onDisk))
    ensures forall p :: p in Survivors(base, names, onDisk) <==>
                          exists n :: n in names && Survives(base, n, onDisk) && p == base + n.parts
  {
    if names != [] {
      var last := |names| - 1;
      SurvivorsAre(base, names[..last], onDisk);
      assert names == names[..last] + [names[last]];
    }
  }

  lemma {:induction false} SurvivorsAreInside(base: Path, names: seq<Name>, onDisk: set<Path>)
    ensures forall p :: p in Survivors(base, names, onDisk) ==> base <= p
  {
    if names != [] {
      SurvivorsAreInside(base, names[..|names| - 1], onDisk);
    }
  }

  /** `q` is an ancestor of (or equal to) every one of `ps`. */
  ghost predicate Above(q: Path, ps: seq<Path>) {
    forall i :: 0 <= i < |ps| ==> q <= ps[i]
  }

  /** `c` is a common ancestor of all of `ps`, and every other common ancestor is an ancestor of `c`. */
  ghost predicate IsDeepest(c: Path, ps: seq<Path>) {
    Above(c, ps) && forall q :: Above(q, ps) ==> q <= c
  }

  /** `r` is the meet of `c` and `p` in the ancestor order. */
  ghost predicate IsMeet(r: Path, c: Path, p: Path) {
    Above(r, [c, p]) && forall q :: Above(q, [c, p]) ==> q <= r
  }

  /** The folders that hold the given paths. */
  function Folders(ps: seq<Path>): seq<Path>
    requires forall i :: 0 <= i < |ps| ==> ps[i] != []
  {
    seq(|ps|, i requires 0 <= i < |ps| => ps[i][..|ps[i]| - 1])
  }

  /** There is one deepest common folder, and it does not depend on the order of the names. */
  lemma {:induction false} DeepestIsUnique(c: Path, d: Path, ps: seq<Path>, qs: seq<Path>)
    requires IsDeepest(c, ps) && IsDeepest(d, qs) && forall p :: p in ps <==> p in qs
    ensures c == d
  {
    assert Above(c, qs) by {
      forall i | 0 <= i < |qs| ensures c <= qs[i] { assert qs[i] in ps; }
    }
    assert Above(d, ps) by {
      forall i | 0 <= i < |ps| ensures d <= ps[i] { assert ps[i] in qs; }
    }
  }

  lemma {:induction false} DeepestOfMore(c: Path, ps: seq<Path>, p: Path, d: Path)
    requires IsDeepest(c, ps) && IsMeet(d, c, p)
    ensures IsDeepest(d, ps + [p])
  {
    var all := ps + [p];
    assert d <= [c, p][0] && d <= [c, p][1];
    assert Above(d, all);
    forall q | Above(q, all) ensures q <= d {
      assert q <= all[|ps|] == p;
      assert Above(q, ps) by {
        forall i | 0 <= i < |ps| ensures q <= ps[i] { assert all[i] == ps[i]; }
      }
      assert Above(q, [c, p]);
    }
  }

  /** Walks up from `common` until it contains `parent`; None when it runs out of parents first. */
  method NarrowTo(common: Path, parent: Path) returns (r: Option<Path>)
    ensures r.Some? ==> IsMeet(r.value, common, parent)
    ensures r.None? <==> [ROOT] <= common && !([ROOT] <= parent)
  {
    var c := common;
    forall q | Above(q, [common, parent]) ensures q <= c {
      assert q <= [common, parent][0];
    }
    while !(c <= parent)
      invariant c <= common
      invariant forall q: Path :: Above(q, [common, parent]) ==> q <= c
      invariant [ROOT] <= common && !([ROOT] <= parent) ==> [ROOT] <= c
      decreases |c|
    {
      var up := Parent(c);
      if up.None? {
        return None;
      }
      forall q | Above(q, [common, parent]) ensures q <= up.value {
        assert q <= [common, parent][1];
        assert |q| == |c| ==> q == c;
      }
      c := up.value;
    }
    assert Above(c, [common, parent]);
    return Some(c);
  }

  /** The narrowing loop over all survivors; None stands for its two early returns. */
  method CommonFolder(start: Path, ps: seq<Path>) returns (r: Option<Path>)
    requires ps != [] && Parent(ps[0]) == Some(start)
    requires forall i :: 0 <= i < |ps| ==> ps[i] != [] && (ps[i][0] == ROOT <==> ps[0][0] == ROOT)
    ensures r.None? <==> [ROOT] in ps
    ensures r.Some? ==> IsDeepest(r.value, Folders(ps))
  {
    var common := start;
    ghost var seen := [start];
    assert IsDeepest(common, seen) by {
      assert Above(common, seen);
      forall q | Above(q, seen) ensures q <= common { assert q <= seen[0]; }
    }
    for i := 1 to |ps|
      invariant seen == Folders(ps[..i])
      invariant [ROOT] !in ps[..i]
      invariant IsDeepest(common, seen)
    {
      var parent := Parent(ps[i]);
      if parent.None? {
        assert ps[i] in ps;
        return None;
      }
      var narrowed := NarrowTo(common, parent.value);
      assert common <= seen[0] && seen[0] <= ps[0] && parent.value <= ps[i];
      assert [ROOT] <= common ==> ps[0][0] == ROOT;
      assert narrowed.Some?;
      DeepestOfMore(common, seen, parent.value, narrowed.value);
      common := narrowed.value;
      seen := seen + [parent.value];
    }
    assert ps[..|ps|] == ps;
    return Some(common);
  }

  /**
    The file when one survives, the deepest folder that contains them when several do, nothing
    when none does. That folder lies inside the destination unless a recorded name was empty;
    the loop's fallback to the destination is taken only for an empty name under the root.
   */
  method ResolveOpenTarget(base: Path, names: seq<Name>, onDisk: set<Path>) returns (target: Option<Path>)
    ensures base == [] ==> target.None?
    ensures var ps := Survivors(base, names, onDisk);
            base != [] ==>
              && (ps == [] ==> target == if names == [] && base in onDisk then Some(base) else None)
              && (|ps| == 1 ==> target == Some(ps[0]))
              && (|ps| >= 2 && [ROOT] in ps ==> target == if ps[0] == [ROOT] then None else Some(base))
              && (|ps| >= 2 && [ROOT] !in ps ==>
                    && target.Some?
                    && (forall i :: 0 <= i < |ps| ==> ps[i] != [])
                    && IsDeepest(target.value, Folders(ps))
                    && (base <= target.value <==> base !in ps))
  {
    if base == [] {
      return None;
    }
    var ps := Survivors(base, names, onDisk);
    SurvivorsAreInside(base, names, onDisk);
    if ps == [] {
      return if names == [] && base in onDisk then Some(base) else None;
    }
    if |ps| == 1 {
      return Some(ps[0]);
    }
    forall i | 0 <= i < |ps| ensures ps[i] in ps && base <= ps[i] {
      assert ps[i] in ps;
    }
    var first := Parent(ps[0]);
    if first.None? {
      return None;
    }
    var common := CommonFolder(first.value, ps);
    if common.Some? {
      InsideIffNoEmptyName(base, ps, common.value);
      return common;
    }
    return Some(base);
  }

  lemma {:induction false} InsideIffNoEmptyName(base: Path, ps: seq<Path>, c: Path)
    requires forall i :: 0 <= i < |ps| ==> ps[i] != [] && base <= ps[i]
    requires IsDeepest(c, Folders(ps))
    ensures base <= c <==> base !in ps
  {
    var fs := Folders(ps);
    if base in ps {
      var i :| 0 <= i < |ps| && ps[i] == base;
      assert c <= fs[i];
    } else {
      forall i | 0 <= i < |fs| ensures base <= fs[i] {
        assert ps[i] in ps && ps[i] != base;
      }
      assert Above(base, fs);
    }
  }

  /** An empty recorded name beside a file: the target is the parent of the destination. */
  lemma {:induction false} EmptyNameLeavesDestination()
    ensures var base, file := ["/", "save"], ["/", "save", "a"];
            var names := [Name(false, false, []), Name(false, false, ["a"])];
            && Survivors(base, names, {base, file}) == [base, file]
            && IsDeepest(["/"], Folders([base, file]))
            && !(base <= ["/"])
  {
    var base, file := ["/", "save"], ["/", "save", "a"];
    var empty, named := Name(false, false, []), Name(false, false, ["a"]);
    assert base + [] == base && base + ["a"] == file;
    assert [empty, named][..1] == [empty] && [empty][..0] == [];
    assert Survivors(base, [empty], {base, file}) == [base];
    var fs := Folders([base, file]);
    assert base[..1] == ["/"] && file[..2] == base;
    assert fs == [["/"], base];
    forall q | Above(q, fs) ensures q <= ["/"] {
      assert q <= fs[0];
    }
    assert Above(["/"], fs);
  }
}
