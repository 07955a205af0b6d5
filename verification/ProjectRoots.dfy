/** Canonical project roots and the overlap test that decides whether two daemons
    may coexist (chunkhound/daemon/discovery.py, `_roots_overlap`). */
module ProjectRoots {

  /** A canonical absolute path, as its sequence of components. */
  type Root = seq<string>

  /** `path.relative_to(base)` succeeds exactly when `base` is a leading run of components. */
  predicate IsRelativeTo(path: Root, base: Root) {
    base <= path
  }

  predicate RootsOverlap(a: Root, b: Root) {
    if a == b then true
    else if IsRelativeTo(b, a) then true
    else IsRelativeTo(a, b)
  }

  /** What the test means: two roots overlap exactly when some path lies under both, so that
      daemons on non-overlapping roots never index a common file. */
  lemma OverlapMeansSharedPath(a: Root, b: Root)
    ensures RootsOverlap(a, b) <==> exists path: Root :: IsRelativeTo(path, a) && IsRelativeTo(path, b)
    ensures RootsOverlap(a, b) == RootsOverlap(b, a)
  {
    if RootsOverlap(a, b) {
      var path := if a <= b then b else a;
      assert IsRelativeTo(path, a) && IsRelativeTo(path, b);
    }
    forall path: Root | IsRelativeTo(path, a) && IsRelativeTo(path, b)
      ensures RootsOverlap(a, b)
    {
      assert path[..|a|] == a && path[..|b|] == b;
      if |a| <= |b| {
        assert b[..|a|] == path[..|b|][..|a|] == a;
      } else {
        assert a[..|b|] == path[..|a|][..|b|] == b;
      }
    }
  }
}
