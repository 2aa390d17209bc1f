/**
 * Directory roots and what they cover (entities/src/sandbox/roots.rs), and the reduction of a list of
 * roots to the dominant ones (adapters/src/apps_file/roots.rs).
 */
module Roots {
  const ROOT_PATH := "/"

  function TrimSlashes(path: string): string {
    if path != "" && path[|path| - 1] == '/' then TrimSlashes(path[..|path| - 1]) else path
  }

  function Normalize(root: string): (normal: string)
    ensures normal != ""
  {
    if TrimSlashes(root) == "" then ROOT_PATH else TrimSlashes(root)
  }

  predicate IsAbsolute(path: string) {
    path != "" && path[0] == '/'
  }

  predicate EndsAtBoundary(rest: string) {
    rest == "" || rest[0] == '/'
  }

  /** `covers_path`: the parent is the child or one of its ancestors. */
  predicate Covers(parent: string, child: string) {
    CoversNormal(Normalize(parent), Normalize(child))
  }

  predicate CoversNormal(parent: string, child: string) {
    parent == ROOT_PATH
    || (|parent| <= |child| && child[..|parent|] == parent && EndsAtBoundary(child[|parent|..]))
  }

  predicate OnlySlashes(text: string) { forall c <- text :: c == '/' }

  lemma {:induction false} TrimIsExact(path: string)
    ensures var trimmed := TrimSlashes(path);
            && trimmed <= path && OnlySlashes(path[|trimmed|..])
            && (trimmed == "" || trimmed[|trimmed| - 1] != '/')
  {
    if path != "" && path[|path| - 1] == '/' {
      var shorter := path[..|path| - 1];
      TrimIsExact(shorter);
      var trimmed := TrimSlashes(shorter);
      assert path[|trimmed|..] == shorter[|trimmed|..] + "/";
    }
  }

  /** A root stands for itself without the slashes it ends in, or for the root directory if it is nothing else. */
  lemma NormalizeIsExact(root: string)
    ensures var normal := Normalize(root);
            if OnlySlashes(root) then normal == "/"
            else normal <= root && OnlySlashes(root[|normal|..]) && normal[|normal| - 1] != '/'
  {
    TrimIsExact(root);
    hide TrimSlashes;
    var trimmed := TrimSlashes(root);
    if trimmed == "" {
      assert root[0..] == root;
    } else {
      assert root[|trimmed| - 1] == trimmed[|trimmed| - 1] && root[|trimmed| - 1] in root;
    }
  }

  /** One path covers another when it is the root directory, the same path, or a directory above it. */
  lemma CoversExactly(parent: string, child: string)
    ensures var above, below := Normalize(parent), Normalize(child);
            Covers(parent, child) <==> above == "/" || above == below || above + "/" <= below
  {
    hide Normalize;
    var above, below := Normalize(parent), Normalize(child);
    if |above| < |below| && above <= below {
      assert below[|above|..][0] == below[|above|];
      assert below[..|above| + 1] == above + [below[|above|]];
    }
  }

  lemma {:induction false} TrimIsIdempotent(path: string)
    ensures TrimSlashes(TrimSlashes(path)) == TrimSlashes(path)
  {
    if path != "" && path[|path| - 1] == '/' {
      TrimIsIdempotent(path[..|path| - 1]);
    }
  }

  lemma NormalizeIsIdempotent(root: string)
    ensures Normalize(Normalize(root)) == Normalize(root)
  {
    TrimIsIdempotent(root);
    if TrimSlashes(root) == "" {
      assert ROOT_PATH[..0] == "";
      assert TrimSlashes(ROOT_PATH) == TrimSlashes(ROOT_PATH[..0]);
    }
  }

  lemma CoversIsReflexive(root: string)
    ensures Covers(root, root)
  {
  }

  lemma CoversIsTransitive(a: string, b: string, c: string)
    requires Covers(a, b) && Covers(b, c)
    ensures Covers(a, c)
  {
    var first, middle, last := Normalize(a), Normalize(b), Normalize(c);
    if first != ROOT_PATH {
      if middle != ROOT_PATH {
        assert last[..|first|] == last[..|middle|][..|first|] == first;
        assert last[|first|..] == middle[|first|..] + last[|middle|..];
      }
    }
  }

  /** Two roots that cover each other are the same root, up to trailing slashes. */
  lemma CoversIsAntisymmetric(a: string, b: string)
    requires Covers(a, b) && Covers(b, a)
    ensures Normalize(a) == Normalize(b)
  {
    var first, second := Normalize(a), Normalize(b);
    if first != ROOT_PATH && second != ROOT_PATH {
      assert second[..|first|] == first;
    }
  }

  // ----- dominant roots -----

  function Dedup(candidates: seq<string>): seq<string> {
    if candidates == [] then []
    else
      var earlier := Dedup(candidates[..|candidates| - 1]);
      var last := candidates[|candidates| - 1];
      if last in earlier then earlier else earlier + [last]
  }

  method DedupRoots(candidates: seq<string>) returns (roots: seq<string>)
    ensures roots == Dedup(candidates)
  {
    roots := [];
    for i := 0 to |candidates|
      invariant roots == Dedup(candidates[..i])
    {
      assert candidates[..i + 1][..i] == candidates[..i];
      if candidates[i] !in roots {
        roots := roots + [candidates[i]];
      }
    }
    assert candidates[..|candidates|] == candidates;
  }

  lemma {:induction false} DedupHolds(candidates: seq<string>, root: string)
    ensures root in Dedup(candidates) <==> root in candidates
  {
    if candidates != [] {
      DedupHolds(candidates[..|candidates| - 1], root);
      assert candidates == candidates[..|candidates| - 1] + [candidates[|candidates| - 1]];
    }
  }

  /** `is_covered_by`: of two spellings of one root the earlier wins. */
  predicate IsCoveredBy(index: nat, root: string, otherIndex: nat, other: string) {
    if Normalize(other) == Normalize(root) then otherIndex < index else Covers(other, root)
  }

  predicate CoveredByAnother(index: nat, roots: seq<string>)
    requires index < |roots|
  {
    exists other :: 0 <= other < |roots| && other != index && IsCoveredBy(index, roots[index], other, roots[other])
  }

  method IsCoveredByAnother(index: nat, root: string, roots: seq<string>) returns (covered: bool)
    requires index < |roots| && root == roots[index]
    ensures covered == CoveredByAnother(index, roots)
  {
    for other := 0 to |roots|
      invariant forall k :: 0 <= k < other && k != index ==> !IsCoveredBy(index, root, k, roots[k])
    {
      if other == index {
        continue;
      }
      if IsCoveredBy(index, root, other, roots[other]) {
        return true;
      }
    }
    return false;
  }

  /** The roots before position `n` that no other root covers, in order. */
  function Uncovered(roots: seq<string>, n: nat): seq<string>
    requires n <= |roots|
  {
    if n == 0 then []
    else Uncovered(roots, n - 1) + if CoveredByAnother(n - 1, roots) then [] else [roots[n - 1]]
  }

  function Dominant(candidates: seq<string>): seq<string> {
    Uncovered(Dedup(candidates), |Dedup(candidates)|)
  }

  method DominantRoots(candidates: seq<string>) returns (kept: seq<string>)
    ensures kept == Dominant(candidates)
  {
    var deduped := DedupRoots(candidates);
    kept := [];
    for i := 0 to |deduped|
      invariant kept == Uncovered(deduped, i)
    {
      var covered := IsCoveredByAnother(i, deduped[i], deduped);
      if !covered {
        kept := kept + [deduped[i]];
      }
    }
  }

  lemma {:induction false} UncoveredHolds(roots: seq<string>, n: nat, i: nat)
    requires i < n <= |roots| && !CoveredByAnother(i, roots)
    ensures roots[i] in Uncovered(roots, n)
  {
    hide CoveredByAnother;
    if i < n - 1 {
      UncoveredHolds(roots, n - 1, i);
    }
  }

  /** Where an element of the result stands in the list it was taken from. */
  lemma {:induction false} UncoveredAt(roots: seq<string>, n: nat, k: nat) returns (i: nat)
    requires n <= |roots| && k < |Uncovered(roots, n)|
    ensures i < n && roots[i] == Uncovered(roots, n)[k] && !CoveredByAnother(i, roots)
    ensures |Uncovered(roots, i)| == k
  {
    hide CoveredByAnother;
    if k == |Uncovered(roots, n)| - 1 && !CoveredByAnother(n - 1, roots) {
      i := n - 1;
    } else {
      assert Uncovered(roots, n)[k] == Uncovered(roots, n - 1)[k];
      i := UncoveredAt(roots, n - 1, k);
    }
  }

  /** How far a root is from the top; strictly larger for what it covers. */
  function Depth(root: string): nat {
    if Normalize(root) == ROOT_PATH then 0 else |Normalize(root)|
  }

  lemma CoveringIsShallower(parent: string, child: string)
    requires Covers(parent, child) && Normalize(parent) != Normalize(child)
    ensures Depth(parent) < Depth(child)
  {
    var outer, inner := Normalize(parent), Normalize(child);
    if outer != ROOT_PATH {
      assert inner[..|outer|] == outer;
    }
  }

  /** Above every root stands one that nothing covers. */
  lemma {:induction false} SomeRootStays(roots: seq<string>, i: nat) returns (top: nat)
    requires i < |roots|
    ensures top < |roots| && !CoveredByAnother(top, roots) && Covers(roots[top], roots[i])
    decreases Depth(roots[i]), i
  {
    hide Normalize, Depth, CoversNormal;
    CoversIsReflexive(roots[i]);
    if CoveredByAnother(i, roots) {
      var other: nat :| other < |roots| && other != i && IsCoveredBy(i, roots[i], other, roots[other]);
      if Normalize(roots[other]) != Normalize(roots[i]) {
        CoveringIsShallower(roots[other], roots[i]);
      } else {
        SameDepth(roots[other], roots[i]);
      }
      top := SomeRootStays(roots, other);
      CoversIsTransitive(roots[top], roots[other], roots[i]);
    } else {
      top := i;
    }
  }

  lemma SameDepth(a: string, b: string)
    requires Normalize(a) == Normalize(b)
    ensures Depth(a) == Depth(b) && Covers(a, b)
  {
  }

  ghost predicate SomeCovers(roots: seq<string>, path: string) {
    exists root <- roots :: Covers(root, path)
  }

  lemma {:induction false} UncoveredComes(roots: seq<string>, n: nat, root: string)
    requires n <= |roots| && root in Uncovered(roots, n)
    ensures root in roots
  {
    hide CoveredByAnother;
    if root in Uncovered(roots, n - 1) {
      UncoveredComes(roots, n - 1, root);
    }
  }

  /** The reduced list covers exactly the same paths. */
  lemma DominantCoversTheSame(candidates: seq<string>, path: string)
    ensures SomeCovers(Dominant(candidates), path) <==> SomeCovers(candidates, path)
  {
    hide Covers, Uncovered, CoveredByAnother, Dedup;
    var roots := Dedup(candidates);
    if SomeCovers(candidates, path) {
      var root :| root in candidates && Covers(root, path);
      DedupHolds(candidates, root);
      var i: nat :| i < |roots| && roots[i] == root;
      var top := SomeRootStays(roots, i);
      UncoveredHolds(roots, |roots|, top);
      CoversIsTransitive(roots[top], root, path);
    }
    if SomeCovers(Dominant(candidates), path) {
      var root :| root in Dominant(candidates) && Covers(root, path);
      UncoveredComes(roots, |roots|, root);
      DedupHolds(candidates, root);
    }
  }

  /** No root of the reduced list covers another. */
  lemma DominantIsAntichain(candidates: seq<string>, k: nat, l: nat)
    requires k < |Dominant(candidates)| && l < |Dominant(candidates)| && k != l
    ensures !Covers(Dominant(candidates)[k], Dominant(candidates)[l])
  {
    hide Covers, Uncovered, Dedup, Normalize;
    var roots := Dedup(candidates);
    var i := UncoveredAt(roots, |roots|, k);
    var j := UncoveredAt(roots, |roots|, l);
    assert i != j;
  }
}
