/**
 * The sandbox policy (entities/src/sandbox/policy.rs) and the mounts it becomes
 * (adapters/src/sandbox/bwrap.rs). A later mount hides an earlier one wherever both cover a path.
 */
module Sandbox {
  import opened Graphs
  import opened Model
  import opened Roots

  // ----- the policy -----

  function GrantedRoots(policy: SandboxPolicy): seq<string> { policy.writableRoots + policy.derivedRoots }

  function ReadableGrants(policy: SandboxPolicy): seq<string> { policy.readableRoots + policy.derivedReadableRoots }

  datatype PolicyError =
    | EmptyWritableRoot | RelativeWritableRoot(root: string)
    | EmptyDerivedRoot | RelativeDerivedRoot(root: string)
    | EmptyReadableRoot | RelativeReadableRoot(root: string)
    | WritableRootsWithoutWriteAccess
    | WritableRootCoversHiddenRoot(root: string, hidden: string)

  function ValidateRoots(roots: seq<string>, empty: PolicyError, relative: string -> PolicyError): Option<PolicyError> {
    if roots == [] then None
    else if roots[0] == "" then Some(empty)
    else if !IsAbsolute(roots[0]) then Some(relative(roots[0]))
    else ValidateRoots(roots[1..], empty, relative)
  }

  function FirstCovered(root: string, hidden: seq<string>): Option<string> {
    if hidden == [] then None
    else if Covers(root, hidden[0]) then Some(hidden[0])
    else FirstCovered(root, hidden[1..])
  }

  function ValidateHidden(granted: seq<string>, hidden: seq<string>): Option<PolicyError> {
    if granted == [] then None
    else if FirstCovered(granted[0], hidden).Some? then
      Some(WritableRootCoversHiddenRoot(granted[0], FirstCovered(granted[0], hidden).value))
    else ValidateHidden(granted[1..], hidden)
  }

  function OrElse(first: Option<PolicyError>, second: Option<PolicyError>): Option<PolicyError> {
    if first.Some? then first else second
  }

  /** `validate_policy`: the first reason to refuse the policy, if any. */
  function ValidatePolicy(policy: SandboxPolicy): Option<PolicyError> {
    if policy.mode.ReadOnly? && GrantedRoots(policy) != [] then Some(WritableRootsWithoutWriteAccess)
    else
      OrElse(ValidateRoots(policy.writableRoots, EmptyWritableRoot, r => RelativeWritableRoot(r)),
        OrElse(ValidateRoots(policy.derivedRoots, EmptyDerivedRoot, r => RelativeDerivedRoot(r)),
          OrElse(ValidateRoots(policy.readableRoots, EmptyReadableRoot, r => RelativeReadableRoot(r)),
            ValidateHidden(GrantedRoots(policy), policy.unreadableRoots))))
  }

  predicate AllAbsolute(roots: seq<string>) { forall root <- roots :: IsAbsolute(root) }

  predicate NoneCovered(granted: seq<string>, hidden: seq<string>) {
    forall root <- granted, path <- hidden :: !Covers(root, path)
  }

  lemma AbsoluteIsNotEmpty(path: string)
    ensures IsAbsolute(path) ==> path != ""
  {
  }

  lemma {:induction false} RootsAreValid(roots: seq<string>, empty: PolicyError, relative: string -> PolicyError)
    ensures ValidateRoots(roots, empty, relative).None? <==> AllAbsolute(roots)
  {
    hide IsAbsolute;
    if roots != [] {
      RootsAreValid(roots[1..], empty, relative);
      assert roots[0] in roots && (IsAbsolute(roots[0]) ==> roots[0] != "") by { AbsoluteIsNotEmpty(roots[0]); }
      forall root <- roots ensures root == roots[0] || root in roots[1..] {
      }
      forall root <- roots[1..] ensures root in roots {
      }
    }
  }

  lemma {:induction false} FirstCoveredHolds(root: string, hidden: seq<string>)
    ensures FirstCovered(root, hidden).None? <==> forall path <- hidden :: !Covers(root, path)
  {
    hide Covers;
    if hidden != [] {
      FirstCoveredHolds(root, hidden[1..]);
      assert hidden == [hidden[0]] + hidden[1..];
    }
  }

  lemma {:induction false} HiddenStaysHidden(granted: seq<string>, hidden: seq<string>)
    ensures ValidateHidden(granted, hidden).None? <==> NoneCovered(granted, hidden)
  {
    hide Covers;
    if granted != [] {
      FirstCoveredHolds(granted[0], hidden);
      HiddenStaysHidden(granted[1..], hidden);
      assert granted == [granted[0]] + granted[1..];
    }
  }

  /** Exactly which policies are accepted. */
  lemma ValidationIsExact(policy: SandboxPolicy)
    ensures ValidatePolicy(policy).None? <==>
              var granted := policy.writableRoots + policy.derivedRoots;
              && (policy.mode.ReadOnly? ==> granted == [])
              && AllAbsolute(granted) && AllAbsolute(policy.readableRoots)
              && NoneCovered(granted, policy.unreadableRoots)
  {
    hide ValidateRoots, ValidateHidden, Covers, IsAbsolute;
    RootsAreValid(policy.writableRoots, EmptyWritableRoot, r => RelativeWritableRoot(r));
    RootsAreValid(policy.derivedRoots, EmptyDerivedRoot, r => RelativeDerivedRoot(r));
    RootsAreValid(policy.readableRoots, EmptyReadableRoot, r => RelativeReadableRoot(r));
    HiddenStaysHidden(GrantedRoots(policy), policy.unreadableRoots);
  }

  // ----- the mounts -----

  datatype MountKind = Bind | ReadOnlyBind | ReadOnlyBindTry | Tmpfs | Devices | Processes

  datatype Mount = Mount(kind: MountKind, dest: string)

  function MountAll(kind: MountKind, paths: seq<string>): seq<Mount> {
    if paths == [] then [] else [Mount(kind, Normalize(paths[0]))] + MountAll(kind, paths[1..])
  }

  function ReadLayer(minimal: seq<string>, policy: SandboxPolicy, program: string): seq<Mount> {
    if policy.read.Full? then [Mount(ReadOnlyBind, ROOT_PATH)]
    else
      [Mount(Tmpfs, ROOT_PATH)]
      + MountAll(ReadOnlyBindTry, minimal + ReadableGrants(policy))
      + [Mount(ReadOnlyBindTry, program)]
  }

  const DEVICE_LAYER := [Mount(Devices, "/dev"), Mount(Processes, "/proc")]

  function Slashes(path: string): nat {
    if path == "" then 0 else (if path[0] == '/' then 1 else 0) + Slashes(path[1..])
  }

  function Shallowness(root: string): nat { Slashes(Normalize(root)) }

  function InsertRoot(sorted: seq<string>, root: string): seq<string> {
    if sorted == [] || Shallowness(sorted[|sorted| - 1]) <= Shallowness(root) then sorted + [root]
    else InsertRoot(sorted[..|sorted| - 1], root) + [sorted[|sorted| - 1]]
  }

  /** `shallowest_first`: a stable sort by the number of separators. */
  function ShallowestFirst(roots: seq<string>): seq<string> {
    if roots == [] then [] else InsertRoot(ShallowestFirst(roots[..|roots| - 1]), roots[|roots| - 1])
  }

  predicate Encloses(root: string, path: string) {
    Covers(root, path) && Normalize(root) != path
  }

  predicate EnclosedBySome(granted: seq<string>, path: string) {
    exists root <- granted :: Encloses(root, path)
  }

  /** `nested_in`: the hidden paths strictly inside a granted root. */
  function NestedIn(hidden: seq<string>, granted: seq<string>): seq<string> {
    if hidden == [] then []
    else (if EnclosedBySome(granted, Normalize(hidden[0])) then [Normalize(hidden[0])] else [])
         + NestedIn(hidden[1..], granted)
  }

  function Verbatim(kind: MountKind, paths: seq<string>): seq<Mount> {
    if paths == [] then [] else [Mount(kind, paths[0])] + Verbatim(kind, paths[1..])
  }

  /** Everything mounted, in order. */
  function Mounts(minimal: seq<string>, policy: SandboxPolicy, program: string): seq<Mount> {
    var granted := ShallowestFirst(GrantedRoots(policy));
    ReadLayer(minimal, policy, program)
    + (DEVICE_LAYER
       + (MountAll(Tmpfs, policy.unreadableRoots)
          + (MountAll(Bind, granted)
             + Verbatim(Tmpfs, NestedIn(policy.unreadableRoots, granted)))))
  }

  // ----- the last covering mount wins -----

  /** A `-try` mount is skipped when its source is missing. */
  predicate Applies(m: Mount, present: string -> bool) {
    m.kind.ReadOnlyBindTry? ==> present(m.dest)
  }

  function Effective(mounts: seq<Mount>, present: string -> bool, path: string): Option<Mount> {
    if mounts == [] then None
    else
      var last := mounts[|mounts| - 1];
      if Applies(last, present) && Covers(last.dest, path) then Some(last)
      else Effective(mounts[..|mounts| - 1], present, path)
  }

  lemma {:induction false} LaterMountsWin(a: seq<Mount>, b: seq<Mount>, present: string -> bool, path: string)
    ensures Effective(a + b, present, path) ==
              if Effective(b, present, path).Some? then Effective(b, present, path) else Effective(a, present, path)
  {
    hide Covers, Applies;
    if b == [] {
      assert a + b == a;
    } else {
      assert (a + b)[|a + b| - 1] == b[|b| - 1] && (a + b)[..|a + b| - 1] == a + b[..|b| - 1];
      LaterMountsWin(a, b[..|b| - 1], present, path);
    }
  }

  lemma {:induction false} EffectiveIsMounted(mounts: seq<Mount>, present: string -> bool, path: string)
    ensures var found := Effective(mounts, present, path);
            found.Some? ==> found.value in mounts && Covers(found.value.dest, path) && Applies(found.value, present)
    ensures Effective(mounts, present, path).None? ==>
              forall m <- mounts :: !(Applies(m, present) && Covers(m.dest, path))
  {
    hide Covers, Applies;
    if mounts != [] {
      EffectiveIsMounted(mounts[..|mounts| - 1], present, path);
      assert mounts == mounts[..|mounts| - 1] + [mounts[|mounts| - 1]];
    }
  }

  lemma {:induction false} MountedPaths(kind: MountKind, paths: seq<string>, m: Mount)
    ensures m in MountAll(kind, paths) <==> m.kind == kind && exists p <- paths :: m.dest == Normalize(p)
  {
    hide Normalize;
    if paths != [] {
      MountedPaths(kind, paths[1..], m);
      assert paths == [paths[0]] + paths[1..];
    }
  }

  /** A layer of unconditional mounts decides exactly the paths one of its roots covers. */
  lemma LayerDecides(kind: MountKind, paths: seq<string>, present: string -> bool, path: string)
    requires !kind.ReadOnlyBindTry?
    ensures var found := Effective(MountAll(kind, paths), present, path);
            && (found.Some? <==> SomeCovers(paths, path))
            && (found.Some? ==>
                  && found.value.kind == kind
                  && exists p <- paths :: found.value.dest == Normalize(p) && Covers(p, path))
  {
    hide Normalize, CoversNormal;
    var layer := MountAll(kind, paths);
    var found := Effective(layer, present, path);
    EffectiveIsMounted(layer, present, path);
    if found.Some? {
      MountedPaths(kind, paths, found.value);
      var p :| p in paths && found.value.dest == Normalize(p);
      NormalizeIsIdempotent(p);
    }
    if SomeCovers(paths, path) {
      var p :| p in paths && Covers(p, path);
      NormalizeIsIdempotent(p);
      MountedPaths(kind, paths, Mount(kind, Normalize(p)));
    }
  }

  lemma {:induction false} InsertHolds(sorted: seq<string>, root: string, other: string)
    ensures other in InsertRoot(sorted, root) <==> other in sorted || other == root
  {
    hide Shallowness;
    if sorted != [] && Shallowness(sorted[|sorted| - 1]) > Shallowness(root) {
      InsertHolds(sorted[..|sorted| - 1], root, other);
      assert sorted == sorted[..|sorted| - 1] + [sorted[|sorted| - 1]];
    }
  }

  lemma {:induction false} SortingKeepsRoots(roots: seq<string>, root: string)
    ensures root in ShallowestFirst(roots) <==> root in roots
  {
    if roots != [] {
      SortingKeepsRoots(roots[..|roots| - 1], root);
      InsertHolds(ShallowestFirst(roots[..|roots| - 1]), roots[|roots| - 1], root);
      assert roots == roots[..|roots| - 1] + [roots[|roots| - 1]];
    }
  }

  lemma SortedCoversTheSame(roots: seq<string>, path: string)
    ensures SomeCovers(ShallowestFirst(roots), path) <==> SomeCovers(roots, path)
  {
    hide Covers, ShallowestFirst;
    forall root ensures root in ShallowestFirst(roots) <==> root in roots {
      SortingKeepsRoots(roots, root);
    }
  }

  lemma {:induction false} NestedAreNormal(hidden: seq<string>, granted: seq<string>)
    ensures Verbatim(Tmpfs, NestedIn(hidden, granted)) == MountAll(Tmpfs, NestedIn(hidden, granted))
  {
    hide Normalize, EnclosedBySome;
    if hidden != [] {
      NestedAreNormal(hidden[1..], granted);
      NormalizeIsIdempotent(hidden[0]);
      if EnclosedBySome(granted, Normalize(hidden[0])) {
        assert NestedIn(hidden, granted) == [Normalize(hidden[0])] + NestedIn(hidden[1..], granted);
        assert NestedIn(hidden, granted)[1..] == NestedIn(hidden[1..], granted);
      } else {
        assert NestedIn(hidden, granted) == NestedIn(hidden[1..], granted);
      }
    }
  }

  function BaseLayer(minimal: seq<string>, policy: SandboxPolicy, program: string): seq<Mount> {
    ReadLayer(minimal, policy, program) + DEVICE_LAYER
  }

  /**
   * For every policy, validated or not: a hidden path strictly inside a grant masks, then a grant makes
   * writable, then any hidden path masks, and everything else is left to the read layer and the devices.
   */
  lemma MountsDecide(minimal: seq<string>, policy: SandboxPolicy, program: string, present: string -> bool, path: string)
    ensures var found := Effective(Mounts(minimal, policy, program), present, path);
            var nested := NestedIn(policy.unreadableRoots, ShallowestFirst(GrantedRoots(policy)));
            if SomeCovers(nested, path) then
              found.Some? && found.value.kind.Tmpfs? && exists p <- nested :: found.value.dest == Normalize(p) && Covers(p, path)
            else if SomeCovers(GrantedRoots(policy), path) then found.Some? && found.value.kind.Bind?
            else if SomeCovers(policy.unreadableRoots, path) then
              && found.Some? && found.value.kind.Tmpfs?
              && exists p <- policy.unreadableRoots :: found.value.dest == Normalize(p) && Covers(p, path)
            else found == Effective(BaseLayer(minimal, policy, program), present, path)
  {
    hide Effective, SomeCovers, Covers, Normalize, ShallowestFirst, MountAll, Verbatim, NestedIn, ReadLayer;
    var granted := ShallowestFirst(GrantedRoots(policy));
    var nested := NestedIn(policy.unreadableRoots, granted);
    var masks, binds, inner := MountAll(Tmpfs, policy.unreadableRoots), MountAll(Bind, granted), MountAll(Tmpfs, nested);
    var read := ReadLayer(minimal, policy, program);
    NestedAreNormal(policy.unreadableRoots, granted);
    assert Mounts(minimal, policy, program) == read + DEVICE_LAYER + (masks + (binds + inner));
    LaterMountsWin(read + DEVICE_LAYER, masks + (binds + inner), present, path);
    LaterMountsWin(masks, binds + inner, present, path);
    LaterMountsWin(binds, inner, present, path);
    LayerDecides(Tmpfs, policy.unreadableRoots, present, path);
    LayerDecides(Bind, granted, present, path);
    LayerDecides(Tmpfs, nested, present, path);
    SortedCoversTheSame(GrantedRoots(policy), path);
  }

  lemma {:induction false} NothingNested(hidden: seq<string>, granted: seq<string>)
    requires NoneCovered(granted, hidden)
    ensures NestedIn(hidden, granted) == []
  {
    hide Normalize, CoversNormal;
    if hidden != [] {
      forall root <- granted, path <- hidden[1..] ensures !Covers(root, path) {
        assert path in hidden;
      }
      NothingNested(hidden[1..], granted);
      NormalizeIsIdempotent(hidden[0]);
      forall root <- granted ensures !Encloses(root, Normalize(hidden[0])) {
        assert hidden[0] in hidden;
        assert !Covers(root, hidden[0]);
      }
    }
  }

  predicate IsWritable(found: Option<Mount>) { found.Some? && found.value.kind.Bind? }

  /** The path shows one of the empty mounts that stand over hidden paths. */
  predicate IsMasked(found: Option<Mount>, hidden: seq<string>) {
    found.Some? && found.value.kind.Tmpfs? && exists p <- hidden :: found.value.dest == Normalize(p)
  }

  lemma ValidNestsNothing(policy: SandboxPolicy)
    requires ValidatePolicy(policy).None?
    ensures NestedIn(policy.unreadableRoots, ShallowestFirst(GrantedRoots(policy))) == []
  {
    hide Covers, ShallowestFirst, AllAbsolute;
    ValidationIsExact(policy);
    var granted := ShallowestFirst(GrantedRoots(policy));
    forall root <- granted, path <- policy.unreadableRoots ensures !Covers(root, path) {
      SortingKeepsRoots(GrantedRoots(policy), root);
    }
    NothingNested(policy.unreadableRoots, granted);
  }

  lemma BaseIsReadOnly(minimal: seq<string>, policy: SandboxPolicy, program: string, present: string -> bool, path: string)
    ensures var found := Effective(BaseLayer(minimal, policy, program), present, path);
            && found.Some? && !found.value.kind.Bind? && Covers(found.value.dest, path)
            && (policy.read.Full? ==> !found.value.kind.Tmpfs?)
  {
    hide Effective, Covers, Applies;
    var base := BaseLayer(minimal, policy, program);
    var mounts := minimal + ReadableGrants(policy);
    EffectiveIsMounted(base, present, path);
    RootCoversAll(path);
    assert Applies(base[0], present) by { FirstApplies(minimal, policy, program, present); }
    assert base[0] in base && base[0].dest == ROOT_PATH;
    var found := Effective(base, present, path);
    if policy.read.Minimal? && found.value in MountAll(ReadOnlyBindTry, mounts) {
      MountedPaths(ReadOnlyBindTry, mounts, found.value);
    }
  }

  lemma FirstApplies(minimal: seq<string>, policy: SandboxPolicy, program: string, present: string -> bool)
    ensures Applies(BaseLayer(minimal, policy, program)[0], present)
  {
  }

  lemma RootCoversAll(path: string)
    ensures Covers(ROOT_PATH, path)
  {
    assert ROOT_PATH[..0] == "";
    assert TrimSlashes(ROOT_PATH) == TrimSlashes(ROOT_PATH[..0]);
  }

  /**
   * For every accepted policy, whatever exists on the host: a path is writable if and only if a granted
   * root covers it, and it is masked if and only if a hidden root covers it and no granted root does.
   */
  lemma SandboxIsExact(minimal: seq<string>, policy: SandboxPolicy, program: string, present: string -> bool, path: string)
    requires ValidatePolicy(policy).None?
    ensures var found := Effective(Mounts(minimal, policy, program), present, path);
            var granted := SomeCovers(policy.writableRoots + policy.derivedRoots, path);
            var hidden := SomeCovers(policy.unreadableRoots, path);
            && (IsWritable(found) <==> granted)
            && (IsMasked(found, policy.unreadableRoots) <==> hidden && !granted)
            && (policy.read.Full? && !granted && !hidden ==> found.Some? && !found.value.kind.Tmpfs?)
  {
    hide ValidatePolicy, Mounts, BaseLayer, Effective, Covers, Normalize, ShallowestFirst, NestedIn;
    ValidNestsNothing(policy);
    MountsDecide(minimal, policy, program, present, path);
    BaseIsReadOnly(minimal, policy, program, present, path);
    var found := Effective(Mounts(minimal, policy, program), present, path);
    if IsMasked(found, policy.unreadableRoots) {
      var p :| p in policy.unreadableRoots && found.value.dest == Normalize(p);
      if Covers(found.value.dest, path) {
        NormalCovers(p, path);
      }
    }
  }

  lemma NormalCovers(p: string, path: string)
    requires Covers(Normalize(p), path)
    ensures Covers(p, path)
  {
    hide CoversNormal, Normalize;
    NormalizeIsIdempotent(p);
  }

  /** Some readable root or the program itself exists and covers the path. */
  predicate IsReadable(roots: seq<string>, program: string, present: string -> bool, path: string) {
    || (exists p <- roots :: present(Normalize(p)) && Covers(p, path))
    || (present(program) && Covers(program, path))
  }

  /** Under confined reads, outside the devices, only what is readable is shown; the rest is empty. */
  lemma ConfinedReadsAreExact(minimal: seq<string>, policy: SandboxPolicy, program: string, present: string -> bool, path: string)
    requires policy.read.Minimal? && !Covers("/dev", path) && !Covers("/proc", path)
    ensures var found := Effective(BaseLayer(minimal, policy, program), present, path);
            var roots := minimal + (policy.readableRoots + policy.derivedReadableRoots);
            && found.Some?
            && (if IsReadable(roots, program, present, path) then found.value.kind.ReadOnlyBindTry?
                else found.value == Mount(Tmpfs, ROOT_PATH))
  {
    hide Effective, Covers, MountAll;
    var roots := minimal + ReadableGrants(policy);
    var empty, tries := [Mount(Tmpfs, ROOT_PATH)], MountAll(ReadOnlyBindTry, roots) + [Mount(ReadOnlyBindTry, program)];
    assert BaseLayer(minimal, policy, program) == empty + (tries + DEVICE_LAYER);
    LaterMountsWin(empty, tries + DEVICE_LAYER, present, path);
    LaterMountsWin(tries, DEVICE_LAYER, present, path);
    EffectiveIsMounted(DEVICE_LAYER, present, path);
    EffectiveIsMounted(empty, present, path);
    RootCoversAll(path);
    assert empty[0] in empty;
    TriesDecide(roots, program, present, path);
  }

  lemma TriesDecide(roots: seq<string>, program: string, present: string -> bool, path: string)
    ensures var found := Effective(MountAll(ReadOnlyBindTry, roots) + [Mount(ReadOnlyBindTry, program)], present, path);
            && (found.Some? <==> IsReadable(roots, program, present, path))
            && (found.Some? ==> found.value.kind.ReadOnlyBindTry?)
  {
    hide Effective, CoversNormal, MountAll, Normalize;
    var own := Mount(ReadOnlyBindTry, program);
    var tries := MountAll(ReadOnlyBindTry, roots) + [own];
    var found := Effective(tries, present, path);
    EffectiveIsMounted(tries, present, path);
    assert own in tries;
    if found.Some? && found.value != own {
      MountedPaths(ReadOnlyBindTry, roots, found.value);
      var p :| p in roots && found.value.dest == Normalize(p);
      NormalizeIsIdempotent(p);
    }
    if exists p <- roots :: present(Normalize(p)) && Covers(p, path) {
      var p :| p in roots && present(Normalize(p)) && Covers(p, path);
      NormalizeIsIdempotent(p);
      var m := Mount(ReadOnlyBindTry, Normalize(p));
      MountedPaths(ReadOnlyBindTry, roots, m);
      assert m in tries;
    }
  }

  // ----- the order of nested grants -----

  ghost predicate ByShallowness(roots: seq<string>) {
    forall i, j :: 0 <= i < j < |roots| ==> Shallowness(roots[i]) <= Shallowness(roots[j])
  }

  lemma {:induction false} InsertKeepsOrder(sorted: seq<string>, root: string)
    requires ByShallowness(sorted)
    ensures ByShallowness(InsertRoot(sorted, root))
  {
    hide Shallowness;
    if sorted != [] && Shallowness(sorted[|sorted| - 1]) > Shallowness(root) {
      var rest := InsertRoot(sorted[..|sorted| - 1], root);
      InsertKeepsOrder(sorted[..|sorted| - 1], root);
      forall i | 0 <= i < |rest| ensures Shallowness(rest[i]) <= Shallowness(sorted[|sorted| - 1]) {
        InsertHolds(sorted[..|sorted| - 1], root, rest[i]);
      }
    }
  }

  lemma {:induction false} SortingOrders(roots: seq<string>)
    ensures ByShallowness(ShallowestFirst(roots))
  {
    hide ByShallowness;
    if roots != [] {
      SortingOrders(roots[..|roots| - 1]);
      InsertKeepsOrder(ShallowestFirst(roots[..|roots| - 1]), roots[|roots| - 1]);
    } else {
      NothingIsSorted();
    }
  }

  lemma NothingIsSorted()
    ensures ByShallowness([])
  {
  }

  lemma {:induction false} SlashesSplit(a: string, b: string)
    ensures Slashes(a + b) == Slashes(a) + Slashes(b)
  {
    if a == "" {
      assert a + b == b;
    } else {
      assert (a + b)[1..] == a[1..] + b;
      SlashesSplit(a[1..], b);
    }
  }

  predicate Within(positions: seq<nat>, bound: nat) {
    forall i :: 0 <= i < |positions| ==> positions[i] < bound
  }

  /** The sort on input positions: where each sorted root stood. */
  function InsertOrigin(roots: seq<string>, sorted: seq<nat>, k: nat): (after: seq<nat>)
    requires k < |roots| && Within(sorted, |roots|)
    ensures Within(after, |roots|)
  {
    if sorted == [] || Shallowness(roots[sorted[|sorted| - 1]]) <= Shallowness(roots[k]) then sorted + [k]
    else InsertOrigin(roots, sorted[..|sorted| - 1], k) + [sorted[|sorted| - 1]]
  }

  function Origins(roots: seq<string>, count: nat): (origins: seq<nat>)
    requires count <= |roots|
    ensures Within(origins, |roots|)
  {
    if count == 0 then [] else InsertOrigin(roots, Origins(roots, count - 1), count - 1)
  }

  function At(roots: seq<string>, origins: seq<nat>): (picked: seq<string>)
    requires Within(origins, |roots|)
    ensures |picked| == |origins| && forall i :: 0 <= i < |origins| ==> picked[i] == roots[origins[i]]
  {
    if origins == [] then [] else [roots[origins[0]]] + At(roots, origins[1..])
  }

  /** Ties stand in input order, and no position comes twice. */
  ghost predicate Stable(roots: seq<string>, origins: seq<nat>, below: nat) {
    && below <= |roots| && Within(origins, below) && |origins| == below
    && forall i, j :: 0 <= i < j < |origins| ==>
         && origins[i] != origins[j]
         && (Shallowness(roots[origins[i]]) == Shallowness(roots[origins[j]]) ==> origins[i] < origins[j])
  }

  lemma {:induction false} InsertIsInsertRoot(roots: seq<string>, sorted: seq<nat>, k: nat)
    requires k < |roots| && Within(sorted, |roots|)
    ensures At(roots, InsertOrigin(roots, sorted, k)) == InsertRoot(At(roots, sorted), roots[k])
  {
    hide Shallowness;
    if sorted != [] && Shallowness(roots[sorted[|sorted| - 1]]) > Shallowness(roots[k]) {
      InsertIsInsertRoot(roots, sorted[..|sorted| - 1], k);
      assert At(roots, sorted)[..|sorted| - 1] == At(roots, sorted[..|sorted| - 1]);
    }
  }

  lemma {:induction false} OriginsSort(roots: seq<string>, count: nat)
    requires count <= |roots|
    ensures At(roots, Origins(roots, count)) == ShallowestFirst(roots[..count])
  {
    hide InsertRoot, InsertOrigin;
    if count > 0 {
      OriginsSort(roots, count - 1);
      InsertIsInsertRoot(roots, Origins(roots, count - 1), count - 1);
      assert roots[..count][..count - 1] == roots[..count - 1];
    }
  }

  lemma {:induction false} InsertHoldsOrigins(roots: seq<string>, sorted: seq<nat>, k: nat)
    requires k < |roots| && Within(sorted, |roots|)
    ensures var after := InsertOrigin(roots, sorted, k);
            |after| == |sorted| + 1 && forall o :: o in after <==> o == k || o in sorted
  {
    hide Shallowness;
    if sorted != [] && Shallowness(roots[sorted[|sorted| - 1]]) > Shallowness(roots[k]) {
      InsertHoldsOrigins(roots, sorted[..|sorted| - 1], k);
      assert sorted == sorted[..|sorted| - 1] + [sorted[|sorted| - 1]];
    }
  }

  /** A later position goes behind every tie and before only what is deeper. */
  lemma {:induction false} InsertStaysStable(roots: seq<string>, sorted: seq<nat>, k: nat)
    requires k < |roots| && Within(sorted, k)
    requires forall i, j :: 0 <= i < j < |sorted| ==>
               && sorted[i] != sorted[j]
               && (Shallowness(roots[sorted[i]]) == Shallowness(roots[sorted[j]]) ==> sorted[i] < sorted[j])
    ensures var after := InsertOrigin(roots, sorted, k);
            forall i, j :: 0 <= i < j < |after| ==>
              && after[i] != after[j]
              && (Shallowness(roots[after[i]]) == Shallowness(roots[after[j]]) ==> after[i] < after[j])
  {
    hide Shallowness;
    if sorted != [] && Shallowness(roots[sorted[|sorted| - 1]]) > Shallowness(roots[k]) {
      var front, last := sorted[..|sorted| - 1], sorted[|sorted| - 1];
      InsertStaysStable(roots, front, k);
      InsertHoldsOrigins(roots, front, k);
      var rest := InsertOrigin(roots, front, k);
      forall o <- rest ensures o != last && (Shallowness(roots[o]) == Shallowness(roots[last]) ==> o < last) {
        if o != k {
          var i :| 0 <= i < |front| && front[i] == o;
          assert sorted[i] == o;
        }
      }
    }
  }

  lemma {:induction false} OriginsAreStable(roots: seq<string>, count: nat)
    requires count <= |roots|
    ensures Stable(roots, Origins(roots, count), count)
  {
    hide InsertOrigin, Shallowness;
    if count > 0 {
      OriginsAreStable(roots, count - 1);
      InsertStaysStable(roots, Origins(roots, count - 1), count - 1);
      InsertHoldsOrigins(roots, Origins(roots, count - 1), count - 1);
      var after := Origins(roots, count);
      forall i | 0 <= i < |after| ensures after[i] < count {
        assert after[i] in after;
      }
    }
  }

  lemma DeeperInside(outer: string, inner: string)
    requires Covers(outer, inner) && Normalize(outer) != Normalize(inner) && Normalize(outer) != ROOT_PATH
    ensures Shallowness(outer) < Shallowness(inner)
  {
    hide Normalize;
    var a, b := Normalize(outer), Normalize(inner);
    SlashesSplit(a, b[|a|..]);
    assert b == a + b[|a|..];
  }

  lemma RootIsShallow(root: string)
    requires Normalize(root) == ROOT_PATH
    ensures Shallowness(root) == 1
  {
    assert ROOT_PATH[1..] == "";
  }

  /**
   * When a grant inside another is mounted before it, exactly: the outer one is the root directory, and
   * the inner one is relative, or a top-level directory that stands earlier in the input. Otherwise it
   * is mounted after it, so that it is not covered up again.
   */
  lemma NestedGrantsMountInside(roots: seq<string>, i: nat, j: nat)
    requires i < |ShallowestFirst(roots)| && j < |ShallowestFirst(roots)|
    requires var sorted := ShallowestFirst(roots);
             Covers(sorted[i], sorted[j]) && Normalize(sorted[i]) != Normalize(sorted[j])
    ensures var sorted, origins := ShallowestFirst(roots), Origins(roots, |roots|);
            && |origins| == |sorted| == |roots| && NoDup(origins)
            && sorted[i] == roots[origins[i]] && sorted[j] == roots[origins[j]]
            && (j < i <==>
                  && Normalize(sorted[i]) == ROOT_PATH
                  && (Shallowness(sorted[j]) == 0 || (Shallowness(sorted[j]) == 1 && origins[j] < origins[i])))
  {
    hide Normalize, ShallowestFirst, Shallowness, Covers, Origins;
    var sorted, origins := ShallowestFirst(roots), Origins(roots, |roots|);
    assert roots[..|roots|] == roots;
    OriginsSort(roots, |roots|);
    OriginsAreStable(roots, |roots|);
    SortingOrders(roots);
    if Normalize(sorted[i]) == ROOT_PATH {
      RootIsShallow(sorted[i]);
    } else {
      DeeperInside(sorted[i], sorted[j]);
    }
  }

  lemma {:induction false} AbsoluteHasSlash(root: string)
    requires IsAbsolute(root)
    ensures Shallowness(root) >= 1
  {
    TrimKeepsHead(root);
  }

  lemma {:induction false} TrimKeepsHead(path: string)
    ensures TrimSlashes(path) != "" ==> path != "" && TrimSlashes(path)[0] == path[0]
  {
    if path != "" && path[|path| - 1] == '/' {
      TrimKeepsHead(path[..|path| - 1]);
    }
  }

  /** Under an accepted policy, only a top-level grant listed before the root directory is out of order. */
  lemma AcceptedGrantsMountInside(policy: SandboxPolicy, i: nat, j: nat)
    requires ValidatePolicy(policy).None?
    requires var sorted := ShallowestFirst(GrantedRoots(policy));
             i < |sorted| && j < |sorted| && Covers(sorted[i], sorted[j]) && Normalize(sorted[i]) != Normalize(sorted[j])
    ensures var sorted, origins := ShallowestFirst(GrantedRoots(policy)), Origins(GrantedRoots(policy), |GrantedRoots(policy)|);
            && |origins| == |sorted|
            && (j < i <==> Normalize(sorted[i]) == ROOT_PATH && Shallowness(sorted[j]) == 1 && origins[j] < origins[i])
  {
    hide Normalize, ShallowestFirst, Shallowness, Covers, Origins, ValidateRoots, ValidateHidden, IsAbsolute;
    var roots := GrantedRoots(policy);
    ValidationIsExact(policy);
    NestedGrantsMountInside(roots, i, j);
    var root := ShallowestFirst(roots)[j];
    assert root in roots;
    AbsoluteHasSlash(root);
  }

  /** The root directory has as many separators as a top-level directory, so a tie keeps it second. */
  lemma RootTiesWithTopLevel()
    ensures ShallowestFirst(["/a", "/"]) == ["/a", "/"] && Covers("/", "/a")
  {
    RootCoversAll("/a");
    assert "/"[..0] == "" && TrimSlashes("/") == TrimSlashes("/"[..0]);
    assert Normalize("/a") == "/a" && Normalize("/") == "/";
    assert "/a"[1..] == "a" && "a"[1..] == "" && "/"[1..] == "";
    assert Slashes("a") == 0 && Slashes("/a") == 1 && Slashes("/") == 1;
    assert ["/a", "/"][..1] == ["/a"] && ["/a"][..0] == [];
    assert ShallowestFirst(["/a"]) == ["/a"];
  }

  // ----- the argument list -----

  const TERMINATOR := "--"

  function Flag(kind: MountKind): string {
    match kind
    case Bind => "--bind"
    case ReadOnlyBind => "--ro-bind"
    case ReadOnlyBindTry => "--ro-bind-try"
    case Tmpfs => "--tmpfs"
    case Devices => "--dev"
    case Processes => "--proc"
  }

  predicate TakesSource(kind: MountKind) { kind.Bind? || kind.ReadOnlyBind? || kind.ReadOnlyBindTry? }

  function RenderMount(m: Mount): seq<string> {
    if TakesSource(m.kind) then [Flag(m.kind), m.dest, m.dest] else [Flag(m.kind), m.dest]
  }

  function RenderMounts(mounts: seq<Mount>): seq<string> {
    if mounts == [] then [] else RenderMount(mounts[0]) + RenderMounts(mounts[1..])
  }

  function Namespaces(network: bool): seq<string> {
    ["--unshare-user", "--unshare-pid", "--unshare-ipc", "--unshare-uts", "--unshare-cgroup-try"]
    + if network then [] else ["--unshare-net"]
  }

  function Argv(minimal: seq<string>, policy: SandboxPolicy, program: string, args: seq<string>): seq<string> {
    Namespaces(policy.network) + (RenderMounts(Mounts(minimal, policy, program)) + ([TERMINATOR, program] + args))
  }

  lemma {:induction false} RenderSplits(a: seq<Mount>, b: seq<Mount>)
    ensures RenderMounts(a + b) == RenderMounts(a) + RenderMounts(b)
  {
    if a == [] {
      assert a + b == b;
    } else {
      assert (a + b)[1..] == a[1..] + b;
      RenderSplits(a[1..], b);
    }
  }

  lemma {:induction false} MountAllSplits(kind: MountKind, a: seq<string>, b: seq<string>)
    ensures MountAll(kind, a + b) == MountAll(kind, a) + MountAll(kind, b)
  {
    if a == [] {
      assert a + b == b;
    } else {
      assert (a + b)[1..] == a[1..] + b;
      MountAllSplits(kind, a[1..], b);
    }
  }

  lemma RenderOne(m: Mount)
    ensures RenderMounts([m]) == RenderMount(m)
  {
    assert [m][1..] == [];
  }

  lemma RenderNext(done: seq<Mount>, m: Mount)
    ensures RenderMounts(done + [m]) == RenderMounts(done) + RenderMount(m)
  {
    RenderSplits(done, [m]);
    RenderOne(m);
  }

  lemma MountNext(kind: MountKind, paths: seq<string>, i: nat)
    requires i < |paths|
    ensures MountAll(kind, paths[..i + 1]) == MountAll(kind, paths[..i]) + [Mount(kind, Normalize(paths[i]))]
  {
    assert paths[..i + 1] == paths[..i] + [paths[i]];
    MountAllSplits(kind, paths[..i], [paths[i]]);
    assert [paths[i]][1..] == [];
  }

  /** `push_bind` or `push_pair`, for each path. */
  method PushAll(start: seq<string>, kind: MountKind, paths: seq<string>) returns (args: seq<string>)
    ensures args == start + RenderMounts(MountAll(kind, paths))
  {
    hide RenderMounts, MountAll, RenderMount;
    args := start;
    NoMounts(kind);
    assert paths[..0] == [];
    for i := 0 to |paths|
      invariant args == start + RenderMounts(MountAll(kind, paths[..i]))
    {
      var m := Mount(kind, Normalize(paths[i]));
      MountNext(kind, paths, i);
      RenderNext(MountAll(kind, paths[..i]), m);
      args := args + RenderMount(m);
    }
    assert paths[..|paths|] == paths;
  }

  lemma NoMounts(kind: MountKind)
    ensures MountAll(kind, []) == [] && RenderMounts([]) == []
  {
  }

  /** `push_read_layer`. */
  method PushReadLayer(start: seq<string>, minimal: seq<string>, policy: SandboxPolicy, program: string)
      returns (args: seq<string>)
    ensures args == start + RenderMounts(ReadLayer(minimal, policy, program))
  {
    hide RenderMounts, MountAll, RenderMount;
    args := start;
    if policy.read.Full? {
      RenderOne(Mount(ReadOnlyBind, ROOT_PATH));
      args := args + RenderMount(Mount(ReadOnlyBind, ROOT_PATH));
      return;
    }
    var empty, last := Mount(Tmpfs, ROOT_PATH), Mount(ReadOnlyBindTry, program);
    args := args + RenderMount(empty);
    args := PushAll(args, ReadOnlyBindTry, minimal);
    args := PushAll(args, ReadOnlyBindTry, ReadableGrants(policy));
    args := args + RenderMount(last);
    RenderOne(empty);
    MountAllSplits(ReadOnlyBindTry, minimal, ReadableGrants(policy));
    RenderSplits(MountAll(ReadOnlyBindTry, minimal), MountAll(ReadOnlyBindTry, ReadableGrants(policy)));
    RenderSplits([empty], MountAll(ReadOnlyBindTry, minimal + ReadableGrants(policy)));
    RenderNext([empty] + MountAll(ReadOnlyBindTry, minimal + ReadableGrants(policy)), last);
  }

  /** `bwrap_argv`: the arguments are pushed layer by layer. */
  method BwrapArgv(minimal: seq<string>, policy: SandboxPolicy, program: string, programArgs: seq<string>)
      returns (args: seq<string>)
    ensures args == Argv(minimal, policy, program, programArgs)
  {
    hide RenderMounts, MountAll, RenderMount, ReadLayer, ShallowestFirst, NestedIn, Verbatim;
    args := ["--unshare-user", "--unshare-pid", "--unshare-ipc", "--unshare-uts", "--unshare-cgroup-try"];
    if !policy.network {
      args := args + ["--unshare-net"];
    }
    ghost var before := args;
    assert before == Namespaces(policy.network);
    args := PushReadLayer(args, minimal, policy, program);
    args := args + RenderMount(DEVICE_LAYER[0]);
    args := args + RenderMount(DEVICE_LAYER[1]);
    args := PushAll(args, Tmpfs, policy.unreadableRoots);
    var granted := ShallowestFirst(GrantedRoots(policy));
    args := PushAll(args, Bind, granted);
    var nested := NestedIn(policy.unreadableRoots, granted);
    args := PushAll(args, Tmpfs, nested);
    LayersRender(minimal, policy, program);
    ghost var mounts := RenderMounts(Mounts(minimal, policy, program));
    assert args == before + mounts;
    assert before + (mounts + ([TERMINATOR, program] + programArgs)) == before + mounts + [TERMINATOR, program] + programArgs;
    args := args + [TERMINATOR, program] + programArgs;
  }

  lemma LayersRender(minimal: seq<string>, policy: SandboxPolicy, program: string)
    ensures var granted := ShallowestFirst(GrantedRoots(policy));
            RenderMounts(Mounts(minimal, policy, program)) ==
            RenderMounts(ReadLayer(minimal, policy, program))
            + RenderMount(DEVICE_LAYER[0]) + RenderMount(DEVICE_LAYER[1])
            + RenderMounts(MountAll(Tmpfs, policy.unreadableRoots))
            + RenderMounts(MountAll(Bind, granted))
            + RenderMounts(MountAll(Tmpfs, NestedIn(policy.unreadableRoots, granted)))
  {
    hide RenderMounts, MountAll, RenderMount, ReadLayer, ShallowestFirst, NestedIn, Verbatim;
    var granted := ShallowestFirst(GrantedRoots(policy));
    var masks, binds := MountAll(Tmpfs, policy.unreadableRoots), MountAll(Bind, granted);
    var inner := MountAll(Tmpfs, NestedIn(policy.unreadableRoots, granted));
    NestedAreNormal(policy.unreadableRoots, granted);
    RenderSplits(ReadLayer(minimal, policy, program), DEVICE_LAYER + (masks + (binds + inner)));
    RenderSplits(DEVICE_LAYER, masks + (binds + inner));
    RenderSplits(masks, binds + inner);
    RenderSplits(binds, inner);
    assert DEVICE_LAYER == [DEVICE_LAYER[0]] + [DEVICE_LAYER[1]];
    RenderNext([DEVICE_LAYER[0]], DEVICE_LAYER[1]);
    RenderOne(DEVICE_LAYER[0]);
  }

  function KindOf(flag: string): Option<MountKind> {
    if flag == "--bind" then Some(Bind)
    else if flag == "--ro-bind" then Some(ReadOnlyBind)
    else if flag == "--ro-bind-try" then Some(ReadOnlyBindTry)
    else if flag == "--tmpfs" then Some(Tmpfs)
    else if flag == "--dev" then Some(Devices)
    else if flag == "--proc" then Some(Processes)
    else None
  }

  /** The arguments as the sandbox program reads them: its switches, its mounts in order, and the command. */
  datatype Reading = Reading(switches: seq<string>, mounts: seq<Mount>, command: seq<string>)

  function ReadArguments(args: seq<string>): Reading
    decreases |args|
  {
    if args == [] then Reading([], [], [])
    else if args[0] == TERMINATOR then Reading([], [], args[1..])
    else
      match KindOf(args[0])
      case None => var rest := ReadArguments(args[1..]); rest.(switches := [args[0]] + rest.switches)
      case Some(kind) =>
        var width := if TakesSource(kind) then 3 else 2;
        if |args| < width then Reading([], [], [])
        else var rest := ReadArguments(args[width..]); rest.(mounts := [Mount(kind, args[width - 1])] + rest.mounts)
  }

  lemma FlagsAreDistinct(kind: MountKind)
    ensures KindOf(Flag(kind)) == Some(kind) && Flag(kind) != TERMINATOR
  {
    assert |"--bind"| == 6 && |"--ro-bind"| == 9 && |"--ro-bind-try"| == 13 && |"--tmpfs"| == 7 && |"--dev"| == 5;
    assert "--bind"[2] == 'b' && "--proc"[2] == 'p';
  }

  lemma NamespacesMountNothing(flag: string)
    requires |flag| > 2 && flag[2] == 'u'
    ensures KindOf(flag).None? && flag != TERMINATOR
  {
    assert "--bind"[2] == 'b' && "--ro-bind"[2] == 'r' && "--ro-bind-try"[2] == 'r';
    assert "--tmpfs"[2] == 't' && "--dev"[2] == 'd' && "--proc"[2] == 'p';
  }

  lemma ReadOneSwitch(switch: string, more: seq<string>)
    requires |switch| > 2 && switch[2] == 'u'
    ensures var after := ReadArguments(more);
            ReadArguments([switch] + more) == after.(switches := [switch] + after.switches)
  {
    hide KindOf;
    NamespacesMountNothing(switch);
    assert ([switch] + more)[1..] == more;
  }

  lemma {:induction false} SwitchesRead(switches: seq<string>, rest: seq<string>)
    requires forall switch <- switches :: |switch| > 2 && switch[2] == 'u'
    ensures var after := ReadArguments(rest);
            ReadArguments(switches + rest) == after.(switches := switches + after.switches)
  {
    hide ReadArguments;
    var after := ReadArguments(rest).switches;
    if switches == [] {
      assert switches + rest == rest && switches + after == after;
    } else {
      ReadOneSwitch(switches[0], switches[1..] + rest);
      assert switches + rest == [switches[0]] + (switches[1..] + rest);
      SwitchesRead(switches[1..], rest);
      assert [switches[0]] + (switches[1..] + after) == switches + after;
    }
  }

  lemma ReadOneMount(m: Mount, more: seq<string>)
    ensures var after := ReadArguments(more);
            ReadArguments(RenderMount(m) + more) == after.(mounts := [m] + after.mounts)
  {
    hide KindOf, Flag;
    FlagsAreDistinct(m.kind);
    assert (RenderMount(m) + more)[|RenderMount(m)|..] == more;
  }

  lemma {:induction false} RenderedMountsRead(mounts: seq<Mount>, rest: seq<string>)
    ensures var after := ReadArguments(rest);
            ReadArguments(RenderMounts(mounts) + rest) == after.(mounts := mounts + after.mounts)
  {
    hide ReadArguments, RenderMount;
    var after := ReadArguments(rest).mounts;
    if mounts == [] {
      assert RenderMounts(mounts) + rest == rest && mounts + after == after;
    } else {
      var more := RenderMounts(mounts[1..]) + rest;
      assert RenderMounts(mounts) + rest == RenderMount(mounts[0]) + more;
      ReadOneMount(mounts[0], more);
      RenderedMountsRead(mounts[1..], rest);
      assert mounts + after == [mounts[0]] + (mounts[1..] + after);
    }
  }

  /** Five namespaces are always unshared, and the network's exactly when it is denied. */
  ghost predicate Isolates(switches: seq<string>, network: bool) {
    && "--unshare-user" in switches && "--unshare-pid" in switches && "--unshare-ipc" in switches
    && "--unshare-uts" in switches && "--unshare-cgroup-try" in switches
    && ("--unshare-net" in switches <==> !network)
  }

  /**
   * The argument list says exactly the mounts and runs exactly the program, whatever the paths and the
   * program's own arguments are, and isolates it as the policy asks.
   */
  lemma ArgvReadsAsMounts(minimal: seq<string>, policy: SandboxPolicy, program: string, args: seq<string>)
    ensures var read := ReadArguments(Argv(minimal, policy, program, args));
            && read.mounts == Mounts(minimal, policy, program)
            && read.command == [program] + args
            && Isolates(read.switches, policy.network)
  {
    hide ReadArguments, RenderMounts, Mounts, Isolates, Namespaces;
    var mounts := Mounts(minimal, policy, program);
    var tail := [TERMINATOR, program] + args;
    NamespacesAreSwitches(policy.network);
    SwitchesRead(Namespaces(policy.network), RenderMounts(mounts) + tail);
    RenderedMountsRead(mounts, tail);
    TerminatorEnds(tail);
    assert mounts + [] == mounts && Namespaces(policy.network) + [] == Namespaces(policy.network);
    assert tail[1..] == [program] + args;
  }

  lemma NamespacesAreSwitches(network: bool)
    ensures Isolates(Namespaces(network), network)
    ensures forall switch <- Namespaces(network) :: |switch| > 2 && switch[2] == 'u'
  {
    var switches := Namespaces(network);
    SwitchesAreDistinct();
    assert switches[0] == "--unshare-user" && switches[1] == "--unshare-pid" && switches[2] == "--unshare-ipc";
    assert switches[3] == "--unshare-uts" && switches[4] == "--unshare-cgroup-try";
    assert !network ==> switches[5] == "--unshare-net";
  }

  lemma SwitchesAreDistinct()
    ensures "--unshare-net" != "--unshare-user" && "--unshare-net" != "--unshare-pid" && "--unshare-net" != "--unshare-ipc"
    ensures "--unshare-net" != "--unshare-uts" && "--unshare-net" != "--unshare-cgroup-try"
  {
    assert "--unshare-net"[10] == 'n' && "--unshare-user"[10] == 'u' && "--unshare-pid"[10] == 'p';
    assert "--unshare-ipc"[10] == 'i' && "--unshare-uts"[10] == 'u' && "--unshare-cgroup-try"[10] == 'c';
  }

  lemma TerminatorEnds(tail: seq<string>)
    requires tail != [] && tail[0] == TERMINATOR
    ensures ReadArguments(tail) == Reading([], [], tail[1..])
  {
  }
}
