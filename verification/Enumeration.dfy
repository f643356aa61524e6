/** What an enumeration finds: delta scans against full scans, reachability, repetition. */
module Enumeration {
  import opened Bytes
  import opened Ptp
  import opened Objects

  /** Handles the enumeration descends into. */
  predicate IsContainer(x: Context, h: uint32) {
    if h >= VIRTUAL then x.List(h).Ok? && x.List(h).value != []
    else x.camera.info(h).Ok? && x.camera.info(h).value.format == ASSOCIATION
  }

  /** Handles the enumeration emits. */
  predicate IsImage(x: Context, h: uint32) {
    && (h >= VIRTUAL ==> x.List(h) == Ok([]))
    && x.camera.info(h).Ok? && IsImageFormat(x.camera.info(h).value.format)
  }

  // ---- Delta scans ----

  /** The images whose handles are not in `known`, in order. */
  function Unknown(images: seq<Image>, known: set<uint32>): seq<Image> {
    if images == [] then []
    else (if images[0].handle in known then [] else [images[0]]) + Unknown(images[1..], known)
  }

  predicate About(r: Request, known: set<uint32>) {
    match r
    case Listing(p) => p in known
    case Info(h) => h in known
  }

  /** The requests that are not about a handle in `known`, in order. */
  function NotAbout(rs: seq<Request>, known: set<uint32>): seq<Request> {
    if rs == [] then [] else (if About(rs[0], known) then [] else [rs[0]]) + NotAbout(rs[1..], known)
  }

  lemma {:induction false} UnknownAppend(a: seq<Image>, b: seq<Image>, known: set<uint32>)
    ensures Unknown(a + b, known) == Unknown(a, known) + Unknown(b, known)
  {
    if a == [] {
      assert a + b == b;
    } else {
      assert (a + b)[1..] == a[1..] + b;
      UnknownAppend(a[1..], b, known);
    }
  }

  lemma {:induction false} NotAboutAppend(a: seq<Request>, b: seq<Request>, known: set<uint32>)
    ensures NotAbout(a + b, known) == NotAbout(a, known) + NotAbout(b, known)
  {
    if a == [] {
      assert a + b == b;
    } else {
      assert (a + b)[1..] == a[1..] + b;
      NotAboutAppend(a[1..], b, known);
    }
  }

  ghost predicate NoContainer(x: Context, known: set<uint32>) {
    forall h :: h in known ==> !IsContainer(x, h)
  }

  /** What is left of a successful full scan once everything about `known` is removed. */
  function Reduced(full: Scan, known: set<uint32>): Scan
    requires full.outcome.Ok?
  {
    Scan(Ok(Unknown(full.outcome.value, known)), full.folders, NotAbout(full.requests, known))
  }

  lemma ReducedThen(a: Scan, b: Scan, known: set<uint32>)
    requires a.outcome.Ok? && b.outcome.Ok?
    ensures Reduced(Then(a, b), known) == Then(Reduced(a, known), Reduced(b, known))
  {
    UnknownAppend(a.outcome.value, b.outcome.value, known);
    NotAboutAppend(a.requests, b.requests, known);
  }

  /** Where the full scan meets no error and no known handle is a container, the delta
      scan meets no error either, returns the full scan's unknown images in the same
      order, records the same folders, and sends exactly the full scan's requests that
      are not about a known handle. */
  lemma {:induction false} DeltaScan(x: Context, parent: uint32, depth: nat, known: set<uint32>)
    requires NoContainer(x, known) && parent !in known
    requires ScanFolder(x, parent, depth, {}).outcome.Ok?
    ensures ScanFolder(x, parent, depth, known) == Reduced(ScanFolder(x, parent, depth, {}), known)
    decreases LevelsBelow(depth), 1, 0
  {
    if depth <= MAX_DEPTH {
      var handles := x.List(parent).value;
      DeltaScanHandles(x, handles, depth, known);
      NotAboutAppend([Listing(parent)], ScanHandles(x, handles, depth, {}).requests, known);
    }
  }

  lemma {:induction false} DeltaScanHandles(x: Context, handles: seq<uint32>, depth: nat, known: set<uint32>)
    requires NoContainer(x, known) && depth <= MAX_DEPTH
    requires ScanHandles(x, handles, depth, {}).outcome.Ok?
    ensures ScanHandles(x, handles, depth, known) == Reduced(ScanHandles(x, handles, depth, {}), known)
    decreases LevelsBelow(depth), 0, |handles|
  {
    hide ScanHandle;
    if handles != [] {
      DeltaScanHandle(x, handles[0], depth, known);
      DeltaScanHandles(x, handles[1..], depth, known);
      ReducedThen(ScanHandle(x, handles[0], depth, {}), ScanHandles(x, handles[1..], depth, {}), known);
    }
  }

  lemma {:induction false} DeltaScanHandle(x: Context, h: uint32, depth: nat, known: set<uint32>)
    requires NoContainer(x, known) && depth <= MAX_DEPTH
    requires ScanHandle(x, h, depth, {}).outcome.Ok?
    ensures ScanHandle(x, h, depth, known) == Reduced(ScanHandle(x, h, depth, {}), known)
    decreases LevelsBelow(depth), 0, 0
  {
    hide ScanFolder, ScanHandles, IsImageFormat;
    var ask := if h >= VIRTUAL then Listing(h) else Info(h);
    if IsContainer(x, h) {
      var inner := ScanFolder(x, h, depth + 1, {});
      DeltaScan(x, h, depth + 1, known);
      NotAboutAppend([ask], inner.requests, known);
      assert NotAbout([ask], known) == [ask];
    } else {
      var image := x.ImageOf(h, x.camera.info(h).value);
      assert Unknown([image], known) == if h in known then [] else [image];
      assert NotAbout([Info(h)], known) == if h in known then [] else [Info(h)];
      NotAboutAppend([Listing(h)], [Info(h)], known);
      assert [Listing(h)] + [Info(h)] == [Listing(h), Info(h)];
    }
  }

  // ---- Delta listings ----

  /** No known handle is, on any of the volumes, a container or a handle to scan from. */
  ghost predicate OnlyLeavesKnown(x: Context, vs: seq<Volume>, known: set<uint32>) {
    && ROOT !in known
    && forall v :: v in vs ==> NoContainer(InFolder(x, v, ""), known)
                                && forall f :: f in v.folders ==> f.handle !in known
  }

  lemma {:induction false} DeltaFolders(x: Context, v: Volume, folders: seq<Folder>, known: set<uint32>)
    requires NoContainer(InFolder(x, v, ""), known) && forall f :: f in folders ==> f.handle !in known
    requires ScanFolders(x, v, folders, {}).outcome.Ok?
    ensures ScanFolders(x, v, folders, known) == Reduced(ScanFolders(x, v, folders, {}), known)
  {
    hide ScanFolder, NamesByHandle;
    if folders != [] {
      var inner := InFolder(x, v, folders[0].name);
      assert forall h :: IsContainer(inner, h) == IsContainer(InFolder(x, v, ""), h);
      DeltaScan(inner, folders[0].handle, 0, known);
      DeltaFolders(x, v, folders[1..], known);
      ReducedThen(ScanFolder(inner, folders[0].handle, 0, {}), ScanFolders(x, v, folders[1..], {}), known);
    }
  }

  lemma DeltaVolume(x: Context, v: Volume, known: set<uint32>)
    requires OnlyLeavesKnown(x, [v], known)
    requires ScanVolume(x, v, {}).outcome.Ok?
    ensures ScanVolume(x, v, known) == Reduced(ScanVolume(x, v, {}), known)
  {
    hide ScanFolder, ScanFolders, InFolder;
    assert v in [v];
    if v.folders == [] {
      DeltaScan(InFolder(x, v, ""), ROOT, 0, known);
    } else {
      DeltaFolders(x, v, v.folders, known);
    }
  }

  /** The images that the root fallbacks of a full listing contribute. */
  function FallbackImages(x: Context, vs: seq<Volume>, found: seq<Image>): seq<Image>
    requires ScanVolumes(x, vs, {}, found).outcome.Ok?
  {
    if vs == [] then []
    else
      var plain := ScanVolume(x, vs[0], {}).outcome.value;
      var extra := if FallsBack(vs[0], {}, found + plain) then ScanRoot(x, vs[0], {}).outcome.value else [];
      extra + FallbackImages(x, vs[1..], found + ScanOne(x, vs[0], {}, found).outcome.value)
  }

  lemma {:induction false} DeltaVolumes(x: Context, vs: seq<Volume>, known: set<uint32>, found: seq<Image>,
                                        seen: seq<Image>)
    requires OnlyLeavesKnown(x, vs, known) && known != {}
    requires ScanVolumes(x, vs, {}, found).outcome.Ok?
    ensures ScanVolumes(x, vs, known, seen).outcome.Ok?
    ensures var full, delta := ScanVolumes(x, vs, {}, found).outcome.value,
                               ScanVolumes(x, vs, known, seen).outcome.value;
            var fallback := Unknown(FallbackImages(x, vs, found), known);
            && |Unknown(full, known)| == |delta| + |fallback|
            && (fallback == [] ==> delta == Unknown(full, known))
  {
    hide ScanVolume, ScanRoot, InFolder, NoContainer;
    if vs != [] {
      var v := vs[0];
      var plain, one := ScanVolume(x, v, {}).outcome.value, ScanOne(x, v, {}, found).outcome.value;
      assert v in vs;
      DeltaVolume(x, v, known);
      var extra := if FallsBack(v, {}, found + plain) then ScanRoot(x, v, {}).outcome.value else [];
      assert one == plain + extra;
      var delta := Unknown(plain, known);
      DeltaVolumes(x, vs[1..], known, found + one, seen + delta);
      var rest := ScanVolumes(x, vs[1..], {}, found + one).outcome.value;
      var more := FallbackImages(x, vs[1..], found + one);
      UnknownAppend(one, rest, known);
      UnknownAppend(plain, extra, known);
      UnknownAppend(extra, more, known);
    }
  }

  /** A delta listing returns a full listing's unknown images, in order, exactly when the
      full listing's root fallbacks, which a delta listing never takes, add none. */
  lemma DeltaListing(x: Context, vs: seq<Volume>, known: set<uint32>)
    requires OnlyLeavesKnown(x, vs, known) && known != {}
    requires ScanVolumes(x, vs, {}, []).outcome.Ok?
    ensures ScanVolumes(x, vs, known, []).outcome == Ok(Unknown(ScanVolumes(x, vs, {}, []).outcome.value, known))
       <==> forall i :: i in FallbackImages(x, vs, []) ==> i.handle in known
  {
    DeltaVolumes(x, vs, known, [], []);
    NoneUnknown(FallbackImages(x, vs, []), known);
  }

  lemma {:induction false} NoneUnknown(images: seq<Image>, known: set<uint32>)
    ensures Unknown(images, known) == [] <==> forall i :: i in images ==> i.handle in known
  {
    if images != [] {
      NoneUnknown(images[1..], known);
    }
  }

  predicate IsPlainImage(x: Context, h: uint32) {
    && h < VIRTUAL && x.camera.info(h).Ok?
    && x.camera.info(h).value.format != ASSOCIATION && IsImageFormat(x.camera.info(h).value.format)
  }

  lemma TwoImages(x: Context, parent: uint32, g: uint32, h: uint32)
    requires x.List(parent) == Ok([g, h]) && IsPlainImage(x, g) && IsPlainImage(x, h)
    ensures var outcome := ScanFolder(x, parent, 0, {}).outcome;
            outcome.Ok? && HandlesOf(outcome.value) == [g, h]
  {
    hide IsImageFormat, ScanFolder;
    assert [g, h][1..] == [h] && [h][1..] == [];
    ThenNothing(ScanHandle(x, h, 0, {}));
    assert ScanHandles(x, [h], 0, {}) == ScanHandle(x, h, 0, {});
    assert ScanHandles(x, [g, h], 0, {}) == Then(ScanHandle(x, g, 0, {}), ScanHandle(x, h, 0, {}));
    FolderOutcome(x, parent, {});
  }

  lemma FolderOutcome(x: Context, parent: uint32, known: set<uint32>)
    requires x.List(parent).Ok?
    ensures ScanFolder(x, parent, 0, known).outcome == ScanHandles(x, x.List(parent).value, 0, known).outcome
  {
    hide ScanHandles;
  }

  lemma EmptyFolder(x: Context, v: Volume, folder: Folder, known: set<uint32>)
    requires v.folders == [folder] && x.camera.listing(v.storage, folder.handle) == Ok([])
    ensures ScanVolume(x, v, known).outcome == Ok([])
  {
    hide NamesByHandle;
    var y := InFolder(x, v, folder.name);
    assert [folder][1..] == [];
    assert y.List(folder.handle) == Ok([]);
    FolderOutcome(y, folder.handle, known);
    ThenNothing(ScanFolder(y, folder.handle, 0, known));
    assert ScanFolders(x, v, [], known) == NOTHING;
    assert ScanFolders(x, v, [folder], known) == ScanFolder(y, folder.handle, 0, known);
  }

  /** The fallbacks do add images: with one folder that has become empty and two images
      left at the root, a full listing returns both, while a delta listing that knows
      one of them returns nothing and misses the other. */
  lemma FallbackIsNotTaken(x: Context, v: Volume, folder: Folder, known: uint32, fresher: uint32)
    requires v.folders == [folder] && x.camera.listing(v.storage, folder.handle) == Ok([])
    requires x.camera.listing(v.storage, ROOT) == Ok([known, fresher])
    requires known != fresher && IsPlainImage(x, known) && IsPlainImage(x, fresher)
    ensures var full := ScanVolumes(x, [v], {}, []).outcome;
            full.Ok? && HandlesOf(full.value) == [known, fresher]
    ensures ScanVolumes(x, [v], {known}, []).outcome == Ok([])
  {
    hide IsPlainImage, ScanVolume, ScanRoot;
    assert [v][1..] == [];
    EmptyFolder(x, v, folder, {});
    EmptyFolder(x, v, folder, {known});
    var root := ScanRoot(x, v, {}).outcome;
    assert root.Ok? && HandlesOf(root.value) == [known, fresher] by { RootImages(x, v, known, fresher); }
    assert [] + root.value == root.value && root.value + [] == root.value;
  }

  lemma RootImages(x: Context, v: Volume, g: uint32, h: uint32)
    requires x.camera.listing(v.storage, ROOT) == Ok([g, h]) && IsPlainImage(x, g) && IsPlainImage(x, h)
    ensures var root := ScanRoot(x, v, {}).outcome;
            root.Ok? && HandlesOf(root.value) == [g, h]
  {
    hide NamesByHandle, IsImageFormat;
    TwoImages(InFolder(x, v, ""), ROOT, g, h);
  }

  // ---- Reachability ----

  /** `path` descends from one of `handles` through containers to its last handle. */
  ghost predicate Via(x: Context, handles: seq<uint32>, path: seq<uint32>)
    decreases |path|
  {
    && path != []
    && path[0] in handles
    && (|path| > 1 ==> IsContainer(x, path[0]) && x.List(path[0]).Ok? && Via(x, x.List(path[0]).value, path[1..]))
  }

  /** A path of at most `n` edges to image `h` below one of `handles`. */
  ghost predicate LeadsTo(x: Context, handles: seq<uint32>, n: nat, path: seq<uint32>, h: uint32) {
    Via(x, handles, path) && |path| <= n && path[|path| - 1] == h && IsImage(x, h)
  }

  function HandlesOf(images: seq<Image>): (hs: seq<uint32>)
    ensures |hs| == |images|
  {
    seq(|images|, i requires 0 <= i < |images| => images[i].handle)
  }

  lemma HandlesOfAppend(a: seq<Image>, b: seq<Image>)
    ensures HandlesOf(a + b) == HandlesOf(a) + HandlesOf(b)
  {
  }

  /** A scan of a container yields what a scan of its listing one level down yields. */
  lemma ContainerScan(x: Context, h: uint32, depth: nat)
    requires depth <= MAX_DEPTH && IsContainer(x, h) && ScanHandle(x, h, depth, {}).outcome.Ok?
    ensures if depth == MAX_DEPTH then ScanHandle(x, h, depth, {}).outcome == Ok([])
            else x.List(h).Ok?
                 && ScanHandles(x, x.List(h).value, depth + 1, {}).outcome == ScanHandle(x, h, depth, {}).outcome
  {
    hide ScanHandles;
    assert ScanFolder(x, h, depth + 1, {}).outcome == ScanHandle(x, h, depth, {}).outcome;
  }

  /** A successful scan emits only images reached by a path through containers. */
  lemma {:induction false} EmittedIsReached(x: Context, handles: seq<uint32>, depth: nat, h: uint32)
    returns (path: seq<uint32>)
    requires depth <= MAX_DEPTH && ScanHandles(x, handles, depth, {}).outcome.Ok?
    requires h in HandlesOf(ScanHandles(x, handles, depth, {}).outcome.value)
    ensures LeadsTo(x, handles, LevelsBelow(depth), path, h)
    decreases LevelsBelow(depth), |handles|
  {
    var head := ScanHandle(x, handles[0], depth, {}).outcome.value;
    var tail := ScanHandles(x, handles[1..], depth, {}).outcome.value;
    HandlesOfAppend(head, tail);
    if h in HandlesOf(head) {
      if IsContainer(x, handles[0]) {
        ContainerScan(x, handles[0], depth);
        var below := x.List(handles[0]).value;
        var inner := EmittedIsReached(x, below, depth + 1, h);
        path := [handles[0]] + inner;
        assert path[1..] == inner;
      } else {
        path := [handles[0]];
      }
    } else {
      path := EmittedIsReached(x, handles[1..], depth, h);
    }
  }

  /** A successful scan emits every image that a short enough path leads to. */
  lemma {:induction false} ReachedIsEmitted(x: Context, handles: seq<uint32>, depth: nat, path: seq<uint32>, h: uint32)
    requires depth <= MAX_DEPTH && ScanHandles(x, handles, depth, {}).outcome.Ok?
    requires LeadsTo(x, handles, LevelsBelow(depth), path, h)
    ensures h in HandlesOf(ScanHandles(x, handles, depth, {}).outcome.value)
    decreases LevelsBelow(depth), |handles|
  {
    var head := ScanHandle(x, handles[0], depth, {}).outcome.value;
    var tail := ScanHandles(x, handles[1..], depth, {}).outcome.value;
    HandlesOfAppend(head, tail);
    if path[0] == handles[0] {
      if |path| > 1 {
        ContainerScan(x, handles[0], depth);
        ReachedIsEmitted(x, x.List(path[0]).value, depth + 1, path[1..], h);
      } else {
        assert HandlesOf([x.ImageOf(h, x.camera.info(h).value)]) == [h];
        assert !IsContainer(x, h);
      }
    } else {
      assert path[0] in handles[1..];
      ReachedIsEmitted(x, handles[1..], depth, path, h);
    }
  }

  /** Cyclic or not, a handle graph that a full scan gets through without error yields
      exactly the images at most nine edges below the parent, through containers. */
  lemma EmitsExactlyReachable(x: Context, parent: uint32, h: uint32)
    requires ScanFolder(x, parent, 0, {}).outcome.Ok?
    ensures h in HandlesOf(ScanFolder(x, parent, 0, {}).outcome.value)
       <==> exists path :: LeadsTo(x, x.List(parent).value, 9, path, h)
  {
    var handles := x.List(parent).value;
    if h in HandlesOf(ScanFolder(x, parent, 0, {}).outcome.value) {
      var path := EmittedIsReached(x, handles, 0, h);
    }
    forall path | LeadsTo(x, handles, 9, path, h)
      ensures h in HandlesOf(ScanFolder(x, parent, 0, {}).outcome.value)
    {
      ReachedIsEmitted(x, handles, 0, path, h);
    }
  }

  // ---- Repetition ----

  ghost predicate Distinct(s: seq<uint32>) {
    forall i, j :: 0 <= i < j < |s| ==> s[i] != s[j]
  }

  /** No listing names a handle twice. */
  ghost predicate NoRepeats(x: Context) {
    forall p :: x.List(p).Ok? ==> Distinct(x.List(p).value)
  }

  /** At most one path of at most `n` edges leads to each image, as in a tree. */
  ghost predicate UniquePaths(x: Context, handles: seq<uint32>, n: nat) {
    forall p, q, h :: LeadsTo(x, handles, n, p, h) && LeadsTo(x, handles, n, q, h) ==> p == q
  }

  /** No image is reached both from `left` and from `right`. */
  ghost predicate Apart(x: Context, left: seq<uint32>, right: seq<uint32>, n: nat) {
    forall p, q, h :: !(LeadsTo(x, left, n, p, h) && LeadsTo(x, right, n, q, h))
  }

  lemma DistinctAppend(a: seq<uint32>, b: seq<uint32>)
    ensures Distinct(a + b) <==> Distinct(a) && Distinct(b) && forall t :: t in a ==> t !in b
  {
    var s := a + b;
    if Distinct(s) {
      assert forall i :: 0 <= i < |a| ==> s[i] == a[i];
      assert forall j :: 0 <= j < |b| ==> s[|a| + j] == b[j];
    }
    if Distinct(a) && Distinct(b) && forall t :: t in a ==> t !in b {
      forall i, j | 0 <= i < j < |s|
        ensures s[i] != s[j]
      {
        if i < |a| <= j {
          assert a[i] in a && b[j - |a|] in b;
        } else if |a| <= i {
          assert b[i - |a|] != b[j - |a|];
        }
      }
    }
  }

  lemma UniquePathsSplit(x: Context, handles: seq<uint32>, n: nat)
    requires handles != [] && Distinct(handles)
    ensures UniquePaths(x, handles, n) <==>
            UniquePaths(x, [handles[0]], n) && UniquePaths(x, handles[1..], n)
            && Apart(x, [handles[0]], handles[1..], n)
  {
    hide IsContainer, IsImage;
    var left, right := [handles[0]], handles[1..];
    assert handles[0] !in right;
    forall p, h
      ensures LeadsTo(x, handles, n, p, h) <==> LeadsTo(x, left, n, p, h) || LeadsTo(x, right, n, p, h)
      ensures !(LeadsTo(x, left, n, p, h) && LeadsTo(x, right, n, p, h))
    {
      assert p != [] ==> (p[0] in handles <==> p[0] in left || p[0] in right);
    }
  }

  /** The paths from one container are those below it, one edge longer. */
  lemma UniquePathsBelow(x: Context, c: uint32, n: nat)
    requires IsContainer(x, c) && x.List(c).Ok? && n > 0
    ensures UniquePaths(x, [c], n) <==> UniquePaths(x, x.List(c).value, n - 1)
  {
    hide IsImageFormat;
    var below, m := x.List(c).value, n - 1;
    forall p, h | LeadsTo(x, below, m, p, h)
      ensures LeadsTo(x, [c], n, [c] + p, h)
    {
      assert ([c] + p)[1..] == p;
    }
    forall p, h | LeadsTo(x, [c], n, p, h)
      ensures LeadsTo(x, below, m, p[1..], h) && p == [c] + p[1..]
    {
      ContainerIsNoImage(x, c);
    }
    if UniquePaths(x, [c], n) {
      forall p, q, h | LeadsTo(x, below, m, p, h) && LeadsTo(x, below, m, q, h)
        ensures p == q
      {
        assert LeadsTo(x, [c], n, [c] + p, h) && LeadsTo(x, [c], n, [c] + q, h);
        assert [c] + p == [c] + q;
        assert p == ([c] + p)[1..];
      }
    }
    if UniquePaths(x, below, m) {
      forall p, q, h | LeadsTo(x, [c], n, p, h) && LeadsTo(x, [c], n, q, h)
        ensures p == q
      {
        assert p[1..] == q[1..];
      }
    }
  }

  lemma ContainerIsNoImage(x: Context, c: uint32)
    requires IsContainer(x, c)
    ensures !IsImage(x, c)
  {
  }

  /** Repetition, for the images below one of the handles. */
  lemma {:induction false} EmitsOnceHandles(x: Context, handles: seq<uint32>, depth: nat)
    requires depth <= MAX_DEPTH && ScanHandles(x, handles, depth, {}).outcome.Ok?
    requires NoRepeats(x) && Distinct(handles)
    ensures Distinct(HandlesOf(ScanHandles(x, handles, depth, {}).outcome.value))
       <==> UniquePaths(x, handles, LevelsBelow(depth))
    decreases LevelsBelow(depth), |handles|, 1
  {
    hide ScanHandle, IsContainer, IsImage, UniquePaths, Apart;
    var n := LevelsBelow(depth);
    if handles == [] {
      NoPaths(x, n);
    } else {
      var head := ScanHandle(x, handles[0], depth, {}).outcome.value;
      var tail := ScanHandles(x, handles[1..], depth, {}).outcome.value;
      HandlesOfAppend(head, tail);
      DistinctAppend(HandlesOf(head), HandlesOf(tail));
      EmitsOnceHandle(x, handles[0], depth);
      EmitsOnceHandles(x, handles[1..], depth);
      UniquePathsSplit(x, handles, n);
      ApartMeansDisjoint(x, handles, depth);
    }
  }

  lemma NoPaths(x: Context, n: nat)
    ensures UniquePaths(x, [], n)
  {
  }

  lemma {:induction false} EmitsOnceHandle(x: Context, h: uint32, depth: nat)
    requires depth <= MAX_DEPTH && ScanHandle(x, h, depth, {}).outcome.Ok?
    requires NoRepeats(x)
    ensures Distinct(HandlesOf(ScanHandle(x, h, depth, {}).outcome.value))
       <==> UniquePaths(x, [h], LevelsBelow(depth))
    decreases LevelsBelow(depth), 0, 0
  {
    var n := LevelsBelow(depth);
    if !IsContainer(x, h) {
      forall p, g | LeadsTo(x, [h], n, p, g)
        ensures p == [h]
      {
      }
    } else if depth == MAX_DEPTH {
      forall p, g | LeadsTo(x, [h], n, p, g)
        ensures false
      {
        ContainerIsNoImage(x, h);
      }
    } else {
      ContainerScan(x, h, depth);
      UniquePathsBelow(x, h, n);
      EmitsOnceHandles(x, x.List(h).value, depth + 1);
    }
  }

  lemma ApartMeansDisjoint(x: Context, handles: seq<uint32>, depth: nat)
    requires depth <= MAX_DEPTH && handles != [] && ScanHandles(x, handles, depth, {}).outcome.Ok?
    ensures var head := HandlesOf(ScanHandle(x, handles[0], depth, {}).outcome.value);
            var tail := HandlesOf(ScanHandles(x, handles[1..], depth, {}).outcome.value);
            Apart(x, [handles[0]], handles[1..], LevelsBelow(depth)) <==> forall t :: t in head ==> t !in tail
  {
    hide IsContainer, IsImage;
    var n := LevelsBelow(depth);
    var head := HandlesOf(ScanHandle(x, handles[0], depth, {}).outcome.value);
    var tail := HandlesOf(ScanHandles(x, handles[1..], depth, {}).outcome.value);
    assert ScanHandles(x, [handles[0]], depth, {}).outcome == ScanHandle(x, handles[0], depth, {}).outcome by {
      assert [handles[0]][1..] == [];
      ThenNothing(ScanHandle(x, handles[0], depth, {}));
    }
    if t :| t in head && t in tail {
      var p := EmittedIsReached(x, [handles[0]], depth, t);
      var q := EmittedIsReached(x, handles[1..], depth, t);
      assert !Apart(x, [handles[0]], handles[1..], n);
    }
    forall p, q, h | LeadsTo(x, [handles[0]], n, p, h) && LeadsTo(x, handles[1..], n, q, h)
      ensures h in head && h in tail
    {
      ReachedIsEmitted(x, [handles[0]], depth, p, h);
      ReachedIsEmitted(x, handles[1..], depth, q, h);
    }
  }

  /** Where no listing repeats a handle, a successful full scan emits no image twice
      exactly when each image within nine edges has only one path: always on a tree. */
  lemma EmitsOnce(x: Context, parent: uint32)
    requires ScanFolder(x, parent, 0, {}).outcome.Ok? && NoRepeats(x)
    ensures Distinct(HandlesOf(ScanFolder(x, parent, 0, {}).outcome.value))
       <==> UniquePaths(x, x.List(parent).value, 9)
  {
    EmitsOnceHandles(x, x.List(parent).value, 0);
  }
}
