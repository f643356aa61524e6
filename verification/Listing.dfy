/** What enumerations and whole listings do, from the camera's answers alone: which images
    they return, with what names, dates and folders, which folders they record, what they
    ask the camera, and when they fail. */
module Listing {
  import opened Bytes
  import opened Ptp
  import opened HandleUrl
  import opened Objects
  import opened Enumeration

  // ---- Reach ----

  /** At most `n` edges away, the first of them to one of `handles`, through containers. */
  ghost predicate Reach(x: Context, handles: seq<uint32>, n: nat, h: uint32) {
    exists path :: Via(x, handles, path) && |path| <= n && path[|path| - 1] == h
  }

  lemma ReachNone(x: Context, n: nat, h: uint32)
    ensures !Reach(x, [], n, h)
  {
  }

  lemma ReachSplit(x: Context, handles: seq<uint32>, n: nat, h: uint32)
    requires handles != []
    ensures Reach(x, handles, n, h) <==> Reach(x, [handles[0]], n, h) || Reach(x, handles[1..], n, h)
  {
    hide IsContainer;
    forall path
      ensures Via(x, handles, path) <==> Via(x, [handles[0]], path) || Via(x, handles[1..], path)
    {
      assert path != [] ==> (path[0] in handles <==> path[0] == handles[0] || path[0] in handles[1..]);
    }
  }

  lemma ReachBelow(x: Context, c: uint32, n: nat, h: uint32)
    ensures Reach(x, [c], n, h) <==>
            n > 0 && (h == c || (IsContainer(x, c) && x.List(c).Ok? && Reach(x, x.List(c).value, n - 1, h)))
  {
    hide IsContainer;
    if n > 0 && h == c {
      assert Via(x, [c], [c]);
    }
    if n > 0 && IsContainer(x, c) && x.List(c).Ok? && Reach(x, x.List(c).value, n - 1, h) {
      var path :| Via(x, x.List(c).value, path) && |path| <= n - 1 && path[|path| - 1] == h;
      assert ([c] + path)[1..] == path;
      assert Via(x, [c], [c] + path);
    }
    if path :| Via(x, [c], path) && |path| <= n && path[|path| - 1] == h && |path| > 1 {
      assert Via(x, x.List(c).value, path[1..]);
    }
  }

  // ---- One enumeration ----

  /** The request by which an enumeration finds out what a handle is. */
  function FirstAsked(h: uint32): Request {
    if h >= VIRTUAL then Request.Listing(h) else Info(h)
  }

  /** A scan of a container is that of its listing, recorded and asked for. */
  lemma ContainerScanned(x: Context, h: uint32, depth: nat)
    requires depth <= MAX_DEPTH && IsContainer(x, h) && ScanHandle(x, h, depth, {}).outcome.Ok?
    ensures var s := ScanHandle(x, h, depth, {});
            if depth == MAX_DEPTH then s == Scan(Ok([]), {h}, [FirstAsked(h)])
            else x.List(h).Ok?
                 && var inner := ScanHandles(x, x.List(h).value, depth + 1, {});
                    s == Scan(inner.outcome, {h} + inner.folders,
                              [FirstAsked(h)] + ([Request.Listing(h)] + inner.requests))
  {
    hide ScanHandles;
    assert [FirstAsked(h)] + [] == [FirstAsked(h)];
    assert {h} + {} == {h};
  }

  /** A scan of anything else is that of one object. */
  lemma LeafScanned(x: Context, h: uint32, depth: nat)
    requires depth <= MAX_DEPTH && !IsContainer(x, h) && ScanHandle(x, h, depth, {}).outcome.Ok?
    ensures x.camera.info(h).Ok? && (h >= VIRTUAL ==> x.List(h) == Ok([]))
    ensures ScanHandle(x, h, depth, {})
         == Scan(Ok(if IsImage(x, h) then [x.ImageOf(h, x.camera.info(h).value)] else []), {},
                 if h >= VIRTUAL then [Request.Listing(h), Info(h)] else [Info(h)])
    ensures x.ImageOf(h, x.camera.info(h).value).handle == h
  {
    hide ScanFolder, IsImageFormat;
  }

  /** The image of `img`'s handle, as the camera describes it in context `x`. */
  predicate Pictured(x: Context, img: Image) {
    IsImage(x, img.handle) && img == x.ImageOf(img.handle, x.camera.info(img.handle).value)
  }

  /** Which images a full scan that meets no error returns, with all their fields. */
  lemma {:induction false} ScanFinds(x: Context, handles: seq<uint32>, depth: nat, img: Image)
    requires depth <= MAX_DEPTH && ScanHandles(x, handles, depth, {}).outcome.Ok?
    ensures img in ScanHandles(x, handles, depth, {}).outcome.value
       <==> Reach(x, handles, LevelsBelow(depth), img.handle) && Pictured(x, img)
    decreases LevelsBelow(depth), |handles|
  {
    hide ScanHandle, Reach, Context.ImageOf, IsContainer, IsImage;
    var n := LevelsBelow(depth);
    if handles == [] {
      ReachNone(x, n, img.handle);
    } else {
      var c := handles[0];
      ReachSplit(x, handles, n, img.handle);
      ReachBelow(x, c, n, img.handle);
      ScanFinds(x, handles[1..], depth, img);
      if IsContainer(x, c) {
        ContainerScanned(x, c, depth);
        ContainerIsNoImage(x, c);
        if depth < MAX_DEPTH {
          ScanFinds(x, x.List(c).value, depth + 1, img);
        } else {
          TooDeep(x, c, img.handle);
        }
      } else {
        LeafScanned(x, c, depth);
      }
    }
  }

  lemma TooDeep(x: Context, c: uint32, h: uint32)
    ensures !(x.List(c).Ok? && Reach(x, x.List(c).value, 0, h))
  {
  }

  /** Which handles it records as folders. */
  lemma {:induction false} ScanRecords(x: Context, handles: seq<uint32>, depth: nat, h: uint32)
    requires depth <= MAX_DEPTH && ScanHandles(x, handles, depth, {}).outcome.Ok?
    ensures h in ScanHandles(x, handles, depth, {}).folders
       <==> Reach(x, handles, LevelsBelow(depth), h) && IsContainer(x, h)
    decreases LevelsBelow(depth), |handles|
  {
    hide ScanHandle, Reach, Context.ImageOf, IsContainer, IsImage;
    var n := LevelsBelow(depth);
    if handles == [] {
      ReachNone(x, n, h);
    } else {
      var c := handles[0];
      ReachSplit(x, handles, n, h);
      ReachBelow(x, c, n, h);
      ScanRecords(x, handles[1..], depth, h);
      if IsContainer(x, c) {
        ContainerScanned(x, c, depth);
        if depth < MAX_DEPTH {
          ScanRecords(x, x.List(c).value, depth + 1, h);
        } else {
          TooDeep(x, c, h);
        }
      } else {
        LeafScanned(x, c, depth);
      }
    }
  }

  /** Asks for a listing: of each virtual handle it comes to, and of each container above
      the last level. */
  ghost predicate AsksListing(x: Context, handles: seq<uint32>, n: nat, h: uint32) {
    (h >= VIRTUAL && Reach(x, handles, n, h)) || (n > 0 && IsContainer(x, h) && Reach(x, handles, n - 1, h))
  }

  /** Asks for an object's dataset: of each handle it comes to but the virtual containers. */
  ghost predicate AsksInfo(x: Context, handles: seq<uint32>, n: nat, h: uint32) {
    Reach(x, handles, n, h) && (h < VIRTUAL || !IsContainer(x, h))
  }

  /** The requests of one step: first for the handle, then what is below it. */
  ghost predicate StepAsks(x: Context, c: uint32, n: nat, h: uint32, r: Request) {
    || (c == h && r == FirstAsked(h))
    || (c == h && h >= VIRTUAL && !IsContainer(x, h) && r == Info(h))
    || (c == h && n > 1 && IsContainer(x, h) && r == Request.Listing(h))
  }

  lemma AsksBelow(x: Context, c: uint32, n: nat, h: uint32)
    requires n > 0
    ensures var below := n > 1 && IsContainer(x, c) && x.List(c).Ok?;
            && (AsksListing(x, [c], n, h) <==>
                StepAsks(x, c, n, h, Request.Listing(h)) || (below && AsksListing(x, x.List(c).value, n - 1, h)))
            && (AsksInfo(x, [c], n, h) <==>
                StepAsks(x, c, n, h, Info(h)) || (below && AsksInfo(x, x.List(c).value, n - 1, h)))
  {
    hide Reach, IsContainer;
    ReachBelow(x, c, n, h);
    ReachBelow(x, c, n - 1, h);
    TooDeep(x, c, h);
  }

  lemma AsksSplit(x: Context, handles: seq<uint32>, n: nat, h: uint32)
    requires handles != []
    ensures AsksListing(x, handles, n, h) <==> AsksListing(x, [handles[0]], n, h) || AsksListing(x, handles[1..], n, h)
    ensures AsksInfo(x, handles, n, h) <==> AsksInfo(x, [handles[0]], n, h) || AsksInfo(x, handles[1..], n, h)
  {
    hide Reach, IsContainer;
    ReachSplit(x, handles, n, h);
    if n > 0 {
      ReachSplit(x, handles, n - 1, h);
    }
  }

  lemma AsksNothing(x: Context, n: nat, h: uint32)
    ensures !AsksListing(x, [], n, h) && !AsksInfo(x, [], n, h)
  {
    hide Reach;
    ReachNone(x, n, h);
    if n > 0 {
      ReachNone(x, n - 1, h);
    }
  }

  lemma HandleAsks(x: Context, c: uint32, depth: nat, h: uint32, r: Request)
    requires depth <= MAX_DEPTH && ScanHandle(x, c, depth, {}).outcome.Ok? && (r == Info(h) || r == Request.Listing(h))
    ensures r in ScanHandle(x, c, depth, {}).requests <==>
            || StepAsks(x, c, LevelsBelow(depth), h, r)
            || (depth < MAX_DEPTH && IsContainer(x, c) && x.List(c).Ok?
                && r in ScanHandles(x, x.List(c).value, depth + 1, {}).requests)
  {
    hide ScanHandle, ScanHandles, IsContainer, Context.ImageOf, IsImage;
    if IsContainer(x, c) {
      ContainerScanned(x, c, depth);
    } else {
      LeafScanned(x, c, depth);
    }
  }

  /** What it asks the camera. */
  lemma {:induction false} ScanAsks(x: Context, handles: seq<uint32>, depth: nat, h: uint32)
    requires depth <= MAX_DEPTH && ScanHandles(x, handles, depth, {}).outcome.Ok?
    ensures var s, n := ScanHandles(x, handles, depth, {}), LevelsBelow(depth);
            && (Request.Listing(h) in s.requests <==> AsksListing(x, handles, n, h))
            && (Info(h) in s.requests <==> AsksInfo(x, handles, n, h))
    decreases LevelsBelow(depth), |handles|
  {
    hide ScanHandle, IsContainer, AsksListing, AsksInfo, StepAsks;
    var n := LevelsBelow(depth);
    if handles == [] {
      AsksNothing(x, n, h);
    } else {
      var c := handles[0];
      AsksSplit(x, handles, n, h);
      AsksBelow(x, c, n, h);
      HandleAsks(x, c, depth, h, Info(h));
      HandleAsks(x, c, depth, h, Request.Listing(h));
      ScanAsks(x, handles[1..], depth, h);
      if IsContainer(x, c) && x.List(c).Ok? && depth < MAX_DEPTH {
        BelowIsOk(x, c, depth);
        ScanAsks(x, x.List(c).value, depth + 1, h);
      }
    }
  }

  lemma BelowIsOk(x: Context, c: uint32, depth: nat)
    requires depth < MAX_DEPTH && IsContainer(x, c) && ScanHandle(x, c, depth, {}).outcome.Ok?
    ensures x.List(c).Ok? && ScanHandles(x, x.List(c).value, depth + 1, {}).outcome.Ok?
  {
    hide ScanHandle, ScanHandles, IsContainer;
    ContainerScanned(x, c, depth);
  }

  /** The camera refuses what an enumeration must ask about a handle it comes to. */
  predicate Refused(x: Context, h: uint32) {
    if h < VIRTUAL then x.camera.info(h).Err?
    else x.List(h).Err? || (x.List(h) == Ok([]) && x.camera.info(h).Err?)
  }

  /** A handle that the enumeration comes to and gets no answer about. */
  ghost predicate Troubles(x: Context, handles: seq<uint32>, n: nat, h: uint32) {
    || (Reach(x, handles, n, h) && Refused(x, h))
    || (n > 0 && Reach(x, handles, n - 1, h) && IsContainer(x, h) && x.List(h).Err?)
  }

  ghost predicate Troubled(x: Context, handles: seq<uint32>, n: nat) {
    exists h :: Troubles(x, handles, n, h)
  }

  lemma TroubledSplit(x: Context, handles: seq<uint32>, n: nat)
    requires handles != []
    ensures Troubled(x, handles, n) <==> Troubled(x, [handles[0]], n) || Troubled(x, handles[1..], n)
  {
    hide Reach, Refused, IsContainer;
    forall h
      ensures Troubles(x, handles, n, h) <==> Troubles(x, [handles[0]], n, h) || Troubles(x, handles[1..], n, h)
    {
      ReachSplit(x, handles, n, h);
      if n > 0 {
        ReachSplit(x, handles, n - 1, h);
      }
    }
  }

  lemma TroubledBelow(x: Context, c: uint32, n: nat)
    requires n > 0
    ensures Troubled(x, [c], n) <==>
            || Refused(x, c)
            || (n > 1 && IsContainer(x, c) && (x.List(c).Err? || Troubled(x, x.List(c).value, n - 1)))
  {
    hide Reach, Refused, IsContainer;
    forall h
      ensures Troubles(x, [c], n, h) <==>
              || (h == c && (Refused(x, c) || (n > 1 && IsContainer(x, c) && x.List(c).Err?)))
              || (n > 1 && IsContainer(x, c) && x.List(c).Ok? && Troubles(x, x.List(c).value, n - 1, h))
    {
      ReachBelow(x, c, n, h);
      ReachBelow(x, c, n - 1, h);
      TooDeep(x, c, h);
    }
    if Refused(x, c) || (n > 1 && IsContainer(x, c) && x.List(c).Err?) {
      assert Troubles(x, [c], n, c);
    }
    if n > 1 && IsContainer(x, c) && x.List(c).Ok? && Troubled(x, x.List(c).value, n - 1) {
      var h :| Troubles(x, x.List(c).value, n - 1, h);
      assert Troubles(x, [c], n, h);
    }
  }

  lemma NoTrouble(x: Context, n: nat)
    ensures !Troubled(x, [], n)
  {
    forall h
      ensures !Troubles(x, [], n, h)
    {
      ReachNone(x, n, h);
    }
  }

  lemma HandleFails(x: Context, c: uint32, depth: nat)
    requires depth <= MAX_DEPTH
    ensures ScanHandle(x, c, depth, {}).outcome.Err? <==>
            || Refused(x, c)
            || (depth < MAX_DEPTH && IsContainer(x, c)
                && (x.List(c).Err? || ScanHandles(x, x.List(c).value, depth + 1, {}).outcome.Err?))
  {
    hide ScanHandles, Context.ImageOf, IsImageFormat;
  }

  /** A scan fails exactly when the camera refuses something it must ask. */
  lemma {:induction false} ScanFails(x: Context, handles: seq<uint32>, depth: nat)
    requires depth <= MAX_DEPTH
    ensures ScanHandles(x, handles, depth, {}).outcome.Err? <==> Troubled(x, handles, LevelsBelow(depth))
    decreases LevelsBelow(depth), |handles|
  {
    hide ScanHandle, Troubled, Refused, IsContainer;
    var n := LevelsBelow(depth);
    if handles == [] {
      NoTrouble(x, n);
    } else {
      var c := handles[0];
      TroubledSplit(x, handles, n);
      TroubledBelow(x, c, n);
      HandleFails(x, c, depth);
      ScanFails(x, handles[1..], depth);
      if IsContainer(x, c) && x.List(c).Ok? && depth < MAX_DEPTH {
        ScanFails(x, x.List(c).value, depth + 1);
      }
    }
  }

  // ---- One source of a listing ----

  /** A start on a volume, and the folder whose images are below it. */
  datatype Source = Source(volume: Volume, folder: string, start: uint32)

  /** The camera's answers about one volume. */
  function On(x: Context, v: Volume): Context {
    x.(storage := v.storage, folder := "", byHandle := map[])
  }

  predicate LastWith(folders: seq<Folder>, handle: uint32, k: int) {
    && 0 <= k < |folders| && folders[k].handle == handle
    && forall l :: k < l < |folders| ==> folders[l].handle != handle
  }

  /** The folder an image is filed under: the one enumerated or, when that has no name, the
      last one that a virtual handle gives as its parent. */
  ghost predicate FiledUnder(v: Volume, folder: string, h: uint32, parent: uint32, tag: string) {
    if folder == "" && h >= VIRTUAL && exists f :: f in v.folders && f.handle == parent then
      exists k :: LastWith(v.folders, parent, k) && v.folders[k].name == tag
    else tag == folder
  }

  /** An image at most nine edges below the start, as the camera describes it. */
  ghost predicate Depicts(x: Context, s: Source, img: Image) {
    var y := On(x, s.volume);
    && y.List(s.start).Ok? && Reach(y, y.List(s.start).value, 9, img.handle)
    && IsImage(y, img.handle)
    && img.url == HandleURL(x.host, x.port, img.handle)
    && var i := x.camera.info(img.handle).value;
       && img.filename == i.filename && img.captureDate == i.captureDate
       && FiledUnder(s.volume, s.folder, img.handle, i.parentHandle, img.folder)
  }

  /** A container at most nine edges below the start. */
  ghost predicate Holds(x: Context, s: Source, h: uint32) {
    var y := On(x, s.volume);
    y.List(s.start).Ok? && Reach(y, y.List(s.start).value, 9, h) && IsContainer(y, h)
  }

  /** The camera refuses something it is asked about what is below the start. */
  ghost predicate Obstructed(x: Context, s: Source) {
    var y := On(x, s.volume);
    y.List(s.start).Err? || Troubled(y, y.List(s.start).value, 9)
  }

  function ScanSource(x: Context, s: Source): Scan {
    ScanFolder(InFolder(x, s.volume, s.folder), s.start, 0, {})
  }

  ghost predicate SameAnswers(x: Context, y: Context) {
    x.camera == y.camera && forall g :: x.List(g) == y.List(g)
  }

  lemma {:induction false} SameVia(x: Context, y: Context, handles: seq<uint32>, path: seq<uint32>)
    requires SameAnswers(x, y)
    ensures Via(x, handles, path) == Via(y, handles, path)
    decreases |path|
  {
    if |path| > 1 && x.List(path[0]).Ok? {
      SameVia(x, y, x.List(path[0]).value, path[1..]);
    }
  }

  lemma SameReach(x: Context, y: Context, handles: seq<uint32>, n: nat, h: uint32)
    requires SameAnswers(x, y)
    ensures Reach(x, handles, n, h) == Reach(y, handles, n, h)
  {
    hide Via;
    forall path
      ensures Via(x, handles, path) == Via(y, handles, path)
    {
      SameVia(x, y, handles, path);
    }
  }

  lemma SameTrouble(x: Context, y: Context, handles: seq<uint32>, n: nat)
    requires SameAnswers(x, y)
    ensures Troubled(x, handles, n) == Troubled(y, handles, n)
  {
    hide Reach;
    forall h
      ensures Troubles(x, handles, n, h) == Troubles(y, handles, n, h)
    {
      SameReach(x, y, handles, n, h);
      if n > 0 {
        SameReach(x, y, handles, n - 1, h);
      }
    }
  }

  lemma {:induction false} NamesLast(folders: seq<Folder>, handle: uint32, name: string)
    ensures handle in NamesByHandle(folders) <==> exists f :: f in folders && f.handle == handle
    ensures handle in NamesByHandle(folders) ==>
              (NamesByHandle(folders)[handle] == name <==>
               exists k :: LastWith(folders, handle, k) && folders[k].name == name)
  {
    if folders != [] {
      var m := |folders| - 1;
      NamesLast(folders[..m], handle, name);
      assert folders == folders[..m] + [folders[m]];
      if folders[m].handle == handle {
        assert LastWith(folders, handle, m);
      } else {
        assert forall k :: LastWith(folders, handle, k) <==> LastWith(folders[..m], handle, k);
      }
    }
  }

  /** The image the scan makes of a handle is the one the camera describes. */
  lemma PicturedIff(x: Context, s: Source, img: Image)
    requires IsImage(On(x, s.volume), img.handle)
    ensures var i := x.camera.info(img.handle).value;
            img == InFolder(x, s.volume, s.folder).ImageOf(img.handle, i) <==>
            && img.url == HandleURL(x.host, x.port, img.handle)
            && img.filename == i.filename && img.captureDate == i.captureDate
            && FiledUnder(s.volume, s.folder, img.handle, i.parentHandle, img.folder)
  {
    hide IsImageFormat, NamesByHandle, LastWith, HandleURL;
    NamesLast(s.volume.folders, x.camera.info(img.handle).value.parentHandle, img.folder);
  }

  lemma SourceListed(x: Context, s: Source)
    ensures SameAnswers(On(x, s.volume), InFolder(x, s.volume, s.folder))
    ensures var y := InFolder(x, s.volume, s.folder);
            if y.List(s.start).Err? then ScanSource(x, s).outcome.Err?
            else var below := ScanHandles(y, y.List(s.start).value, 0, {});
                 ScanSource(x, s).outcome == below.outcome && ScanSource(x, s).folders == below.folders
  {
    hide ScanHandles, NamesByHandle;
  }

  /** What one enumeration of a listing does. */
  lemma SourceFinds(x: Context, s: Source, img: Image, h: uint32)
    ensures ScanSource(x, s).outcome.Err? <==> Obstructed(x, s)
    ensures ScanSource(x, s).outcome.Ok? ==> (img in ScanSource(x, s).outcome.value <==> Depicts(x, s, img))
    ensures ScanSource(x, s).outcome.Ok? ==> (h in ScanSource(x, s).folders <==> Holds(x, s, h))
  {
    hide ScanSource, On, InFolder, FiledUnder, Context.ImageOf, Reach, Troubled, ScanHandles, HandleURL;
    var y, z := On(x, s.volume), InFolder(x, s.volume, s.folder);
    SourceListed(x, s);
    assert y.List(s.start) == z.List(s.start);
    if z.List(s.start).Ok? {
      var handles := z.List(s.start).value;
      ScanFails(z, handles, 0);
      SameTrouble(y, z, handles, 9);
      if ScanHandles(z, handles, 0, {}).outcome.Ok? {
        ScanFinds(z, handles, 0, img);
        ScanRecords(z, handles, 0, h);
        SameReach(y, z, handles, 9, img.handle);
        SameReach(y, z, handles, 9, h);
        SameKinds(y, z, img.handle, h);
        if IsImage(y, img.handle) {
          PicturedIff(x, s, img);
          SameCamera(x, s);
        }
      }
    }
  }

  lemma SameKinds(y: Context, z: Context, g: uint32, h: uint32)
    requires SameAnswers(y, z)
    ensures IsImage(y, g) == IsImage(z, g) && IsContainer(y, h) == IsContainer(z, h)
  {
  }

  lemma SameCamera(x: Context, s: Source)
    ensures InFolder(x, s.volume, s.folder).camera == x.camera
  {
    hide NamesByHandle;
  }

  // ---- Whole listings ----

  function Rooted(v: Volume): Source {
    Source(v, "", ROOT)
  }

  function SourceOf(v: Volume, f: Folder): Source {
    Source(v, f.name, f.handle)
  }

  ghost predicate FoldersBare(x: Context, v: Volume) {
    forall f, img :: f in v.folders ==> !Depicts(x, SourceOf(v, f), img)
  }

  /** Neither in the folders of the volume nor in its root is there any image. */
  ghost predicate Bare(x: Context, v: Volume) {
    FoldersBare(x, v) && forall img :: !Depicts(x, Rooted(v), img)
  }

  /** The listing falls back to the root of volume `j`: it has folders, but no image is
      found in them, nor was any on the volumes before. */
  ghost predicate FallsTo(x: Context, vs: seq<Volume>, j: nat) {
    && j < |vs| && vs[j].folders != []
    && FoldersBare(x, vs[j])
    && forall i :: 0 <= i < j ==> Bare(x, vs[i])
  }

  /** The listing enumerates from `s` on volume `j`: from one of its folders, from its root
      when it has none, or from the root it falls back to. */
  ghost predicate Takes(x: Context, vs: seq<Volume>, j: nat, s: Source) {
    && j < |vs| && s.volume == vs[j]
    && ((exists f :: f in vs[j].folders && s == SourceOf(vs[j], f))
        || (s == Rooted(vs[j]) && (vs[j].folders == [] || FallsTo(x, vs, j))))
  }

  /** The scans from each source in turn. */
  function ScanSources(x: Context, ss: seq<Source>): Scan {
    if ss == [] then NOTHING else Then(ScanSource(x, ss[0]), ScanSources(x, ss[1..]))
  }

  lemma {:induction false} ScanSourcesAppend(x: Context, ss: seq<Source>, ts: seq<Source>)
    ensures ScanSources(x, ss + ts) == Then(ScanSources(x, ss), ScanSources(x, ts))
  {
    hide ScanSource, Then;
    if ss == [] {
      assert ss + ts == ts;
      ThenNothing(ScanSources(x, ts));
    } else {
      assert (ss + ts)[1..] == ss[1..] + ts;
      ScanSourcesAppend(x, ss[1..], ts);
      ThenAssociative(ScanSource(x, ss[0]), ScanSources(x, ss[1..]), ScanSources(x, ts));
    }
  }

  /** What the scans from some sources do together. */
  lemma {:induction false} SourcesFind(x: Context, ss: seq<Source>, img: Image, h: uint32)
    ensures ScanSources(x, ss).outcome.Err? <==> exists s :: s in ss && Obstructed(x, s)
    ensures ScanSources(x, ss).outcome.Ok? ==>
              (img in ScanSources(x, ss).outcome.value <==> exists s :: s in ss && Depicts(x, s, img))
    ensures ScanSources(x, ss).outcome.Ok? ==>
              (h in ScanSources(x, ss).folders <==> exists s :: s in ss && Holds(x, s, h))
  {
    hide ScanSource, Obstructed, Depicts, Holds;
    if ss != [] {
      SourceFinds(x, ss[0], img, h);
      SourcesFind(x, ss[1..], img, h);
      assert ss == [ss[0]] + ss[1..];
      assert forall s :: s in ss <==> s == ss[0] || s in ss[1..];
    }
  }

  function FolderSources(v: Volume, folders: seq<Folder>): (ss: seq<Source>)
    ensures forall s :: s in ss <==> exists f :: f in folders && s == SourceOf(v, f)
  {
    if folders == [] then []
    else
      assert folders == [folders[0]] + folders[1..];
      [SourceOf(v, folders[0])] + FolderSources(v, folders[1..])
  }

  lemma {:induction false} FoldersScanned(x: Context, v: Volume, folders: seq<Folder>)
    ensures ScanFolders(x, v, folders, {}) == ScanSources(x, FolderSources(v, folders))
  {
    hide ScanFolder, InFolder, Then;
    if folders != [] {
      FoldersScanned(x, v, folders[1..]);
      assert FolderSources(v, folders)[1..] == FolderSources(v, folders[1..]);
    }
  }

  lemma RootScanned(x: Context, v: Volume)
    ensures ScanRoot(x, v, {}) == ScanSources(x, [Rooted(v)])
  {
    hide ScanFolder, InFolder;
    assert [Rooted(v)][1..] == [];
    ThenNothing(ScanSource(x, Rooted(v)));
  }

  function OneSources(x: Context, v: Volume, found: seq<Image>): seq<Source> {
    if v.folders == [] then [Rooted(v)]
    else
      var plain := ScanVolume(x, v, {});
      FolderSources(v, v.folders)
      + if plain.outcome.Ok? && FallsBack(v, {}, found + plain.outcome.value) then [Rooted(v)] else []
  }

  lemma OneScanned(x: Context, v: Volume, found: seq<Image>)
    ensures ScanOne(x, v, {}, found) == ScanSources(x, OneSources(x, v, found))
  {
    hide ScanFolders, ScanRoot, ScanSources, Then, FolderSources;
    RootScanned(x, v);
    if v.folders != [] {
      var ss := FolderSources(v, v.folders);
      FoldersScanned(x, v, v.folders);
      ScanSourcesAppend(x, ss, [Rooted(v)]);
      assert ss + [] == ss;
    }
  }

  lemma PlainIsBare(x: Context, v: Volume)
    requires v.folders != [] && ScanVolume(x, v, {}).outcome.Ok?
    ensures ScanVolume(x, v, {}).outcome.value == [] <==> FoldersBare(x, v)
  {
    hide ScanFolders, ScanSources, Depicts, FolderSources, Obstructed, Holds;
    var ss, plain := FolderSources(v, v.folders), ScanVolume(x, v, {}).outcome.value;
    FoldersScanned(x, v, v.folders);
    forall img
      ensures img in plain <==> exists s :: s in ss && Depicts(x, s, img)
    {
      SourcesFind(x, ss, img, 0);
    }
    if plain != [] {
      assert plain[0] in plain;
      var s :| s in ss && Depicts(x, s, plain[0]);
      var f :| f in v.folders && s == SourceOf(v, f);
    } else {
      forall f, img | f in v.folders
        ensures !Depicts(x, SourceOf(v, f), img)
      {
        assert SourceOf(v, f) in ss && img !in plain;
      }
    }
  }

  /** When the folders have been scanned, a full listing falls back exactly when no image
      is in them and none has been found before. */
  lemma OneFallsBack(x: Context, v: Volume, found: seq<Image>)
    requires v.folders != [] && ScanVolume(x, v, {}).outcome.Ok?
    ensures FallsBack(v, {}, found + ScanVolume(x, v, {}).outcome.value) <==> found == [] && FoldersBare(x, v)
  {
    hide ScanVolume, FoldersBare;
    PlainIsBare(x, v);
    var plain := ScanVolume(x, v, {}).outcome.value;
    assert |found + plain| == |found| + |plain|;
  }

  lemma OneSourcesAre(x: Context, v: Volume, found: seq<Image>, s: Source)
    requires ScanVolume(x, v, {}).outcome.Ok?
    ensures s in OneSources(x, v, found) <==>
            || (exists f :: f in v.folders && s == SourceOf(v, f))
            || (s == Rooted(v) && (v.folders == [] || (found == [] && FoldersBare(x, v))))
  {
    hide ScanVolume, FoldersBare, FallsBack;
    if v.folders != [] {
      OneFallsBack(x, v, found);
    }
  }

  /** The sources of the volumes `vs`, after `found` on the earlier ones. */
  function Sources(x: Context, vs: seq<Volume>, found: seq<Image>): seq<Source> {
    if vs == [] then []
    else
      var one := ScanOne(x, vs[0], {}, found).outcome;
      OneSources(x, vs[0], found) + if one.Err? then [] else Sources(x, vs[1..], found + one.value)
  }

  lemma {:induction false} ListingScanned(x: Context, vs: seq<Volume>, found: seq<Image>)
    ensures ScanVolumes(x, vs, {}, found) == ScanSources(x, Sources(x, vs, found))
  {
    hide ScanOne, OneSources, ScanSources, Then;
    if vs == [] {
      NoSources(x);
    } else {
      var one := ScanOne(x, vs[0], {}, found);
      OneScanned(x, vs[0], found);
      if one.outcome.Err? {
        assert OneSources(x, vs[0], found) + [] == OneSources(x, vs[0], found);
      } else {
        var rest := found + one.outcome.value;
        ListingScanned(x, vs[1..], rest);
        ScanSourcesAppend(x, OneSources(x, vs[0], found), Sources(x, vs[1..], rest));
      }
    }
  }

  lemma NoSources(x: Context)
    ensures ScanSources(x, []) == NOTHING
  {
  }

  lemma OneIsBare(x: Context, v: Volume)
    requires ScanOne(x, v, {}, []).outcome.Ok?
    ensures ScanOne(x, v, {}, []).outcome.value == [] <==> Bare(x, v)
  {
    hide ScanOne, ScanVolume, OneSources, ScanSources, Depicts, Obstructed, Holds;
    var ss, images := OneSources(x, v, []), ScanOne(x, v, {}, []).outcome.value;
    OneScanned(x, v, []);
    PlainIsOk(x, v, []);
    forall img
      ensures img in images <==> exists s :: s in ss && Depicts(x, s, img)
    {
      SourcesFind(x, ss, img, 0);
    }
    forall s
      ensures s in ss <==> || (exists f :: f in v.folders && s == SourceOf(v, f))
                           || (s == Rooted(v) && (v.folders == [] || FoldersBare(x, v)))
    {
      OneSourcesAre(x, v, [], s);
    }
    if images == [] {
      forall s, img | s in ss
        ensures !Depicts(x, s, img)
      {
        assert img !in images;
      }
      assert forall f :: f in v.folders ==> SourceOf(v, f) in ss;
      assert Rooted(v) in ss;
    } else {
      assert images[0] in images;
      var s :| s in ss && Depicts(x, s, images[0]);
    }
  }

  lemma PlainIsOk(x: Context, v: Volume, found: seq<Image>)
    requires ScanOne(x, v, {}, found).outcome.Ok?
    ensures ScanVolume(x, v, {}).outcome.Ok?
  {
    hide ScanVolume, ScanRoot;
  }

  /** The volumes from `j` on; whether anything was found before decides the fallbacks. */
  lemma {:induction false} SourcesAre(x: Context, vs: seq<Volume>, j: nat, found: seq<Image>, s: Source)
    requires j <= |vs| && ScanVolumes(x, vs[j..], {}, found).outcome.Ok?
    requires found == [] <==> forall i :: 0 <= i < j ==> Bare(x, vs[i])
    ensures s in Sources(x, vs[j..], found) <==> exists k :: j <= k && Takes(x, vs, k, s)
    decreases |vs| - j
  {
    hide ScanOne, ScanVolume, Bare, FoldersBare, OneSources;
    if j < |vs| {
      var v := vs[j];
      assert vs[j..][0] == v && vs[j..][1..] == vs[j + 1..];
      var one := ScanOne(x, v, {}, found).outcome.value;
      PlainIsOk(x, v, found);
      OneSourcesAre(x, v, found, s);
      if found == [] {
        OneIsBare(x, v);
        assert found + one == one;
      }
      SourcesAre(x, vs, j + 1, found + one, s);
      assert Takes(x, vs, j, s) <==> s in OneSources(x, v, found);
    }
  }

  /** When some volume fails, it is at a source the listing takes. */
  lemma {:induction false} FailsAt(x: Context, vs: seq<Volume>, j: nat, found: seq<Image>) returns (k: nat, s: Source)
    requires j <= |vs| && ScanVolumes(x, vs[j..], {}, found).outcome.Err?
    requires found == [] <==> forall i :: 0 <= i < j ==> Bare(x, vs[i])
    ensures Takes(x, vs, k, s) && Obstructed(x, s)
    decreases |vs| - j
  {
    hide ScanOne, ScanVolume, Bare, FoldersBare, Obstructed;
    var v := vs[j];
    assert vs[j..][0] == v && vs[j..][1..] == vs[j + 1..];
    var one := ScanOne(x, v, {}, found).outcome;
    if one.Err? {
      k := j;
      s := OneFailsAt(x, v, found);
    } else {
      if found == [] {
        OneIsBare(x, v);
        assert found + one.value == one.value;
      }
      k, s := FailsAt(x, vs, j + 1, found + one.value);
    }
  }

  lemma OneFailsAt(x: Context, v: Volume, found: seq<Image>) returns (s: Source)
    requires ScanOne(x, v, {}, found).outcome.Err?
    ensures Obstructed(x, s) && s.volume == v
    ensures || (exists f :: f in v.folders && s == SourceOf(v, f))
            || (s == Rooted(v) && (v.folders == [] || (found == [] && FoldersBare(x, v))))
  {
    hide ScanOne, ScanVolume, ScanSources, OneSources, Depicts, Obstructed, Holds, FoldersBare;
    OneScanned(x, v, found);
    SourcesFind(x, OneSources(x, v, found), Image(0, "", "", "", ""), 0);
    s :| s in OneSources(x, v, found) && Obstructed(x, s);
    if ScanVolume(x, v, {}).outcome.Ok? {
      OneSourcesAre(x, v, found, s);
    } else {
      FailedSources(x, v, found, s);
    }
  }

  lemma FailedSources(x: Context, v: Volume, found: seq<Image>, s: Source)
    requires ScanVolume(x, v, {}).outcome.Err? && s in OneSources(x, v, found)
    ensures (exists f :: f in v.folders && s == SourceOf(v, f)) || (s == Rooted(v) && v.folders == [])
  {
    hide ScanVolume;
  }

  /** A full listing fails exactly when the camera refuses something below a source it takes. */
  lemma ListingFails(x: Context, vs: seq<Volume>)
    ensures ScanVolumes(x, vs, {}, []).outcome.Err? <==> exists j, s :: 0 <= j && Takes(x, vs, j, s) && Obstructed(x, s)
  {
    hide ScanVolumes, Sources, ScanSources, Obstructed, Takes;
    assert vs[0..] == vs;
    if ScanVolumes(x, vs, {}, []).outcome.Err? {
      var k, s := FailsAt(x, vs, 0, []);
    } else {
      ListingScanned(x, vs, []);
      SourcesFind(x, Sources(x, vs, []), Image(0, "", "", "", ""), 0);
      forall j, s | 0 <= j && Takes(x, vs, j, s)
        ensures !Obstructed(x, s)
      {
        SourcesAre(x, vs, 0, [], s);
      }
    }
  }

  /** A full listing that meets no error returns exactly the images at most nine edges,
      through containers, below the folders of some volume, below the root of one that has
      no folders, or below the root of one it falls back to, each with the name and date
      the camera gives, the URL of its handle, and the folder it lies in. */
  lemma ListingIff(x: Context, vs: seq<Volume>, img: Image)
    requires ScanVolumes(x, vs, {}, []).outcome.Ok?
    ensures img in ScanVolumes(x, vs, {}, []).outcome.value
       <==> exists j, s :: 0 <= j && Takes(x, vs, j, s) && Depicts(x, s, img)
  {
    hide ScanVolumes, Sources, ScanSources, Obstructed, Takes, Depicts;
    assert vs[0..] == vs;
    ListingScanned(x, vs, []);
    SourcesFind(x, Sources(x, vs, []), img, 0);
    forall s
      ensures s in Sources(x, vs, []) <==> exists j :: 0 <= j && Takes(x, vs, j, s)
    {
      SourcesAre(x, vs, 0, [], s);
    }
  }

  /** The folders it records are the containers it comes to. */
  lemma RecordsIff(x: Context, vs: seq<Volume>, h: uint32)
    requires ScanVolumes(x, vs, {}, []).outcome.Ok?
    ensures h in ScanVolumes(x, vs, {}, []).folders <==> exists j, s :: 0 <= j && Takes(x, vs, j, s) && Holds(x, s, h)
  {
    hide ScanVolumes, Sources, ScanSources, Obstructed, Takes, Holds;
    assert vs[0..] == vs;
    ListingScanned(x, vs, []);
    SourcesFind(x, Sources(x, vs, []), Image(0, "", "", "", ""), h);
    forall s
      ensures s in Sources(x, vs, []) <==> exists j :: 0 <= j && Takes(x, vs, j, s)
    {
      SourcesAre(x, vs, 0, [], s);
    }
  }
}
