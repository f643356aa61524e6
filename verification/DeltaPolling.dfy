/** Delta polling against rescanning everything: what a poller that asks only about new
    handles emits, compared with one that lists every image each time and drops the
    URLs it has seen. */
module DeltaPolling {
  import opened Bytes
  import opened HandleUrl
  import opened Objects
  import opened Enumeration
  import opened Poller

  // ---- One poll ----

  ghost predicate AllCanonical(images: seq<Image>, host: string, port: int) {
    forall i :: 0 <= i < |images| ==> Canonical(images[i], host, port)
  }

  /** Image `i` of a full listing is skipped by the delta poll, yet the ring has already
      dropped its URL when a full poll would come to it. */
  predicate Overtaken(s: Index, images: seq<Image>, i: nat)
    requires i < |images|
  {
    && images[i].handle in s.imageHandles
    && images[i].url !in MarkAll(s, Unknown(images[..i], s.imageHandles)).0.seen
  }

  ghost predicate NoneOvertaken(s: Index, images: seq<Image>) {
    forall i :: 0 <= i < |images| ==> !Overtaken(s, images, i)
  }

  lemma OvertakenInPrefix(s: Index, images: seq<Image>, n: nat, i: nat)
    requires i < n <= |images|
    ensures Overtaken(s, images[..n], i) == Overtaken(s, images, i)
  {
    assert images[..n][..i] == images[..i];
  }

  lemma NoneInPrefix(s: Index, images: seq<Image>, n: nat)
    requires n <= |images| && forall i :: 0 <= i < n ==> !Overtaken(s, images, i)
    ensures NoneOvertaken(s, images[..n])
  {
    hide Overtaken;
    forall i | 0 <= i < n
      ensures !Overtaken(s, images[..n], i)
    {
      OvertakenInPrefix(s, images, n, i);
    }
  }

  /** The handles of `s` that are still seen in `t` are still skipped in `t`. */
  ghost predicate StillSkips(s: Index, t: Index, host: string, port: int) {
    forall h :: h in s.imageHandles && HandleURL(host, port, h) in t.seen ==> h in t.imageHandles
  }

  lemma UnknownInit(images: seq<Image>, known: set<uint32>)
    requires images != []
    ensures var n := |images| - 1;
            Unknown(images, known)
            == Unknown(images[..n], known) + if images[n].handle in known then [] else [images[n]]
  {
    var n := |images| - 1;
    assert images == images[..n] + [images[n]];
    UnknownAppend(images[..n], [images[n]], known);
    assert Unknown([images[n]], known) == if images[n].handle in known then [] else [images[n]];
  }

  /** A mark of an image the delta poll does not skip keeps the skipped ones in step. */
  lemma MarkStillSkips(s: Index, t: Index, img: Image, host: string, port: int)
    requires Inv(t, host, port) && Canonical(img, host, port)
    requires StillSkips(s, t, host, port) && (img.handle in s.imageHandles ==> img.url in t.seen)
    ensures StillSkips(s, Mark(t, img).0, host, port)
  {
    hide HandleURL, ParseHandle;
    UrlNamesOneHandle(host, port);
    if img.url !in t.seen && |t.seenKeys| == MAX_SEEN {
      var keys := t.seenKeys + [img.url];
      assert keys[0] in t.seenKeys;
      var h0: uint32 :| keys[0] == HandleURL(host, port, h0);
    }
  }

  /** Up to the first overtaken image the two polls do the same. */
  lemma {:induction false} PollsInStep(s: Index, images: seq<Image>, host: string, port: int)
    requires Inv(s, host, port) && AllCanonical(images, host, port)
    requires NoneOvertaken(s, images)
    ensures MarkAll(s, images) == MarkAll(s, Unknown(images, s.imageHandles))
    ensures Inv(MarkAll(s, images).0, host, port) && StillSkips(s, MarkAll(s, images).0, host, port)
  {
    hide Inv, Mark, MarkAll, MarkOne, Unknown, HandleURL, StillSkips;
    if images == [] {
      NothingUnknown(s, host, port);
    } else {
      var n := |images| - 1;
      var img, before, delta := images[n], images[..n], Unknown(images[..n], s.imageHandles);
      NoneInPrefix(s, images, n);
      PollsInStep(s, before, host, port);
      UnknownInit(images, s.imageHandles);
      assert images == before + [img] && !Overtaken(s, images, n);
      MarkAllAppend(s, before, img);
      OneInStep(s, MarkAll(s, before), img, host, port);
      if img.handle in s.imageHandles {
        assert delta + [] == delta;
      } else {
        MarkAllAppend(s, delta, img);
      }
    }
  }

  lemma OneInStep(s: Index, r: (Index, seq<Image>), img: Image, host: string, port: int)
    requires Inv(r.0, host, port) && Canonical(img, host, port)
    requires StillSkips(s, r.0, host, port) && (img.handle in s.imageHandles ==> img.url in r.0.seen)
    ensures Inv(MarkOne(r, img).0, host, port) && StillSkips(s, MarkOne(r, img).0, host, port)
    ensures img.handle in s.imageHandles ==> MarkOne(r, img) == r
  {
    hide Inv, Mark, HandleURL;
    MarkStillSkips(s, r.0, img, host, port);
    ActKeepsInv(r.0, Marking(img), host, port);
    if img.handle in s.imageHandles {
      SkippedMark(r.0, img, host, port);
    }
  }

  lemma NothingUnknown(s: Index, host: string, port: int)
    ensures Unknown([], s.imageHandles) == [] && MarkAll(s, []) == (s, []) && StillSkips(s, s, host, port)
  {
  }

  lemma SkippedMark(t: Index, img: Image, host: string, port: int)
    requires img.url in t.seen && img.handle in t.imageHandles
    ensures Mark(t, img) == (t, false)
  {
    assert t.imageHandles + {img.handle} == t.imageHandles;
  }

  lemma {:induction false} EmittedFrom(s: Index, images: seq<Image>)
    ensures forall img :: img in MarkAll(s, images).1 ==> img in images
  {
    if images != [] {
      EmittedFrom(s, images[..|images| - 1]);
    }
  }

  lemma {:induction false} UnknownOnly(images: seq<Image>, known: set<uint32>)
    ensures forall img :: img in Unknown(images, known) ==> img.handle !in known
  {
    if images != [] {
      UnknownOnly(images[1..], known);
    }
  }

  lemma {:induction false} EmittedGrows(s: Index, images: seq<Image>, n: nat)
    requires n <= |images|
    ensures |MarkAll(s, images[..n]).1| <= |MarkAll(s, images).1|
    ensures MarkAll(s, images[..n]).1 == MarkAll(s, images).1[..|MarkAll(s, images[..n]).1|]
  {
    if n == |images| {
      assert images[..n] == images;
    } else {
      var m := |images| - 1;
      assert images[..m][..n] == images[..n];
      EmittedGrows(s, images[..m], n);
    }
  }

  lemma OvertakenIsEmitted(s: Index, images: seq<Image>, i: nat)
    requires i < |images| && Overtaken(s, images, i)
    requires MarkAll(s, images[..i]) == MarkAll(s, Unknown(images[..i], s.imageHandles))
    ensures images[i].handle in s.imageHandles
    ensures images[i] in MarkAll(s, images[..i + 1]).1
  {
    assert images[..i + 1][..i] == images[..i];
  }

  /** A poll emits the same images whether it lists everything or only what it does not
      know, exactly when the ring overtakes none of the images it skips. */
  lemma PollAgreesIff(s: Index, images: seq<Image>, host: string, port: int)
    requires Inv(s, host, port) && AllCanonical(images, host, port)
    ensures MarkAll(s, images).1 == MarkAll(s, Unknown(images, s.imageHandles)).1
       <==> NoneOvertaken(s, images)
  {
    hide Overtaken, Inv, Mark;
    if NoneOvertaken(s, images) {
      PollsInStep(s, images, host, port);
    } else {
      var i := FirstOvertaken(s, images);
      NoneInPrefix(s, images, i);
      PollsInStep(s, images[..i], host, port);
      OvertakenIsEmitted(s, images, i);
      EmittedGrows(s, images, i + 1);
      EmittedFrom(s, Unknown(images, s.imageHandles));
      UnknownOnly(images, s.imageHandles);
    }
  }

  lemma {:induction false} FirstOvertaken(s: Index, images: seq<Image>) returns (i: nat)
    requires !NoneOvertaken(s, images)
    ensures i < |images| && Overtaken(s, images, i)
    ensures forall j :: 0 <= j < i ==> !Overtaken(s, images, j)
  {
    i := 0;
    while !Overtaken(s, images, i)
      invariant i < |images|
      invariant forall j :: 0 <= j < i ==> !Overtaken(s, images, j)
      decreases |images| - i
    {
      i := i + 1;
    }
  }

  /** While the ring has room for everything a poll emits it drops nothing. */
  lemma {:induction false} RoomForAll(s: Index, images: seq<Image>)
    requires |s.seenKeys| + |MarkAll(s, images).1| <= MAX_SEEN
    ensures MarkAll(s, images).0.seen >= s.seen
    ensures |MarkAll(s, images).0.seenKeys| == |s.seenKeys| + |MarkAll(s, images).1|
  {
    if images != [] {
      RoomForAll(s, images[..|images| - 1]);
    }
  }

  lemma {:induction false} RoomMeansNoneOvertaken(s: Index, images: seq<Image>, n: nat, host: string, port: int)
    requires Inv(s, host, port) && AllCanonical(images, host, port) && n <= |images|
    requires |s.seenKeys| + |MarkAll(s, images).1| <= MAX_SEEN
    ensures forall i :: 0 <= i < n ==> !Overtaken(s, images, i)
  {
    hide MarkAll, Overtaken, Inv, AllCanonical;
    if n > 0 {
      RoomMeansNoneOvertaken(s, images, n - 1, host, port);
      RoomMeansNotOvertaken(s, images, n - 1, host, port);
    }
  }

  lemma RoomMeansNotOvertaken(s: Index, images: seq<Image>, i: nat, host: string, port: int)
    requires Inv(s, host, port) && AllCanonical(images, host, port) && i < |images|
    requires |s.seenKeys| + |MarkAll(s, images).1| <= MAX_SEEN
    requires forall j :: 0 <= j < i ==> !Overtaken(s, images, j)
    ensures !Overtaken(s, images, i)
  {
    hide MarkAll, HandleURL;
    NoneInPrefix(s, images, i) by { hide Overtaken; }
    PollsInStep(s, images[..i], host, port);
    EmittedGrows(s, images, i);
    RoomForAll(s, images[..i]);
    assert Canonical(images[i], host, port);
  }

  /** ...so in that case the two polls agree, on the index as well. */
  lemma PollAgrees(s: Index, images: seq<Image>, host: string, port: int)
    requires Inv(s, host, port) && AllCanonical(images, host, port)
    requires |s.seenKeys| + |MarkAll(s, images).1| <= MAX_SEEN
    ensures MarkAll(s, images) == MarkAll(s, Unknown(images, s.imageHandles))
    ensures Inv(MarkAll(s, images).0, host, port)
    ensures |MarkAll(s, images).0.seenKeys| == |s.seenKeys| + |MarkAll(s, images).1|
  {
    RoomMeansNoneOvertaken(s, images, |images|, host, port);
    PollsInStep(s, images, host, port);
    RoomForAll(s, images);
  }

  // ---- Runs ----

  /** Polls of a camera that may have changed in every way since the last poll, and
      calls of EvictHandle between them. */
  datatype Event = Poll(camera: Camera, volumes: seq<Volume>) | Forget(url: string)

  function At(host: string, port: int, camera: Camera): Context {
    Context(host, port, camera, 0, "", map[])
  }

  /** The poller of the source: one full scan, then delta scans. */
  function DeltaRun(s: Index, initialDone: bool, events: seq<Event>, host: string, port: int): (Index, seq<Image>)
    decreases |events|
  {
    if events == [] then (s, [])
    else
      match events[0]
      case Forget(url) => DeltaRun(Evict(s, url), initialDone, events[1..], host, port)
      case Poll(camera, volumes) =>
        match ScanVolumes(At(host, port, camera), volumes, if initialDone then s.imageHandles else {}, []).outcome
        case Err(_) => DeltaRun(s, initialDone, events[1..], host, port)
        case Ok(images) =>
          var (t, emitted) := MarkAll(s, images);
          var (u, more) := DeltaRun(t, true, events[1..], host, port);
          (u, emitted + more)
  }

  /** The reference: list everything at each poll, emit the URLs not seen before. */
  function FullRun(s: Index, events: seq<Event>, host: string, port: int): (Index, seq<Image>)
    decreases |events|
  {
    if events == [] then (s, [])
    else
      match events[0]
      case Forget(url) => FullRun(Evict(s, url), events[1..], host, port)
      case Poll(camera, volumes) =>
        match ScanVolumes(At(host, port, camera), volumes, {}, []).outcome
        case Err(_) => FullRun(s, events[1..], host, port)
        case Ok(images) =>
          var (t, emitted) := MarkAll(s, images);
          var (u, more) := FullRun(t, events[1..], host, port);
          (u, emitted + more)
  }

  /** A poll meets no error, no skipped handle has become a container, and no root
      fallback brings up an image that is not skipped. */
  ghost predicate CalmPoll(s: Index, x: Context, volumes: seq<Volume>) {
    && ScanVolumes(x, volumes, {}, []).outcome.Ok?
    && OnlyLeavesKnown(x, volumes, s.imageHandles)
    && forall i :: i in FallbackImages(x, volumes, []) ==> i.handle in s.imageHandles
  }

  /** Every delta poll of the run is calm in the state it starts from. */
  ghost predicate Calm(s: Index, initialDone: bool, events: seq<Event>, host: string, port: int)
    decreases |events|
  {
    events == [] ||
    match events[0]
    case Forget(url) => Calm(Evict(s, url), initialDone, events[1..], host, port)
    case Poll(camera, volumes) =>
      var x := At(host, port, camera);
      && ScanVolumes(x, volumes, {}, []).outcome.Ok?
      && (initialDone ==> s.imageHandles == {} || CalmPoll(s, x, volumes))
      && Calm(MarkAll(s, ScanVolumes(x, volumes, {}, []).outcome.value).0, true, events[1..], host, port)
  }

  lemma PollStep(s: Index, initialDone: bool, x: Context, volumes: seq<Volume>)
    requires Inv(s, x.host, x.port) && ScanVolumes(x, volumes, {}, []).outcome.Ok?
    requires initialDone ==> s.imageHandles == {} || CalmPoll(s, x, volumes)
    requires |s.seenKeys| + |MarkAll(s, ScanVolumes(x, volumes, {}, []).outcome.value).1| <= MAX_SEEN
    ensures var images := ScanVolumes(x, volumes, {}, []).outcome.value;
            var delta := ScanVolumes(x, volumes, if initialDone then s.imageHandles else {}, []).outcome;
            && delta.Ok? && MarkAll(s, delta.value) == MarkAll(s, images)
            && Inv(MarkAll(s, images).0, x.host, x.port)
            && |MarkAll(s, images).0.seenKeys| == |s.seenKeys| + |MarkAll(s, images).1|
  {
    hide Inv, MarkAll, ScanVolumes, OnlyLeavesKnown;
    var images := ScanVolumes(x, volumes, {}, []).outcome.value;
    VolumesCanonical(x, volumes, {}, []);
    PollAgrees(s, images, x.host, x.port);
    if initialDone && s.imageHandles != {} {
      DeltaListing(x, volumes, s.imageHandles);
    }
  }

  /** Over any run of calm polls and evictions between polls, as long as what the run emits
      fits the ring, delta polling emits the same images in the same order as
      listing everything each time, and ends with the same index. */
  lemma {:induction false} DeltaInStep(s: Index, initialDone: bool, events: seq<Event>, host: string, port: int)
    requires Inv(s, host, port) && Calm(s, initialDone, events, host, port)
    requires |s.seenKeys| + |FullRun(s, events, host, port).1| <= MAX_SEEN
    ensures DeltaRun(s, initialDone, events, host, port) == FullRun(s, events, host, port)
    decreases |events|
  {
    hide Inv, MarkAll, ScanVolumes, Evict, CalmPoll;
    if events != [] {
      match events[0]
      case Forget(url) =>
        EvictKeepsKeys(s, url, host, port);
        DeltaInStep(Evict(s, url), initialDone, events[1..], host, port);
      case Poll(camera, volumes) =>
        var x := At(host, port, camera);
        PollStep(s, initialDone, x, volumes);
        DeltaInStep(MarkAll(s, ScanVolumes(x, volumes, {}, []).outcome.value).0, true, events[1..], host, port);
    }
  }

  lemma EvictKeepsKeys(s: Index, url: string, host: string, port: int)
    requires Inv(s, host, port)
    ensures Inv(Evict(s, url), host, port) && Evict(s, url).seenKeys == s.seenKeys
  {
    ActKeepsInv(s, Evicting(url), host, port);
  }

  // ---- Scanned images are canonical ----

  ghost predicate ScanCanonical(s: Scan, x: Context) {
    s.outcome.Ok? ==> AllCanonical(s.outcome.value, x.host, x.port)
  }

  lemma {:induction false} FolderCanonical(x: Context, parent: uint32, depth: nat, known: set<uint32>)
    ensures ScanCanonical(ScanFolder(x, parent, depth, known), x)
    decreases LevelsBelow(depth), 1, 0
  {
    if depth <= MAX_DEPTH && x.List(parent).Ok? {
      HandlesCanonical(x, x.List(parent).value, depth, known);
    }
  }

  lemma {:induction false} HandlesCanonical(x: Context, handles: seq<uint32>, depth: nat, known: set<uint32>)
    requires depth <= MAX_DEPTH
    ensures ScanCanonical(ScanHandles(x, handles, depth, known), x)
    decreases LevelsBelow(depth), 0, |handles|
  {
    hide HandleURL, ScanFolder;
    if handles != [] {
      FolderCanonical(x, handles[0], depth + 1, known);
      HandlesCanonical(x, handles[1..], depth, known);
    }
  }

  lemma {:induction false} FoldersCanonical(x: Context, v: Volume, folders: seq<Folder>, known: set<uint32>)
    ensures ScanCanonical(ScanFolders(x, v, folders, known), x)
  {
    hide HandleURL, ScanFolder;
    if folders != [] {
      FolderCanonical(InFolder(x, v, folders[0].name), folders[0].handle, 0, known);
      FoldersCanonical(x, v, folders[1..], known);
    }
  }

  /** Every image a listing returns carries the URL made from its handle. */
  lemma {:induction false} VolumesCanonical(x: Context, vs: seq<Volume>, known: set<uint32>, found: seq<Image>)
    ensures ScanCanonical(ScanVolumes(x, vs, known, found), x)
  {
    hide HandleURL, ScanOne;
    if vs != [] {
      OneCanonical(x, vs[0], known, found);
      if ScanOne(x, vs[0], known, found).outcome.Ok? {
        VolumesCanonical(x, vs[1..], known, found + ScanOne(x, vs[0], known, found).outcome.value);
      }
    }
  }

  lemma OneCanonical(x: Context, v: Volume, known: set<uint32>, found: seq<Image>)
    ensures ScanCanonical(ScanOne(x, v, known, found), x)
  {
    hide HandleURL, ScanFolder, ScanFolders;
    FoldersCanonical(x, v, v.folders, known);
    FolderCanonical(InFolder(x, v, ""), ROOT, 0, known);
  }
}
