/** Delta polling over whole runs: a bound on what the camera shows and on the evictions
    under which it equals rescanning everything, where the bound stops, and which images
    the ring overtakes. */
module PollRuns {
  import opened Bytes
  import opened Ptp
  import opened HandleUrl
  import opened Objects
  import opened Enumeration
  import opened Poller
  import opened DeltaPolling

  // ---- Which images are overtaken ----

  /** The first place of a URL in the ring; its length when it is not there. */
  function FirstIndex(keys: seq<string>, url: string): (k: nat)
    ensures k <= |keys|
    ensures forall j :: 0 <= j < k ==> keys[j] != url
    ensures k < |keys| ==> keys[k] == url
  {
    if keys == [] || keys[0] == url then 0 else 1 + FirstIndex(keys[1..], url)
  }

  /** All that was ever on the ring is `keys` and then `more`; it holds the end of that, and
      a URL of `keys` is seen until the ring reaches it. */
  ghost predicate RingHolds(t: Index, keys: seq<string>, more: seq<string>, url: string) {
    && |t.seenKeys| <= MAX_SEEN
    && t.seenKeys == (keys + more)[Dropped(0, |keys + more|)..]
    && url !in more
    && (url in t.seen <==> Dropped(0, |keys + more|) <= FirstIndex(keys, url))
  }

  lemma RingStep(t: Index, keys: seq<string>, more: seq<string>, url: string, img: Image)
    requires RingHolds(t, keys, more, url) && url in keys && img.url != url
    ensures var (u, isNew) := Mark(t, img);
            RingHolds(u, keys, if isNew then more + [img.url] else more, url)
  {
    hide Mark, FirstIndex;
    var all := keys + more;
    MarkRing(t, all, img);
    assert keys + (more + [img.url]) == all + [img.url];
    FirstOf(keys, more + [img.url], url);
  }

  /** The ring after a poll is what it was and what was emitted, less what it dropped; and
      a seen URL that the poll does not come to is forgotten when the ring reaches it. */
  lemma {:induction false} RingAfter(s: Index, images: seq<Image>, url: string)
    requires |s.seenKeys| <= MAX_SEEN && url in s.seen && url in s.seenKeys && url !in Urls(images)
    ensures RingHolds(MarkAll(s, images).0, s.seenKeys, Urls(MarkAll(s, images).1), url)
  {
    hide Mark, RingHolds;
    if images == [] {
      RingStarts(s, url);
      assert Urls(MarkAll(s, []).1) == [];
    } else {
      var n := |images| - 1;
      var img, before := images[n], images[..n];
      assert img.url != url by { assert Urls(images)[n] == img.url; }
      assert url !in Urls(before) by { UrlsPrefix(images, n); }
      RingAfter(s, before, url);
      var (t, emitted) := MarkAll(s, before);
      RingStep(t, s.seenKeys, Urls(emitted), url, img);
      UrlsMore(emitted, img);
    }
  }

  lemma RingStarts(s: Index, url: string)
    requires |s.seenKeys| <= MAX_SEEN && url in s.seen && url in s.seenKeys
    ensures RingHolds(s, s.seenKeys, [], url)
  {
    assert s.seenKeys + [] == s.seenKeys;
  }

  lemma UrlsPrefix(images: seq<Image>, n: nat)
    requires n <= |images|
    ensures forall u :: u in Urls(images[..n]) ==> u in Urls(images)
  {
    assert Urls(images[..n]) == Urls(images)[..n];
  }

  lemma UrlsMore(images: seq<Image>, img: Image)
    ensures Urls(images + [img]) == Urls(images) + [img.url]
  {
  }

  /** The first place of `url` in a ring is its first place in what follows on it. */
  lemma FirstOf(keys: seq<string>, more: seq<string>, url: string)
    requires url in keys && url !in more
    ensures var k := FirstIndex(keys, url);
            && k < |keys| && (keys + more)[k] == url
            && forall j :: 0 <= j < |keys + more| && (keys + more)[j] == url ==> k <= j
  {
  }

  /** An image is overtaken exactly when the delta poll skips it and the ring drops more
      URLs, before the poll comes to it, than stand before its URL. */
  lemma OvertakenIff(s: Index, images: seq<Image>, i: nat, host: string, port: int)
    requires Inv(s, host, port) && AllCanonical(images, host, port) && i < |images|
    ensures var fresher := |MarkAll(s, Unknown(images[..i], s.imageHandles)).1|;
            Overtaken(s, images, i) <==>
            images[i].handle in s.imageHandles && Dropped(|s.seenKeys|, fresher) > FirstIndex(s.seenKeys, images[i].url)
  {
    hide HandleURL, MarkAll, FirstIndex;
    var url, more := images[i].url, Unknown(images[..i], s.imageHandles);
    if images[i].handle in s.imageHandles {
      assert url in s.seen && url in s.seenKeys;
      assert url !in Urls(more) by { UnknownUrls(images[..i], s.imageHandles, images[i], host, port); }
      RingAfter(s, more, url);
    }
  }

  lemma UnknownUrls(images: seq<Image>, known: set<uint32>, img: Image, host: string, port: int)
    requires AllCanonical(images, host, port) && Canonical(img, host, port) && img.handle in known
    ensures img.url !in Urls(Unknown(images, known))
  {
    hide HandleURL;
    UnknownOnly(images, known);
    UnknownKeepsCanonical(images, known, host, port);
    var more := Unknown(images, known);
    forall k | 0 <= k < |more|
      ensures more[k].url != img.url
    {
      DifferentUrls(more[k], img, host, port);
    }
  }

  lemma {:induction false} UnknownKeepsCanonical(images: seq<Image>, known: set<uint32>, host: string, port: int)
    requires AllCanonical(images, host, port)
    ensures AllCanonical(Unknown(images, known), host, port)
  {
    hide HandleURL;
    if images != [] {
      UnknownKeepsCanonical(images[1..], known, host, port);
    }
  }

  /** What each poll of the run emits, for the poller of the source... */
  function DeltaPolls(s: Index, initialDone: bool, events: seq<Event>, host: string, port: int): seq<seq<Image>>
    decreases |events|
  {
    if events == [] then []
    else
      match events[0]
      case Forget(url) => DeltaPolls(Evict(s, url), initialDone, events[1..], host, port)
      case Poll(camera, volumes) =>
        match ScanVolumes(At(host, port, camera), volumes, if initialDone then s.imageHandles else {}, []).outcome
        case Err(_) => [[]] + DeltaPolls(s, initialDone, events[1..], host, port)
        case Ok(images) => [MarkAll(s, images).1] + DeltaPolls(MarkAll(s, images).0, true, events[1..], host, port)
  }

  /** ...and for the reference. */
  function FullPolls(s: Index, events: seq<Event>, host: string, port: int): seq<seq<Image>>
    decreases |events|
  {
    if events == [] then []
    else
      match events[0]
      case Forget(url) => FullPolls(Evict(s, url), events[1..], host, port)
      case Poll(camera, volumes) =>
        match ScanVolumes(At(host, port, camera), volumes, {}, []).outcome
        case Err(_) => [[]] + FullPolls(s, events[1..], host, port)
        case Ok(images) => [MarkAll(s, images).1] + FullPolls(MarkAll(s, images).0, events[1..], host, port)
  }

  /** No delta poll of the run skips an image that the ring has overtaken. */
  ghost predicate NeverOvertaken(s: Index, initialDone: bool, events: seq<Event>, host: string, port: int)
    decreases |events|
  {
    events == [] ||
    match events[0]
    case Forget(url) => NeverOvertaken(Evict(s, url), initialDone, events[1..], host, port)
    case Poll(camera, volumes) =>
      match ScanVolumes(At(host, port, camera), volumes, {}, []).outcome
      case Err(_) => NeverOvertaken(s, initialDone, events[1..], host, port)
      case Ok(images) =>
        (initialDone ==> NoneOvertaken(s, images))
        && NeverOvertaken(MarkAll(s, images).0, true, events[1..], host, port)
  }

  lemma DeltaPollLists(s: Index, initialDone: bool, x: Context, volumes: seq<Volume>)
    requires ScanVolumes(x, volumes, {}, []).outcome.Ok?
    requires initialDone ==> s.imageHandles == {} || CalmPoll(s, x, volumes)
    ensures var images := ScanVolumes(x, volumes, {}, []).outcome.value;
            ScanVolumes(x, volumes, if initialDone then s.imageHandles else {}, []).outcome
            == Ok(if initialDone then Unknown(images, s.imageHandles) else images)
  {
    hide ScanVolumes, OnlyLeavesKnown, FallbackImages;
    if initialDone && s.imageHandles != {} {
      DeltaListing(x, volumes, s.imageHandles);
    } else {
      AllUnknown(ScanVolumes(x, volumes, {}, []).outcome.value);
    }
  }

  lemma {:induction false} AllUnknown(images: seq<Image>)
    ensures Unknown(images, {}) == images
  {
    if images != [] {
      AllUnknown(images[1..]);
    }
  }

  /** Over any run of calm polls and evictions between them, every poll emits what a full
      poll emits exactly when no delta poll skips an image that the ring has overtaken. */
  lemma {:induction false} EveryPollAgreesIff(s: Index, initialDone: bool, events: seq<Event>, host: string, port: int)
    requires Inv(s, host, port) && Calm(s, initialDone, events, host, port)
    ensures DeltaPolls(s, initialDone, events, host, port) == FullPolls(s, events, host, port)
       <==> NeverOvertaken(s, initialDone, events, host, port)
    decreases |events|
  {
    hide Inv, MarkAll, ScanVolumes, Evict, CalmPoll, NoneOvertaken, Unknown, AllCanonical;
    if events != [] {
      match events[0]
      case Forget(url) =>
        EvictKeepsKeys(s, url, host, port);
        EveryPollAgreesIff(Evict(s, url), initialDone, events[1..], host, port);
      case Poll(camera, volumes) =>
        var x := At(host, port, camera);
        var images := ScanVolumes(x, volumes, {}, []).outcome.value;
        DeltaPollLists(s, initialDone, x, volumes);
        assert AllCanonical(images, host, port) by { ScannedCanonical(x, volumes); }
        MarkAllKeepsInv(s, images, host, port);
        if initialDone {
          PollAgreesIff(s, images, host, port);
        }
        if initialDone && NoneOvertaken(s, images) {
          PollsInStep(s, images, host, port);
        }
        if !initialDone || NoneOvertaken(s, images) {
          EveryPollAgreesIff(MarkAll(s, images).0, true, events[1..], host, port);
        }
        SameHeads(DeltaPolls(s, initialDone, events, host, port), FullPolls(s, events, host, port));
    }
  }

  lemma SameHeads(xs: seq<seq<Image>>, ys: seq<seq<Image>>)
    requires xs != [] && ys != []
    ensures xs == ys <==> xs[0] == ys[0] && xs[1..] == ys[1..]
  {
    assert xs == [xs[0]] + xs[1..] && ys == [ys[0]] + ys[1..];
  }

  lemma ScannedCanonical(x: Context, volumes: seq<Volume>)
    requires ScanVolumes(x, volumes, {}, []).outcome.Ok?
    ensures AllCanonical(ScanVolumes(x, volumes, {}, []).outcome.value, x.host, x.port)
  {
    hide ScanVolumes, AllCanonical;
    VolumesCanonical(x, volumes, {}, []);
  }

  lemma {:induction false} MarkAllKeepsInv(s: Index, images: seq<Image>, host: string, port: int)
    requires Inv(s, host, port) && AllCanonical(images, host, port)
    ensures Inv(MarkAll(s, images).0, host, port)
  {
    hide Inv, Mark, HandleURL;
    if images != [] {
      var n := |images| - 1;
      MarkAllKeepsInv(s, images[..n], host, port);
      ActKeepsInv(MarkAll(s, images[..n]).0, Marking(images[n]), host, port);
    }
  }

  // ---- What a run can emit ----

  function UrlSet(images: seq<Image>): set<string> {
    set i | 0 <= i < |images| :: images[i].url
  }

  function HandleSet(images: seq<Image>): set<uint32> {
    set i | 0 <= i < |images| :: images[i].handle
  }

  /** What a full listing shows; nothing when it fails. */
  function Shown(camera: Camera, volumes: seq<Volume>, host: string, port: int): seq<Image> {
    match ScanVolumes(At(host, port, camera), volumes, {}, []).outcome
    case Ok(images) => images
    case Err(_) => []
  }

  /** The URLs that the camera shows during the run. */
  function Listed(events: seq<Event>, host: string, port: int): set<string> {
    if events == [] then {}
    else (if events[0].Poll? then UrlSet(Shown(events[0].camera, events[0].volumes, host, port)) else {})
         + Listed(events[1..], host, port)
  }

  function Forgets(events: seq<Event>): nat {
    if events == [] then 0 else (if events[0].Forget? then 1 else 0) + Forgets(events[1..])
  }

  lemma RoomMark(t: Index, img: Image)
    requires img.url in t.seen || |t.seenKeys| < MAX_SEEN
    ensures var (u, isNew) := Mark(t, img);
            && isNew == (img.url !in t.seen) && u.seen == t.seen + {img.url}
            && |u.seenKeys| == |t.seenKeys| + if isNew then 1 else 0
  {
    hide ParseHandle;
  }

  /** While the ring has room, a poll emits exactly the URLs it has not seen. */
  lemma {:induction false} RoomEmits(s: Index, images: seq<Image>)
    requires |s.seenKeys| + |UrlSet(images) - s.seen| <= MAX_SEEN
    ensures var (t, emitted) := MarkAll(s, images);
            && t.seen == s.seen + UrlSet(images)
            && |emitted| == |UrlSet(images) - s.seen|
            && |t.seenKeys| == |s.seenKeys| + |emitted|
  {
    hide Mark, UrlSet;
    if images == [] {
      NoUrls();
    } else {
      var n := |images| - 1;
      var img, before := images[n], images[..n];
      UrlSetMore(before, img);
      assert images == before + [img];
      var more, fewer := UrlSet(images) - s.seen, UrlSet(before) - s.seen;
      if img.url in s.seen + UrlSet(before) {
        assert more == fewer;
      } else {
        assert more == fewer + {img.url} && img.url !in fewer;
      }
      RoomEmits(s, before);
      RoomMark(MarkAll(s, before).0, img);
    }
  }

  lemma NoUrls()
    ensures UrlSet([]) == {}
  {
  }

  lemma UrlSetMore(images: seq<Image>, img: Image)
    ensures UrlSet(images + [img]) == UrlSet(images) + {img.url}
  {
    var more := images + [img];
    assert forall i :: 0 <= i < |images| ==> more[i] == images[i];
    assert more[|images|] == img;
  }

  /** Each emission takes a URL from those not seen, and each eviction gives at most one
      back; so a run emits no more than the URLs shown and the evictions. */
  lemma {:induction false} EmissionsBounded(s: Index, events: seq<Event>, host: string, port: int)
    requires |s.seenKeys| + |Listed(events, host, port) - s.seen| + Forgets(events) <= MAX_SEEN
    ensures |s.seenKeys| + |FullRun(s, events, host, port).1| <= MAX_SEEN
    decreases |events|
  {
    hide ScanVolumes, MarkAll, UrlSet, ParseHandle;
    if events != [] {
      var rest := Listed(events[1..], host, port);
      match events[0]
      case Forget(url) =>
        SetBound(rest - Evict(s, url).seen, (rest - s.seen) + {url});
        EmissionsBounded(Evict(s, url), events[1..], host, port);
      case Poll(camera, volumes) =>
        var shown := Shown(camera, volumes, host, port);
        if ScanVolumes(At(host, port, camera), volumes, {}, []).outcome.Ok? {
          var more, left := UrlSet(shown) - s.seen, rest - (s.seen + UrlSet(shown));
          assert Listed(events, host, port) - s.seen == more + left;
          assert more !! left;
          assert |more + left| == |more| + |left|;
          RoomEmits(s, shown);
          EmissionsBounded(MarkAll(s, shown).0, events[1..], host, port);
        } else {
          SetBound(rest - s.seen, Listed(events, host, port) - s.seen);
          EmissionsBounded(s, events[1..], host, port);
        }
    }
  }

  lemma SetBound<T>(a: set<T>, b: set<T>)
    requires a <= b
    ensures |a| <= |b|
  {
    assert a + (b - a) == b;
  }

  // ---- Delta polling equals rescanning ----

  /** No poll of the run fails, and at each one no handle that was listed as an image
      before has become a container, and nothing is found by a root fallback. `known` are
      the handles listed before the run. */
  ghost predicate Quiet(known: set<uint32>, events: seq<Event>, host: string, port: int)
    decreases |events|
  {
    events == [] ||
    match events[0]
    case Forget(_) => Quiet(known, events[1..], host, port)
    case Poll(camera, volumes) =>
      var x := At(host, port, camera);
      && ScanVolumes(x, volumes, {}, []).outcome.Ok?
      && (known == {} || (OnlyLeavesKnown(x, volumes, known) && FallbackImages(x, volumes, []) == []))
      && Quiet(known + HandleSet(Shown(camera, volumes, host, port)), events[1..], host, port)
  }

  lemma MarkHandles(t: Index, img: Image)
    ensures Mark(t, img).0.imageHandles <= t.imageHandles + {img.handle}
  {
    hide ParseHandle;
  }

  lemma HandleSetMore(images: seq<Image>, img: Image)
    ensures HandleSet(images + [img]) == HandleSet(images) + {img.handle}
  {
    var more := images + [img];
    assert forall i :: 0 <= i < |images| ==> more[i] == images[i];
    assert more[|images|] == img;
  }

  lemma {:induction false} MarksOnly(s: Index, images: seq<Image>)
    ensures MarkAll(s, images).0.imageHandles <= s.imageHandles + HandleSet(images)
  {
    hide Mark, HandleSet;
    if images != [] {
      var n := |images| - 1;
      MarksOnly(s, images[..n]);
      assert images == images[..n] + [images[n]];
      HandleSetMore(images[..n], images[n]);
      MarkHandles(MarkAll(s, images[..n]).0, images[n]);
    }
  }

  lemma LeavesOfFewer(x: Context, vs: seq<Volume>, known: set<uint32>, fewer: set<uint32>)
    requires OnlyLeavesKnown(x, vs, known) && fewer <= known
    ensures OnlyLeavesKnown(x, vs, fewer)
  {
    hide IsContainer;
  }

  lemma {:induction false} QuietIsCalm(s: Index, initialDone: bool, known: set<uint32>, events: seq<Event>,
                                       host: string, port: int)
    requires Quiet(known, events, host, port) && s.imageHandles <= known
    ensures Calm(s, initialDone, events, host, port)
    decreases |events|
  {
    hide ScanVolumes, MarkAll, OnlyLeavesKnown, FallbackImages;
    if events != [] {
      match events[0]
      case Forget(url) => QuietIsCalm(Evict(s, url), initialDone, known, events[1..], host, port);
      case Poll(camera, volumes) =>
        var shown := Shown(camera, volumes, host, port);
        MarksOnly(s, shown);
        if known != {} {
          LeavesOfFewer(At(host, port, camera), volumes, known, s.imageHandles);
        }
        QuietIsCalm(MarkAll(s, shown).0, true, known + HandleSet(shown), events[1..], host, port);
    }
  }

  /** Over any run of polls and of evictions between them, with no error, no handle turning
      into a container and no root fallback: if the URLs the camera shows and the
      evictions are together at most 50,000, delta polling emits the same images in the
      same order as rescanning everything and dropping the URLs seen. */
  lemma DeltaEqualsFull(events: seq<Event>, host: string, port: int)
    requires Quiet({}, events, host, port)
    requires |Listed(events, host, port)| + Forgets(events) <= MAX_SEEN
    ensures DeltaRun(EMPTY, false, events, host, port) == FullRun(EMPTY, events, host, port)
  {
    hide Quiet, Listed, DeltaRun, FullRun, Calm;
    assert Listed(events, host, port) - {} == Listed(events, host, port);
    EmissionsBounded(EMPTY, events, host, port);
    QuietIsCalm(EMPTY, false, {}, events, host, port);
    DeltaInStep(EMPTY, false, events, host, port);
  }

  // ---- Where the claim stops ----

  /** `n` times: mark an image, then evict its URL. */
  function MarkAndEvict(img: Image, n: nat): (actions: seq<Action>)
    ensures |actions| == 2 * n
  {
    if n == 0 then [] else MarkAndEvict(img, n - 1) + [Marking(img), Evicting(img.url)]
  }

  lemma RunOneMore(actions: seq<Action>, a: Action)
    ensures RunActions(EMPTY, actions + [a]) == Act(RunActions(EMPTY, actions), a)
  {
    assert (actions + [a])[..|actions|] == actions;
  }

  /** The index after `img` has been marked `n` times, the last time without eviction. */
  function Filled(img: Image, n: nat): Index {
    Index({img.url}, Copies(img.url, n), {img.handle})
  }

  function Copies(url: string, n: nat): (urls: seq<string>)
    ensures |urls| == n && forall i :: 0 <= i < n ==> urls[i] == url
  {
    seq(n, _ => url)
  }

  lemma MarkAfterEviction(img: Image, n: nat)
    requires img.handle != 0 && 0 < n <= MAX_SEEN
    ensures Mark(Index({}, Copies(img.url, n - 1), {}), img) == (Filled(img, n), true)
  {
    assert Copies(img.url, n - 1) + [img.url] == Copies(img.url, n);
    assert {} + {img.url} == {img.url} && {} + {img.handle} == {img.handle};
  }

  lemma {:induction false} EvictionsFillTheRing(img: Image, n: nat, host: string, port: int)
    requires Canonical(img, host, port) && img.handle != 0 && n <= MAX_SEEN
    ensures RunActions(EMPTY, MarkAndEvict(img, n)) == Index({}, Copies(img.url, n), {})
  {
    hide Mark, RunActions, HandleURL;
    if n == 0 {
      assert RunActions(EMPTY, []) == EMPTY by { NoActions(); }
    } else {
      var before := MarkAndEvict(img, n - 1);
      EvictionsFillTheRing(img, n - 1, host, port);
      HandleRoundTrip(host, port, img.handle);
      MarkAfterEviction(img, n);
      RunOneMore(before, Marking(img));
      RunOneMore(before + [Marking(img)], Evicting(img.url));
      assert MarkAndEvict(img, n) == before + [Marking(img)] + [Evicting(img.url)];
    }
  }

  lemma NoActions()
    ensures RunActions(EMPTY, []) == EMPTY
  {
  }

  lemma MarkOnFullRing(first: Image, second: Image, host: string, port: int)
    requires Canonical(first, host, port) && Canonical(second, host, port)
    requires first.handle != 0 && second.handle != first.handle
    ensures var (t, isNew) := Mark(Filled(first, MAX_SEEN), second);
            isNew && t.seen == {second.url}
  {
    hide HandleURL, ParseHandle;
    HandleRoundTrip(host, port, first.handle);
    HandleRoundTrip(host, port, second.handle);
  }

  /** After one URL has been marked 50,000 times, with evictions in between, it fills the
      ring; a poll that finds a second image pushes it out of `seen` before coming to it. */
  lemma SecondPushesFirstOut(first: Image, second: Image, host: string, port: int)
    requires Canonical(first, host, port) && Canonical(second, host, port)
    requires first.handle != 0 && second.handle != first.handle
    ensures var s := RunActions(EMPTY, MarkAndEvict(first, MAX_SEEN - 1) + [Marking(first)]);
            var images := [second, first];
            && MarkAll(s, images).1 == [second, first]
            && MarkAll(s, Unknown(images, s.imageHandles)).1 == [second]
  {
    hide Mark, MarkAll, RunActions, HandleURL, ParseHandle;
    var s := Filled(first, MAX_SEEN);
    RunOneMore(MarkAndEvict(first, MAX_SEEN - 1), Marking(first));
    EvictionsFillTheRing(first, MAX_SEEN - 1, host, port);
    MarkAfterEviction(first, MAX_SEEN);
    MarkOnFullRing(first, second, host, port);
    DifferentUrls(first, second, host, port);
    UnknownAppend([second], [first], s.imageHandles);
    assert [second] + [first] == [second, first];
    assert Unknown([first], s.imageHandles) == [] && Unknown([second], s.imageHandles) == [second];
    assert Unknown([second, first], s.imageHandles) == [second];
    assert MarkAll(s, []) == (s, []) by { NothingUnknown(s, host, port); }
    MarkAllAppend(s, [], second);
    assert [] + [second] == [second];
    MarkAllAppend(s, [second], first);
    assert [second] + [first] == [second, first];
    assert Mark(Mark(s, second).0, first).1 by { MarkUnseen(Mark(s, second).0, first); }
  }

  lemma DifferentUrls(first: Image, second: Image, host: string, port: int)
    requires Canonical(first, host, port) && Canonical(second, host, port) && second.handle != first.handle
    ensures first.url != second.url
  {
    HandleRoundTrip(host, port, first.handle);
    HandleRoundTrip(host, port, second.handle);
  }

  lemma MarkUnseen(s: Index, img: Image)
    requires img.url !in s.seen
    ensures Mark(s, img).1
  {
  }

  // ---- One more eviction ----

  /** A camera that shows the same kind of image under each of these handles, in its root. */
  function Roll(handles: seq<uint32>, info: ObjectInfo): Camera {
    Camera((storage: uint32, parent: uint32) => if parent == ROOT then Ok(handles) else Ok([]), (h: uint32) => Ok(info))
  }

  const ONE_VOLUME: seq<Volume> := [Volume(1, [])]

  function Shot(h: uint32, info: ObjectInfo, host: string, port: int): Image {
    Image(h, HandleURL(host, port, h), info.filename, info.captureDate, "")
  }

  function Shots(handles: seq<uint32>, known: set<uint32>, info: ObjectInfo, host: string, port: int): seq<Image> {
    if handles == [] then []
    else (if handles[0] in known then [] else [Shot(handles[0], info, host, port)])
         + Shots(handles[1..], known, info, host, port)
  }

  predicate IsPlain(handles: seq<uint32>, info: ObjectInfo) {
    info.format != ASSOCIATION && IsImageFormat(info.format) && forall h :: h in handles ==> h < VIRTUAL
  }

  lemma {:induction false} RollHandles(x: Context, handles: seq<uint32>, known: set<uint32>, info: ObjectInfo)
    requires IsPlain(handles, info) && x.folder == "" && forall h :: x.camera.info(h) == Ok(info)
    ensures ScanHandles(x, handles, 0, known).outcome == Ok(Shots(handles, known, info, x.host, x.port))
  {
    hide HandleURL, IsImageFormat, ScanFolder;
    if handles != [] {
      assert handles[0] in handles && forall h :: h in handles[1..] ==> h in handles;
      RollHandles(x, handles[1..], known, info);
      assert x.camera.info(handles[0]) == Ok(info);
      assert ScanHandle(x, handles[0], 0, known).outcome
          == Ok(if handles[0] in known then [] else [Shot(handles[0], info, x.host, x.port)]);
    }
  }

  /** What a listing of such a camera returns; it has no folders and no container. */
  lemma RollLists(handles: seq<uint32>, known: set<uint32>, info: ObjectInfo, host: string, port: int)
    requires IsPlain(handles, info)
    ensures ScanVolumes(At(host, port, Roll(handles, info)), ONE_VOLUME, known, []).outcome
         == Ok(Shots(handles, known, info, host, port))
  {
    hide HandleURL, IsImageFormat, ScanHandles, NamesByHandle;
    var v := Volume(1, []);
    var x := InFolder(At(host, port, Roll(handles, info)), v, "");
    RollHandles(x, handles, known, info);
    assert ONE_VOLUME == [v] && [v][1..] == [];
    assert ScanRoot(At(host, port, Roll(handles, info)), v, known).outcome == ScanHandles(x, handles, 0, known).outcome;
    ThenNothing(ScanRoot(At(host, port, Roll(handles, info)), v, known));
  }

  lemma RollIsQuiet(handles: seq<uint32>, known: set<uint32>, info: ObjectInfo, host: string, port: int)
    requires IsPlain(handles, info) && forall h :: h in known ==> h < VIRTUAL
    ensures OnlyLeavesKnown(At(host, port, Roll(handles, info)), ONE_VOLUME, known)
    ensures ScanVolumes(At(host, port, Roll(handles, info)), ONE_VOLUME, {}, []).outcome.Ok?
    ensures FallbackImages(At(host, port, Roll(handles, info)), ONE_VOLUME, []) == []
  {
    hide HandleURL, IsImageFormat, ScanHandles, ScanFolder, NamesByHandle;
    RollLists(handles, {}, info, host, port);
    assert ONE_VOLUME[1..] == [];
  }

  /** `n` times: a poll that shows the first image, then its eviction. */
  function ShowAndForget(n: nat, info: ObjectInfo, host: string, port: int): seq<Event> {
    if n == 0 then []
    else [Poll(Roll([1], info), ONE_VOLUME), Forget(HandleURL(host, port, 1))] + ShowAndForget(n - 1, info, host, port)
  }

  /** ...then a poll that shows it and one that shows a second image before it. */
  function OneTooMany(n: nat, info: ObjectInfo, host: string, port: int): seq<Event> {
    ShowAndForget(n, info, host, port) + [Poll(Roll([1], info), ONE_VOLUME), Poll(Roll([2, 1], info), ONE_VOLUME)]
  }

  lemma AfterShow(k: nat, info: ObjectInfo, host: string, port: int)
    requires k < MAX_SEEN
    ensures var first := Shot(1, info, host, port);
            && MarkAll(Index({}, Copies(first.url, k), {}), [first]) == (Filled(first, k + 1), [first])
            && Evict(Filled(first, k + 1), first.url) == Index({}, Copies(first.url, k + 1), {})
  {
    hide Mark, HandleURL, ParseHandle;
    var first := Shot(1, info, host, port);
    var s := Index({}, Copies(first.url, k), {});
    MarkAfterEviction(first, k + 1);
    HandleRoundTrip(host, port, 1);
    assert MarkAll(s, []) == (s, []) by { NothingUnknown(s, host, port); }
    MarkAllAppend(s, [], first);
    assert [] + [first] == [first];
  }

  lemma OneShot(known: set<uint32>, info: ObjectInfo, host: string, port: int)
    ensures Shots([1], known, info, host, port) == if 1 in known then [] else [Shot(1, info, host, port)]
    ensures Shots([2, 1], known, info, host, port)
         == (if 2 in known then [] else [Shot(2, info, host, port)])
            + if 1 in known then [] else [Shot(1, info, host, port)]
  {
    hide HandleURL;
    assert [2, 1][1..] == [1] && [1][1..] == [];
  }

  /** Both runs emit the first image once for each time it is shown, and then go on alike. */
  lemma {:induction false} ShowAndForgetRuns(k: nat, n: nat, done: bool, tail: seq<Event>, info: ObjectInfo,
                                             host: string, port: int)
    requires IsPlain([1, 2], info) && k + n < MAX_SEEN
    ensures var url := HandleURL(host, port, 1);
            var s, t := Index({}, Copies(url, k), {}), Index({}, Copies(url, k + n), {});
            var events := ShowAndForget(n, info, host, port) + tail;
            && |DeltaRun(s, done, events, host, port).1| == n + |DeltaRun(t, done || n > 0, tail, host, port).1|
            && |FullRun(s, events, host, port).1| == n + |FullRun(t, tail, host, port).1|
    decreases n
  {
    hide ScanVolumes, MarkAll, Evict, Shots, Copies, HandleURL, IsPlain;
    if n == 0 {
      assert ShowAndForget(0, info, host, port) + tail == tail;
    } else {
      var first := Shot(1, info, host, port);
      var show, forget := Poll(Roll([1], info), ONE_VOLUME), Forget(first.url);
      var rest := ShowAndForget(n - 1, info, host, port) + tail;
      var events := ShowAndForget(n, info, host, port) + tail;
      assert events == [show] + ([forget] + rest);
      assert events[0] == show && events[1..] == [forget] + rest && ([forget] + rest)[1..] == rest;
      AfterShow(k, info, host, port);
      RollLists([1], {}, info, host, port) by { PlainOne(info); }
      OneShot({}, info, host, port);
      ShowAndForgetRuns(k + 1, n - 1, true, tail, info, host, port);
    }
  }

  lemma PlainOne(info: ObjectInfo)
    requires IsPlain([1, 2], info)
    ensures IsPlain([1], info) && IsPlain([2, 1], info)
  {
    hide IsImageFormat;
  }

  /** The last two polls: the delta run skips the first image, which the second has pushed
      out, and the full run emits it again. */
  lemma LastTwo(done: bool, info: ObjectInfo, host: string, port: int)
    requires IsPlain([1, 2], info)
    ensures var s := Index({}, Copies(HandleURL(host, port, 1), MAX_SEEN - 1), {});
            var tail := [Poll(Roll([1], info), ONE_VOLUME), Poll(Roll([2, 1], info), ONE_VOLUME)];
            |DeltaRun(s, done, tail, host, port).1| == 2 && |FullRun(s, tail, host, port).1| == 3
  {
    hide ScanVolumes, MarkAll, Shots, Copies, HandleURL, IsPlain, Unknown, DeltaRun, FullRun;
    var first, second := Shot(1, info, host, port), Shot(2, info, host, port);
    var one, two := Poll(Roll([1], info), ONE_VOLUME), Poll(Roll([2, 1], info), ONE_VOLUME);
    assert [one, two][1..] == [two] && [two][1..] == [];
    PlainOne(info);
    AfterShow(MAX_SEEN - 1, info, host, port);
    RollLists([1], {}, info, host, port);
    RollLists([2, 1], {}, info, host, port);
    RollLists([2, 1], {1}, info, host, port);
    OneShot({}, info, host, port);
    OneShot({1}, info, host, port);
    assert [second] + [first] == [second, first] && [second] + [] == [second];
    FilledPolls(first, second, host, port);
    var s, t := Index({}, Copies(first.url, MAX_SEEN - 1), {}), Filled(first, MAX_SEEN);
    DeltaPoll(s, done, Roll([1], info), [first], [two], host, port);
    DeltaPoll(t, true, Roll([2, 1], info), [second], [], host, port);
    FullPoll(s, Roll([1], info), [first], [two], host, port);
    FullPoll(t, Roll([2, 1], info), [second, first], [], host, port);
    assert [one] + [two] == [one, two] && [two] + [] == [two];
  }

  lemma DeltaPoll(s: Index, done: bool, camera: Camera, images: seq<Image>, rest: seq<Event>, host: string, port: int)
    requires ScanVolumes(At(host, port, camera), ONE_VOLUME, if done then s.imageHandles else {}, []).outcome
             == Ok(images)
    ensures |DeltaRun(s, done, [Poll(camera, ONE_VOLUME)] + rest, host, port).1|
         == |MarkAll(s, images).1| + |DeltaRun(MarkAll(s, images).0, true, rest, host, port).1|
    ensures rest == [] ==> DeltaRun(MarkAll(s, images).0, true, rest, host, port).1 == []
  {
    hide ScanVolumes, MarkAll;
    assert ([Poll(camera, ONE_VOLUME)] + rest)[1..] == rest;
  }

  lemma FullPoll(s: Index, camera: Camera, images: seq<Image>, rest: seq<Event>, host: string, port: int)
    requires ScanVolumes(At(host, port, camera), ONE_VOLUME, {}, []).outcome == Ok(images)
    ensures |FullRun(s, [Poll(camera, ONE_VOLUME)] + rest, host, port).1|
         == |MarkAll(s, images).1| + |FullRun(MarkAll(s, images).0, rest, host, port).1|
    ensures rest == [] ==> FullRun(MarkAll(s, images).0, rest, host, port).1 == []
  {
    hide ScanVolumes, MarkAll;
    assert ([Poll(camera, ONE_VOLUME)] + rest)[1..] == rest;
  }

  lemma FilledPolls(first: Image, second: Image, host: string, port: int)
    requires Canonical(first, host, port) && Canonical(second, host, port) && first.handle == 1 && second.handle == 2
    ensures MarkAll(Filled(first, MAX_SEEN), [second, first]).1 == [second, first]
    ensures MarkAll(Filled(first, MAX_SEEN), [second]).1 == [second]
  {
    hide Mark, MarkAll, RunActions, HandleURL, Unknown, MarkAndEvict;
    SecondPushesFirstOut(first, second, host, port);
    FilledByRun(first, host, port);
    UnknownAppend([second], [first], {1});
    assert [second] + [first] == [second, first];
    assert Unknown([second, first], {1}) == [second] by { OneUnknown(first, second); }
  }

  lemma FilledByRun(first: Image, host: string, port: int)
    requires Canonical(first, host, port) && first.handle != 0
    ensures RunActions(EMPTY, MarkAndEvict(first, MAX_SEEN - 1) + [Marking(first)]) == Filled(first, MAX_SEEN)
  {
    hide Mark, HandleURL, RunActions, MarkAndEvict;
    RunOneMore(MarkAndEvict(first, MAX_SEEN - 1), Marking(first));
    EvictionsFillTheRing(first, MAX_SEEN - 1, host, port);
    MarkAfterEviction(first, MAX_SEEN);
  }

  lemma OneUnknown(first: Image, second: Image)
    requires first.handle == 1 && second.handle == 2
    ensures Unknown([second, first], {1}) == [second]
  {
    assert [second, first][1..] == [first] && [first][1..] == [];
    assert Unknown([first], {1}) == [];
  }

  lemma QuietStep(known: set<uint32>, rest: seq<Event>, info: ObjectInfo, host: string, port: int)
    requires IsPlain([1, 2], info) && known <= {1} && Quiet({1}, rest, host, port)
    ensures var events := [Poll(Roll([1], info), ONE_VOLUME)] + ([Forget(HandleURL(host, port, 1))] + rest);
            && Quiet(known, events, host, port)
            && Listed(events, host, port) == {HandleURL(host, port, 1)} + Listed(rest, host, port)
            && Forgets(events) == 1 + Forgets(rest)
  {
    hide ScanVolumes, OnlyLeavesKnown, FallbackImages, HandleURL, Shots, IsPlain;
    var show, forget := Poll(Roll([1], info), ONE_VOLUME), Forget(HandleURL(host, port, 1));
    assert ([show] + ([forget] + rest))[1..] == [forget] + rest && ([forget] + rest)[1..] == rest;
    PlainOne(info);
    RollLists([1], {}, info, host, port);
    OneShot({}, info, host, port);
    RollIsQuiet([1], known, info, host, port);
    OneSets(Shot(1, info, host, port));
    assert known + {1} == {1};
  }

  lemma {:induction false} OneTooManyIsQuiet(n: nat, known: set<uint32>, tail: seq<Event>, info: ObjectInfo,
                                             host: string, port: int)
    requires IsPlain([1, 2], info) && known <= {1} && Quiet({1}, tail, host, port)
    requires n == 0 ==> known == {1}
    ensures Quiet(known, ShowAndForget(n, info, host, port) + tail, host, port)
    ensures Listed(ShowAndForget(n, info, host, port) + tail, host, port)
         == Listed(tail, host, port) + if n == 0 then {} else {HandleURL(host, port, 1)}
    ensures Forgets(ShowAndForget(n, info, host, port) + tail) == n + Forgets(tail)
    decreases n
  {
    hide Quiet, Listed, Forgets, HandleURL, IsPlain;
    if n == 0 {
      assert ShowAndForget(0, info, host, port) + tail == tail;
    } else {
      var show, forget := Poll(Roll([1], info), ONE_VOLUME), Forget(HandleURL(host, port, 1));
      var rest := ShowAndForget(n - 1, info, host, port) + tail;
      assert ShowAndForget(n, info, host, port) + tail == [show] + ([forget] + rest);
      OneTooManyIsQuiet(n - 1, {1}, tail, info, host, port);
      QuietStep(known, rest, info, host, port);
    }
  }

  lemma OneSets(img: Image)
    ensures UrlSet([img]) == {img.url} && HandleSet([img]) == {img.handle}
  {
    assert [img][0] == img;
  }

  /** A poll that shows `images`, and then the rest of a run. */
  lemma PollFirst(known: set<uint32>, camera: Camera, images: seq<Image>, rest: seq<Event>, host: string, port: int)
    requires ScanVolumes(At(host, port, camera), ONE_VOLUME, {}, []).outcome == Ok(images)
    requires OnlyLeavesKnown(At(host, port, camera), ONE_VOLUME, known)
    requires FallbackImages(At(host, port, camera), ONE_VOLUME, []) == []
    ensures var events := [Poll(camera, ONE_VOLUME)] + rest;
            && Forgets(events) == Forgets(rest)
            && Listed(events, host, port) == UrlSet(images) + Listed(rest, host, port)
            && (Quiet(known, events, host, port) <==> Quiet(known + HandleSet(images), rest, host, port))
  {
    hide ScanVolumes, OnlyLeavesKnown, FallbackImages, UrlSet, HandleSet;
    assert ([Poll(camera, ONE_VOLUME)] + rest)[1..] == rest;
  }

  lemma NoEvents(known: set<uint32>, host: string, port: int)
    ensures Quiet(known, [], host, port) && Listed([], host, port) == {} && Forgets([]) == 0
  {
  }

  lemma TwoSets(a: Image, b: Image)
    ensures UrlSet([a, b]) == {a.url, b.url}
  {
    OneSets(a);
    UrlSetMore([a], b);
    assert [a] + [b] == [a, b];
  }

  lemma TailIsQuiet(info: ObjectInfo, host: string, port: int)
    requires IsPlain([1, 2], info)
    ensures var tail := [Poll(Roll([1], info), ONE_VOLUME), Poll(Roll([2, 1], info), ONE_VOLUME)];
            && Quiet({1}, tail, host, port) && Forgets(tail) == 0
            && Listed(tail, host, port) == {HandleURL(host, port, 1), HandleURL(host, port, 2)}
  {
    hide ScanVolumes, OnlyLeavesKnown, FallbackImages, HandleURL, Shots, IsPlain, Roll, Quiet, Listed, Forgets;
    var first, second := Shot(1, info, host, port), Shot(2, info, host, port);
    var last := [Poll(Roll([2, 1], info), ONE_VOLUME)];
    PlainOne(info);
    RollLists([1], {}, info, host, port);
    RollLists([2, 1], {}, info, host, port);
    OneShot({}, info, host, port);
    assert [second] + [first] == [second, first];
    RollIsQuiet([1], {1}, info, host, port);
    RollIsQuiet([2, 1], {1}, info, host, port);
    OneSets(first);
    TwoSets(second, first);
    NoEvents({1} + HandleSet([second, first]), host, port);
    assert last + [] == last;
    assert [Poll(Roll([1], info), ONE_VOLUME)] + last == [Poll(Roll([1], info), ONE_VOLUME), last[0]];
    PollFirst({1}, Roll([2, 1], info), [second, first], [], host, port);
    assert {1} + HandleSet([first]) == {1};
    PollFirst({1}, Roll([1], info), [first], last, host, port);
  }

  /** The bound is tight, and a bound on the URLs alone is not enough: two URLs and 49,999
      evictions, 50,001 together, make the two runs emit different images, though no poll
      fails, no handle becomes a container and no root fallback finds anything. */
  lemma TwoUrlsOvertake(info: ObjectInfo, host: string, port: int)
    requires IsPlain([1, 2], info)
    ensures var events := OneTooMany(MAX_SEEN - 1, info, host, port);
            && Quiet({}, events, host, port)
            && |Listed(events, host, port)| == 2 && Forgets(events) == MAX_SEEN - 1
            && DeltaRun(EMPTY, false, events, host, port).1 != FullRun(EMPTY, events, host, port).1
  {
    hide Quiet, Listed, DeltaRun, FullRun, ShowAndForget, Forgets, HandleURL, Copies, IsPlain;
    var tail := [Poll(Roll([1], info), ONE_VOLUME), Poll(Roll([2, 1], info), ONE_VOLUME)];
    TailIsQuiet(info, host, port);
    OneTooManyIsQuiet(MAX_SEEN - 1, {}, tail, info, host, port);
    HandleRoundTrip(host, port, 1);
    HandleRoundTrip(host, port, 2);
    var one, two := HandleURL(host, port, 1), HandleURL(host, port, 2);
    assert {one, two} + {one} == {one, two} && |{one, two}| == 2;
    assert Copies(one, 0) == [] by { NoCopies(one); }
    ShowAndForgetRuns(0, MAX_SEEN - 1, false, tail, info, host, port);
    LastTwo(true, info, host, port);
  }

  lemma NoCopies(url: string)
    ensures Copies(url, 0) == []
  {
  }
}
