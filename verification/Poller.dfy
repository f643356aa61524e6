/** The seen-index of internal/canon/poller.go: which images have been emitted, in what
    order, and which handles a delta scan may skip. */
module Poller {
  import opened Bytes
  import opened Transport
  import opened HandleUrl
  import opened Objects

  const MAX_SEEN: nat := 50_000

  datatype Index = Index(seen: set<string>, seenKeys: seq<string>, imageHandles: set<uint32>)

  const EMPTY := Index({}, [], {})

  /** One turn of pollOnce's loop: the new index, and whether the image is emitted. */
  function Mark(s: Index, img: Image): (Index, bool) {
    var handles := if img.handle != 0 then s.imageHandles + {img.handle} else s.imageHandles;
    if img.url in s.seen then (s.(imageHandles := handles), false)
    else
      var keys := s.seenKeys + [img.url];
      if |keys| > MAX_SEEN then
        var kept := match ParseHandle(keys[0]) case Some(h) => handles - {h} case None => handles;
        (Index(s.seen + {img.url} - {keys[0]}, keys[1..], kept), true)
      else (Index(s.seen + {img.url}, keys, handles), true)
  }

  /** An image whose URL has been seen only adds its handle; another is added to the ring,
      from which the oldest URL and its handle fall once it is full. */
  ghost predicate Marked(s: Index, img: Image, t: Index, isNew: bool) {
    var handles := s.imageHandles + if img.handle != 0 then {img.handle} else {};
    if img.url in s.seen then !isNew && t == s.(imageHandles := handles)
    else if |s.seenKeys| < MAX_SEEN then
      isNew && t == Index(s.seen + {img.url}, s.seenKeys + [img.url], handles)
    else
      var oldest := s.seenKeys[0];
      && isNew && t.seen == s.seen + {img.url} - {oldest} && t.seenKeys == s.seenKeys[1..] + [img.url]
      && (ParseHandle(oldest) == None ==> t.imageHandles == handles)
      && forall h :: ParseHandle(oldest) == Some(h) ==> t.imageHandles == handles - {h}
  }

  lemma MarkMeans(s: Index, img: Image)
    ensures Marked(s, img, Mark(s, img).0, Mark(s, img).1)
  {
    hide ParseHandle;
    var keys := s.seenKeys + [img.url];
    if |keys| > MAX_SEEN {
      assert keys[0] == s.seenKeys[0] && keys[1..] == s.seenKeys[1..] + [img.url];
    }
  }

  /** EvictHandle. */
  function Evict(s: Index, url: string): Index {
    match ParseHandle(url)
    case None => s
    case Some(h) => Index(s.seen - {url}, s.seenKeys, s.imageHandles - {h})
  }

  /** pollOnce's loop over `images`: the new index and the images emitted. */
  function MarkAll(s: Index, images: seq<Image>): (Index, seq<Image>) {
    if images == [] then (s, [])
    else MarkOne(MarkAll(s, images[..|images| - 1]), images[|images| - 1])
  }

  function MarkOne(r: (Index, seq<Image>), img: Image): (Index, seq<Image>) {
    var (t, isNew) := Mark(r.0, img);
    (t, if isNew then r.1 + [img] else r.1)
  }

  lemma MarkAllAppend(s: Index, images: seq<Image>, img: Image)
    ensures MarkAll(s, images + [img]) == MarkOne(MarkAll(s, images), img)
  {
    var n := |images|;
    assert (images + [img])[..n] == images;
  }

  // ---- The poller ----

  class Poller {
    var seen: set<string>
    var seenKeys: seq<string>
    var imageHandles: set<uint32>
    var folderHandles: set<uint32>
    var initialDone: bool
    var cameraConnected: bool

    constructor ()
      ensures State() == EMPTY && folderHandles == {} && !initialDone && !cameraConnected
    {
      seen, seenKeys, imageHandles, folderHandles := {}, [], {}, {};
      initialDone, cameraConnected := false, false;
    }

    function State(): Index
      reads this
    {
      Index(seen, seenKeys, imageHandles)
    }

    method EvictHandle(url: string)
      modifies this`seen, this`imageHandles
      ensures State() == Evict(old(State()), url)
      ensures match ParseHandle(url)
              case None => State() == old(State())
              case Some(h) => State() == Index(old(seen) - {url}, old(seenKeys), old(imageHandles) - {h})
    {
      var handle := ParseHandle(url);
      if handle.None? {
        return;
      }
      imageHandles := imageHandles - {handle.value};
      seen := seen - {url};
    }

    method MarkImage(img: Image) returns (isNew: bool)
      modifies this`seen, this`seenKeys, this`imageHandles
      ensures (State(), isNew) == Mark(old(State()), img)
      ensures Marked(old(State()), img, State(), isNew)
    {
      hide ParseHandle, Marked;
      MarkMeans(State(), img);
      if img.handle != 0 {
        imageHandles := imageHandles + {img.handle};
      }
      if img.url in seen {
        return false;
      }
      seen := seen + {img.url};
      seenKeys := seenKeys + [img.url];
      if |seenKeys| > MAX_SEEN {
        var oldest := seenKeys[0];
        seenKeys := seenKeys[1..];
        seen := seen - {oldest};
        var h := ParseHandle(oldest);
        if h.Some? {
          imageHandles := imageHandles - {h.value};
        }
      }
      return true;
    }

    /** One scan of the camera, full the first time and delta from then on. An error
        leaves the index as it was and emits nothing. */
    method PollOnce(client: Enumerator, x: Context, volumes: seq<Volume>) returns (r: Result<seq<Image>, Error>)
      modifies this, client
      ensures var known := if old(initialDone) then old(imageHandles) else {};
              var scan := ScanVolumes(x, volumes, known, []);
              && client.requests == old(client.requests) + scan.requests
              && match scan.outcome
              case Err(e) =>
                && r == Err(e)
                && State() == old(State()) && folderHandles == old(folderHandles)
                && initialDone == old(initialDone) && !cameraConnected
              case Ok(images) =>
                && r.Ok? && (State(), r.value) == MarkAll(old(State()), images)
                && folderHandles == old(folderHandles) + (if old(initialDone) then scan.folders else {})
                && initialDone && cameraConnected
    {
      hide ScanVolumes, Mark;
      var listed: Result<seq<Image>, Error>;
      var newFolders: set<uint32> := {};
      if !initialDone {
        listed := client.ListImages(x, volumes, {}, false);
      } else {
        client.newFolders := {};
        listed := client.ListImages(x, volumes, imageHandles, true);
        newFolders := client.newFolders - folderHandles;
      }
      if listed.Err? {
        cameraConnected := false;
        return Err(listed.error);
      }
      cameraConnected, initialDone := true, true;
      folderHandles := folderHandles + newFolders;
      var images := listed.value;
      var emitted: seq<Image> := [];
      ghost var s := State();
      ghost var folders, asked := folderHandles, client.requests;
      for i := 0 to |images|
        invariant (State(), emitted) == MarkAll(s, images[..i])
        invariant folderHandles == folders && initialDone && cameraConnected && client.requests == asked
      {
        assert images[..i + 1][..i] == images[..i];
        var isNew := MarkImage(images[i]);
        if isNew {
          emitted := emitted + [images[i]];
        }
      }
      assert images[..|images|] == images;
      return Ok(emitted);
    }
  }

  // ---- What every step keeps ----

  /** The URL of an emitted image is the one made from its handle. */
  predicate Canonical(img: Image, host: string, port: int) {
    img.url == HandleURL(host, port, img.handle)
  }

  ghost predicate Inv(s: Index, host: string, port: int) {
    && |s.seenKeys| <= MAX_SEEN
    && (forall url :: url in s.seen ==> url in s.seenKeys)
    && (forall h :: h in s.imageHandles ==> HandleURL(host, port, h) in s.seen)
    && (forall url :: url in s.seenKeys ==> exists h: uint32 :: url == HandleURL(host, port, h))
  }

  /** The pollers' lock is held for one of these at a time; they interleave freely. */
  datatype Action = Marking(img: Image) | Evicting(url: string)

  function Act(s: Index, a: Action): Index {
    match a
    case Marking(img) => Mark(s, img).0
    case Evicting(url) => Evict(s, url)
  }

  function RunActions(s: Index, actions: seq<Action>): Index {
    if actions == [] then s else Act(RunActions(s, actions[..|actions| - 1]), actions[|actions| - 1])
  }

  lemma UrlNamesOneHandle(host: string, port: int)
    ensures forall h: uint32 {:trigger HandleURL(host, port, h)} :: ParseHandle(HandleURL(host, port, h)) == Some(h)
  {
    forall h: uint32
      ensures ParseHandle(HandleURL(host, port, h)) == Some(h)
    {
      HandleRoundTrip(host, port, h);
    }
  }

  lemma ActKeepsInv(s: Index, a: Action, host: string, port: int)
    requires Inv(s, host, port)
    requires a.Marking? ==> Canonical(a.img, host, port)
    ensures Inv(Act(s, a), host, port)
  {
    hide HandleURL, ParseHandle;
    UrlNamesOneHandle(host, port);
    match a
    case Evicting(url) =>
    case Marking(img) =>
      if img.url !in s.seen {
        var keys := s.seenKeys + [img.url];
        assert forall url :: url in keys <==> url in s.seenKeys || url == img.url;
        if |keys| > MAX_SEEN {
          assert forall url :: url in keys && url != keys[0] ==> url in keys[1..];
          assert keys[0] in s.seenKeys;
          var h0: uint32 :| keys[0] == HandleURL(host, port, h0);
          assert forall h: uint32 :: HandleURL(host, port, h) == keys[0] ==> h == h0;
          assert forall url :: url in keys[1..] ==> url in keys;
        }
      }
  }

  /** In every interleaving of marks and evictions the ring holds at most 50,000 URLs,
      every seen URL is in it, and every handle a delta scan skips has a seen URL. */
  lemma {:induction false} ActionsKeepInv(actions: seq<Action>, host: string, port: int)
    requires forall a :: a in actions && a.Marking? ==> Canonical(a.img, host, port)
    ensures Inv(RunActions(EMPTY, actions), host, port)
  {
    if actions != [] {
      var n := |actions| - 1;
      ActionsKeepInv(actions[..n], host, port);
      ActKeepsInv(RunActions(EMPTY, actions[..n]), actions[n], host, port);
    }
  }

  /** An eviction is by the URL of a handle, as the pipeline evicts. */
  ghost predicate Proper(a: Action, host: string, port: int) {
    match a
    case Marking(img) => Canonical(img, host, port)
    case Evicting(url) => ParseHandle(url).Some? ==> url == HandleURL(host, port, ParseHandle(url).value)
  }

  /** The handles a delta scan skips are those whose URLs have been seen, except handle 0. */
  ghost predicate Matches(s: Index, host: string, port: int) {
    forall h: uint32 {:trigger h in s.imageHandles} {:trigger HandleURL(host, port, h)} ::
      h in s.imageHandles <==> h != 0 && HandleURL(host, port, h) in s.seen
  }

  lemma ActKeepsMatch(s: Index, a: Action, host: string, port: int)
    requires Inv(s, host, port) && Matches(s, host, port) && Proper(a, host, port)
    ensures Matches(Act(s, a), host, port)
  {
    hide HandleURL, ParseHandle;
    UrlNamesOneHandle(host, port);
    if a.Marking? && a.img.url !in s.seen {
      var keys := s.seenKeys + [a.img.url];
      if |keys| > MAX_SEEN {
        assert keys[0] in s.seenKeys;
        var h0: uint32 :| keys[0] == HandleURL(host, port, h0);
      }
    }
  }

  /** In every interleaving of marks and evictions a delta scan skips exactly the handles
      whose URLs have been seen and not been forgotten. */
  lemma {:induction false} SkipsWhatWasSeen(actions: seq<Action>, host: string, port: int)
    requires forall a :: a in actions ==> Proper(a, host, port)
    ensures Inv(RunActions(EMPTY, actions), host, port) && Matches(RunActions(EMPTY, actions), host, port)
  {
    hide Proper, Act, Inv, Matches;
    if actions == [] {
      assert Inv(EMPTY, host, port) && Matches(EMPTY, host, port) by { NothingSeen(host, port); }
    } else {
      var n := |actions| - 1;
      SkipsWhatWasSeen(actions[..n], host, port);
      ProperIsCanonical(actions[n], host, port);
      ActKeepsInv(RunActions(EMPTY, actions[..n]), actions[n], host, port);
      ActKeepsMatch(RunActions(EMPTY, actions[..n]), actions[n], host, port);
    }
  }

  lemma NothingSeen(host: string, port: int)
    ensures Inv(EMPTY, host, port) && Matches(EMPTY, host, port)
  {
  }

  lemma ProperIsCanonical(a: Action, host: string, port: int)
    requires Proper(a, host, port)
    ensures a.Marking? ==> Canonical(a.img, host, port)
  {
  }

  // ---- What a poll emits ----

  ghost predicate HasUrl(images: seq<Image>, url: string) {
    exists j :: 0 <= j < |images| && images[j].url == url
  }

  lemma HasUrlMore(images: seq<Image>, img: Image, url: string)
    ensures HasUrl(images + [img], url) <==> HasUrl(images, url) || url == img.url
  {
    var more := images + [img];
    assert more[|images|] == img && forall j :: 0 <= j < |images| ==> more[j] == images[j];
  }

  /** As long as the ring has room an image is emitted, in its turn, exactly when its URL has
      not been seen before the poll nor earlier in it, and every URL shown has then been seen. */
  lemma {:induction false} EmitsFirstSightings(s: Index, images: seq<Image>, img: Image)
    requires |s.seenKeys| + |images| < MAX_SEEN
    ensures MarkAll(s, images + [img]).1
         == MarkAll(s, images).1 + if img.url in s.seen || HasUrl(images, img.url) then [] else [img]
    ensures forall url :: url in MarkAll(s, images + [img]).0.seen <==> url in s.seen || HasUrl(images + [img], url)
    ensures |MarkAll(s, images + [img]).0.seenKeys| <= |s.seenKeys| + |images| + 1
  {
    hide HasUrl;
    MarkAllAppend(s, images, img);
    forall url
      ensures HasUrl(images + [img], url) <==> HasUrl(images, url) || url == img.url
    {
      HasUrlMore(images, img, url);
    }
    if images == [] {
      assert forall url :: !HasUrl([], url) by { NoUrls(); }
    } else {
      var n := |images| - 1;
      EmitsFirstSightings(s, images[..n], images[n]);
      assert images[..n] + [images[n]] == images;
    }
    MarkSeen(MarkAll(s, images).0, img);
  }

  lemma NoUrls()
    ensures forall url :: !HasUrl([], url)
  {
  }

  lemma MarkSeen(t: Index, img: Image)
    requires |t.seenKeys| < MAX_SEEN
    ensures Mark(t, img).0.seen == t.seen + {img.url} && Mark(t, img).1 == (img.url !in t.seen)
    ensures |Mark(t, img).0.seenKeys| <= |t.seenKeys| + 1
  {
  }

  // ---- The ring ----

  /** How many URLs the ring drops when so many are added to so many. */
  function Dropped(had: nat, added: nat): nat {
    if had + added > MAX_SEEN then had + added - MAX_SEEN else 0
  }

  lemma MarkRing(t: Index, all: seq<string>, img: Image)
    requires |t.seenKeys| <= MAX_SEEN && t.seenKeys == all[Dropped(0, |all|)..]
    ensures var (u, isNew) := Mark(t, img);
            && isNew == (img.url !in t.seen)
            && (if isNew then u.seenKeys == (all + [img.url])[Dropped(0, |all| + 1)..] else u.seenKeys == t.seenKeys)
            && (isNew && |all| + 1 > MAX_SEEN ==> u.seen == t.seen + {img.url} - {(all + [img.url])[Dropped(0, |all|)]})
            && (isNew && |all| + 1 <= MAX_SEEN ==> u.seen == t.seen + {img.url})
            && (!isNew ==> u.seen == t.seen)
  {
    hide ParseHandle;
    assert t.seenKeys + [img.url] == (all + [img.url])[Dropped(0, |all|)..];
  }

  // ---- The ring without evictions ----

  function Urls(images: seq<Image>): (urls: seq<string>)
    ensures |urls| == |images|
  {
    seq(|images|, i requires 0 <= i < |images| => images[i].url)
  }

  function LastSeen(urls: seq<string>): seq<string> {
    urls[Dropped(0, |urls|)..]
  }

  /** Without evictions the ring is the last 50,000 URLs emitted, `seen` is its element
      set, and any 50,001 consecutive emissions are of distinct URLs. */
  lemma {:induction false} RingIsRecent(images: seq<Image>)
    ensures var (s, emitted) := MarkAll(EMPTY, images);
            var urls := Urls(emitted);
            && s.seenKeys == LastSeen(urls)
            && (forall url :: url in s.seen <==> url in s.seenKeys)
            && (forall i, j :: 0 <= i < j < |urls| && j - i <= MAX_SEEN ==> urls[i] != urls[j])
  {
    hide Mark, LastSeen, Dropped;
    if images == [] {
      assert LastSeen([]) == [] by { NoneSeen(); }
    } else {
      var n := |images| - 1;
      RingIsRecent(images[..n]);
      var (t, emitted) := MarkAll(EMPTY, images[..n]);
      OldOrNew(t, images[n]);
      if images[n].url !in t.seen {
        MarkedRing(t, Urls(emitted), images[n]);
        assert Urls(emitted + [images[n]]) == Urls(emitted) + [images[n].url];
      }
    }
  }

  lemma NoneSeen()
    ensures LastSeen([]) == []
  {
  }

  lemma OldOrNew(t: Index, img: Image)
    ensures Mark(t, img).1 <==> img.url !in t.seen
    ensures img.url in t.seen ==> Mark(t, img).0.(imageHandles := {}) == t.(imageHandles := {})
  {
  }

  /** Any 50,001 consecutive URLs are distinct. */
  ghost predicate Windowed(urls: seq<string>) {
    forall i, j :: 0 <= i < j < |urls| && j - i <= MAX_SEEN ==> urls[i] != urls[j]
  }

  lemma WindowGrows(urls: seq<string>, url: string)
    requires Windowed(urls) && url !in LastSeen(urls)
    ensures Windowed(urls + [url])
  {
    var n, from := |urls|, Dropped(0, |urls|);
    forall i | 0 <= i < n && n - i <= MAX_SEEN
      ensures urls[i] != url
    {
      assert urls[i] == urls[from..][i - from];
    }
  }

  /** The URL that falls off the ring is not among those that stay. */
  lemma OldestLeaves(urls: seq<string>, url: string)
    requires Windowed(urls + [url])
    ensures var more, from := urls + [url], Dropped(0, |urls|);
            && (forall u :: u in LastSeen(urls) || u == url <==> u in more[from..])
            && (|more| <= MAX_SEEN ==> LastSeen(more) == more)
            && (|more| > MAX_SEEN ==>
                  forall u :: u in LastSeen(more) <==> u in more[from..] && u != more[from])
  {
    var more, from := urls + [url], Dropped(0, |urls|);
    assert more[from..] == urls[from..] + [url];
    if |more| > MAX_SEEN {
      var ring := more[from..];
      assert LastSeen(more) == ring[1..] && ring == [ring[0]] + ring[1..];
      assert ring[0] !in ring[1..] by { NoneAgain(more, from); }
    }
  }

  lemma NoneAgain(more: seq<string>, from: nat)
    requires Windowed(more) && from < |more| && |more| - from <= MAX_SEEN + 1
    ensures more[from] !in more[from..][1..]
  {
    forall k | 0 <= k < |more[from..][1..]|
      ensures more[from..][1..][k] != more[from]
    {
      assert more[from..][1..][k] == more[from + 1 + k];
    }
  }

  lemma MarkedRing(t: Index, urls: seq<string>, img: Image)
    requires t.seenKeys == LastSeen(urls) && img.url !in t.seen && Windowed(urls)
    requires forall url :: url in t.seen <==> url in t.seenKeys
    ensures var more := urls + [img.url];
            && Mark(t, img).0.seenKeys == LastSeen(more)
            && (forall url :: url in Mark(t, img).0.seen <==> url in LastSeen(more))
            && Windowed(more)
  {
    hide Mark, Windowed;
    WindowGrows(urls, img.url);
    MarkRing(t, urls, img);
    OldestLeaves(urls, img.url);
  }
}
