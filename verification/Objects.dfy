/** Object enumeration of internal/canon/objects.go over a camera that answers from an
    arbitrary, possibly cyclic, handle graph. */
module Objects {
  import opened Bytes
  import opened Ptp
  import opened Transport
  import opened HandleUrl

  /** What the camera answers to GetObjectHandles(storage, 0, parent) and GetObjectInfo(handle). */
  datatype Camera = Camera(
    listing: (uint32, uint32) -> Result<seq<uint32>, Error>,
    info: uint32 -> Result<ObjectInfo, Error>)

  datatype Image = Image(handle: uint32, url: string, filename: string, captureDate: string, folder: string)

  datatype Request = Listing(parent: uint32) | Info(handle: uint32)

  datatype Folder = Folder(name: string, handle: uint32)

  const VIRTUAL: uint32 := 0x8000_0000
  const ROOT: uint32 := 0xFFFF_FFFF
  const MAX_DEPTH: nat := 8

  /** What stays fixed during one enumeration. */
  datatype Context = Context(
    host: string, port: int, camera: Camera, storage: uint32,
    folder: string, byHandle: map<uint32, string>)
  {
    function List(parent: uint32): Result<seq<uint32>, Error> {
      camera.listing(storage, parent)
    }

    function ImageOf(h: uint32, i: ObjectInfo): Image {
      var attributed :=
        if h >= VIRTUAL && folder == "" && i.parentHandle in byHandle then byHandle[i.parentHandle] else folder;
      Image(h, HandleURL(host, port, h), i.filename, i.captureDate, attributed)
    }
  }

  /** The outcome of an enumeration, the folders it met and the requests it sent.
      An error drops the images but not the folders and requests before it. */
  datatype Scan = Scan(outcome: Result<seq<Image>, Error>, folders: set<uint32>, requests: seq<Request>)

  const NOTHING := Scan(Ok([]), {}, [])

  function Then(a: Scan, b: Scan): Scan {
    if a.outcome.Err? then a
    else Scan(if b.outcome.Err? then b.outcome else Ok(a.outcome.value + b.outcome.value),
              a.folders + b.folders, a.requests + b.requests)
  }

  lemma ThenNothing(a: Scan)
    ensures Then(a, NOTHING) == a == Then(NOTHING, a)
  {
    if a.outcome.Ok? {
      assert a.outcome.value + [] == a.outcome.value == [] + a.outcome.value;
    }
  }

  lemma ThenStops(a: Scan, b: Scan, c: Scan)
    requires b.outcome.Err?
    ensures Then(a, Then(b, c)) == Then(a, b)
  {
  }

  lemma ThenAssociative(a: Scan, b: Scan, c: Scan)
    ensures Then(Then(a, b), c) == Then(a, Then(b, c))
  {
    if a.outcome.Ok? && b.outcome.Ok? && c.outcome.Ok? {
      assert (a.outcome.value + b.outcome.value) + c.outcome.value
                == a.outcome.value + (b.outcome.value + c.outcome.value);
    }
    assert (a.requests + b.requests) + c.requests == a.requests + (b.requests + c.requests);
  }

  function Asking(requests: seq<Request>, s: Scan): Scan {
    s.(requests := requests + s.requests)
  }

  function LevelsBelow(depth: nat): nat {
    if depth > MAX_DEPTH then 0 else MAX_DEPTH + 1 - depth
  }

  function ScanFolder(x: Context, parent: uint32, depth: nat, known: set<uint32>): Scan
    decreases LevelsBelow(depth), 1, 0
  {
    if depth > MAX_DEPTH then NOTHING
    else
      match x.List(parent)
      case Err(e) => Scan(Err(e), {}, [Listing(parent)])
      case Ok(handles) => Asking([Listing(parent)], ScanHandles(x, handles, depth, known))
  }

  function ScanHandles(x: Context, handles: seq<uint32>, depth: nat, known: set<uint32>): Scan
    requires depth <= MAX_DEPTH
    decreases LevelsBelow(depth), 0, |handles|
  {
    if handles == [] then NOTHING
    else Then(ScanHandle(x, handles[0], depth, known), ScanHandles(x, handles[1..], depth, known))
  }

  function ScanHandle(x: Context, h: uint32, depth: nat, known: set<uint32>): Scan
    requires depth <= MAX_DEPTH
    decreases LevelsBelow(depth), 0, 0
  {
    if h in known then NOTHING
    else if h >= VIRTUAL then
      match x.List(h)
      case Err(e) => Scan(Err(e), {}, [Listing(h)])
      case Ok(children) =>
        if |children| > 0 then
          var inner := ScanFolder(x, h, depth + 1, known);
          Scan(inner.outcome, {h} + inner.folders, [Listing(h)] + inner.requests)
        else
          match x.camera.info(h)
          case Err(e) => Scan(Err(e), {}, [Listing(h), Info(h)])
          case Ok(i) => Scan(Ok(if IsImageFormat(i.format) then [x.ImageOf(h, i)] else []), {}, [Listing(h), Info(h)])
    else
      match x.camera.info(h)
      case Err(e) => Scan(Err(e), {}, [Info(h)])
      case Ok(i) =>
        if i.format == ASSOCIATION then
          var inner := ScanFolder(x, h, depth + 1, known);
          Scan(inner.outcome, {h} + inner.folders, [Info(h)] + inner.requests)
        else Scan(Ok(if IsImageFormat(i.format) then [x.ImageOf(h, i)] else []), {}, [Info(h)])
  }

  // ---- All storages ----

  /** A storage and the folders discovered on it, in order. */
  datatype Volume = Volume(storage: uint32, folders: seq<Folder>)

  /** Folder names by handle; a later folder overrides an earlier one. */
  function NamesByHandle(folders: seq<Folder>): map<uint32, string> {
    if folders == [] then map[]
    else NamesByHandle(folders[..|folders| - 1])[folders[|folders| - 1].handle := folders[|folders| - 1].name]
  }

  function InFolder(x: Context, v: Volume, folder: string): Context {
    x.(storage := v.storage, folder := folder, byHandle := NamesByHandle(v.folders))
  }

  function ScanFolders(x: Context, v: Volume, folders: seq<Folder>, known: set<uint32>): Scan {
    if folders == [] then NOTHING
    else Then(ScanFolder(InFolder(x, v, folders[0].name), folders[0].handle, 0, known),
              ScanFolders(x, v, folders[1..], known))
  }

  /** The scan of a volume from its root, without a folder name. */
  function ScanRoot(x: Context, v: Volume, known: set<uint32>): Scan {
    ScanFolder(InFolder(x, v, ""), ROOT, 0, known)
  }

  function ScanVolume(x: Context, v: Volume, known: set<uint32>): Scan {
    if v.folders == [] then ScanRoot(x, v, known) else ScanFolders(x, v, v.folders, known)
  }

  /** A full scan that has found nothing so far in named folders falls back to the root;
      a delta scan never does. */
  predicate FallsBack(v: Volume, known: set<uint32>, found: seq<Image>) {
    v.folders != [] && found == [] && known == {}
  }

  /** The scan of one volume after `found` has been found on earlier ones. */
  function ScanOne(x: Context, v: Volume, known: set<uint32>, found: seq<Image>): Scan {
    var plain := ScanVolume(x, v, known);
    if plain.outcome.Ok? && FallsBack(v, known, found + plain.outcome.value)
      then Then(plain, ScanRoot(x, v, known)) else plain
  }

  /** The scans of `vs` after `found` has been found on earlier volumes. */
  function ScanVolumes(x: Context, vs: seq<Volume>, known: set<uint32>, found: seq<Image>): Scan {
    if vs == [] then NOTHING
    else
      var one := ScanOne(x, vs[0], known, found);
      if one.outcome.Err? then one else Then(one, ScanVolumes(x, vs[1..], known, found + one.outcome.value))
  }

  // ---- The enumerator ----

  /** The scan `s` leads from requests `r0` and new folders `f0` to `r1` and `f1`. */
  ghost predicate Happened(s: Scan, r0: seq<Request>, f0: set<uint32>, r1: seq<Request>, f1: set<uint32>,
                           record: bool) {
    r1 == r0 + s.requests && f1 == f0 + if record then s.folders else {}
  }

  lemma HappenedNothing(r0: seq<Request>, f0: set<uint32>, record: bool)
    ensures Happened(NOTHING, r0, f0, r0, f0, record)
  {
  }

  lemma HappenedThen(a: Scan, b: Scan, r0: seq<Request>, f0: set<uint32>, r1: seq<Request>, f1: set<uint32>,
                     r2: seq<Request>, f2: set<uint32>, record: bool)
    requires a.outcome.Ok?
    requires Happened(a, r0, f0, r1, f1, record) && Happened(b, r1, f1, r2, f2, record)
    ensures Happened(Then(a, b), r0, f0, r2, f2, record)
    ensures Then(a, b).outcome == if b.outcome.Err? then b.outcome else Ok(a.outcome.value + b.outcome.value)
  {
  }

  class Enumerator {
    var requests: seq<Request>
    var newFolders: set<uint32>

    constructor ()
      ensures requests == [] && newFolders == {}
    {
      requests, newFolders := [], {};
    }

    /** The scan `s` has happened since the state was `r0`, `f0`. */
    ghost predicate Did(s: Scan, r0: seq<Request>, f0: set<uint32>, record: bool)
      reads this
    {
      Happened(s, r0, f0, requests, newFolders, record)
    }

    method GetObjectHandles(x: Context, parent: uint32) returns (r: Result<seq<uint32>, Error>)
      modifies this`requests
      ensures requests == old(requests) + [Listing(parent)] && r == x.List(parent)
    {
      requests := requests + [Listing(parent)];
      r := x.List(parent);
    }

    method GetObjectInfo(x: Context, handle: uint32) returns (r: Result<ObjectInfo, Error>)
      modifies this`requests
      ensures requests == old(requests) + [Info(handle)] && r == x.camera.info(handle)
    {
      requests := requests + [Info(handle)];
      r := x.camera.info(handle);
    }

    /** `record` is false when the caller passes no map for new folder handles. */
    method EnumerateObjectsDepth(x: Context, parent: uint32, depth: nat, known: set<uint32>, record: bool)
      returns (r: Result<seq<Image>, Error>)
      modifies this
      ensures r == ScanFolder(x, parent, depth, known).outcome
      ensures Did(ScanFolder(x, parent, depth, known), old(requests), old(newFolders), record)
      decreases LevelsBelow(depth), 2
    {
      hide ScanHandle, ScanHandles;
      if depth > MAX_DEPTH {
        return Ok([]);
      }
      var listed := GetObjectHandles(x, parent);
      if listed.Err? {
        return Err(listed.error);
      }
      r := EnumerateHandles(x, listed.value, depth, known, record);
      ghost var below := ScanHandles(x, listed.value, depth, known).requests;
      assert old(requests) + [Listing(parent)] + below == old(requests) + ([Listing(parent)] + below);
    }

    /** The loop over one listing. */
    method EnumerateHandles(x: Context, handles: seq<uint32>, depth: nat, known: set<uint32>, record: bool)
      returns (r: Result<seq<Image>, Error>)
      requires depth <= MAX_DEPTH
      modifies this
      ensures r == ScanHandles(x, handles, depth, known).outcome
      ensures Did(ScanHandles(x, handles, depth, known), old(requests), old(newFolders), record)
      decreases LevelsBelow(depth), 1
    {
      hide ScanHandle, ScanFolder, Then, Happened;
      ghost var r0, f0 := requests, newFolders;
      ghost var done := NOTHING;
      var images: seq<Image> := [];
      assert handles[0..] == handles;
      ghost var all := ScanHandles(x, handles, depth, known);
      ThenNothing(all);
      HappenedNothing(r0, f0, record);
      for i := 0 to |handles|
        invariant done.outcome == Ok(images) && Did(done, r0, f0, record)
        invariant Then(done, ScanHandles(x, handles[i..], depth, known)) == all
      {
        ghost var one, tail := ScanHandle(x, handles[i], depth, known), ScanHandles(x, handles[i + 1..], depth, known);
        assert handles[i..][0] == handles[i] && handles[i..][1..] == handles[i + 1..];
        assert ScanHandles(x, handles[i..], depth, known) == Then(one, tail);
        ThenAssociative(done, one, tail);
        ghost var r1, f1 := requests, newFolders;
        var imgs := EnumerateHandle(x, handles[i], depth, known, record);
        HappenedThen(done, one, r0, f0, r1, f1, requests, newFolders, record);
        if imgs.Err? {
          ThenStops(done, one, tail);
          return Err(imgs.error);
        }
        done := Then(done, one);
        images := images + imgs.value;
      }
      ThenNothing(done);
      return Ok(images);
    }

    /** The body of the loop for one handle. */
    method EnumerateHandle(x: Context, handle: uint32, depth: nat, known: set<uint32>, record: bool)
      returns (r: Result<seq<Image>, Error>)
      requires depth <= MAX_DEPTH
      modifies this
      ensures r == ScanHandle(x, handle, depth, known).outcome
      ensures Did(ScanHandle(x, handle, depth, known), old(requests), old(newFolders), record)
      decreases LevelsBelow(depth), 0
    {
      hide ScanFolder, ScanHandles, Context.ImageOf, IsImageFormat;
      if handle in known {
        return Ok([]);
      }
      if handle >= VIRTUAL {
        var children := GetObjectHandles(x, handle);
        if children.Err? {
          return Err(children.error);
        }
        if |children.value| > 0 {
          if record {
            newFolders := newFolders + {handle};
          }
          r := EnumerateObjectsDepth(x, handle, depth + 1, known, record);
        } else {
          var info := GetObjectInfo(x, handle);
          if info.Err? {
            return Err(info.error);
          }
          r := Ok(if IsImageFormat(info.value.format) then [x.ImageOf(handle, info.value)] else []);
        }
        return;
      }
      var info := GetObjectInfo(x, handle);
      if info.Err? {
        return Err(info.error);
      }
      if info.value.format == ASSOCIATION {
        if record {
          newFolders := newFolders + {handle};
        }
        r := EnumerateObjectsDepth(x, handle, depth + 1, known, record);
      } else {
        r := Ok(if IsImageFormat(info.value.format) then [x.ImageOf(handle, info.value)] else []);
      }
    }

    /** The loop over the folders of one volume. */
    method EnumerateFolders(x: Context, v: Volume, known: set<uint32>, record: bool)
      returns (r: Result<seq<Image>, Error>)
      modifies this
      ensures r == ScanFolders(x, v, v.folders, known).outcome
      ensures Did(ScanFolders(x, v, v.folders, known), old(requests), old(newFolders), record)
    {
      hide ScanFolder, NamesByHandle;
      ghost var r0, f0 := requests, newFolders;
      ghost var done := NOTHING;
      var images: seq<Image> := [];
      assert v.folders[0..] == v.folders;
      ThenNothing(ScanFolders(x, v, v.folders, known));
      for i := 0 to |v.folders|
        invariant done.outcome == Ok(images) && Did(done, r0, f0, record)
        invariant Then(done, ScanFolders(x, v, v.folders[i..], known)) == ScanFolders(x, v, v.folders, known)
      {
        var f := v.folders[i];
        ghost var one := ScanFolder(InFolder(x, v, f.name), f.handle, 0, known);
        assert v.folders[i..][0] == f && v.folders[i..][1..] == v.folders[i + 1..];
        ThenAssociative(done, one, ScanFolders(x, v, v.folders[i + 1..], known));
        ghost var r1, f1 := requests, newFolders;
        var imgs := EnumerateObjectsDepth(InFolder(x, v, f.name), f.handle, 0, known, record);
        HappenedThen(done, one, r0, f0, r1, f1, requests, newFolders, record);
        done := Then(done, one);
        if imgs.Err? {
          return Err(imgs.error);
        }
        images := images + imgs.value;
      }
      ThenNothing(done);
      return Ok(images);
    }

    /** listImages, given the folders discovered on each storage. */
    method ListImages(x: Context, volumes: seq<Volume>, known: set<uint32>, record: bool)
      returns (r: Result<seq<Image>, Error>)
      modifies this
      ensures r == ScanVolumes(x, volumes, known, []).outcome
      ensures Did(ScanVolumes(x, volumes, known, []), old(requests), old(newFolders), record)
    {
      hide ScanVolumes, ScanOne, Then, Happened;
      ghost var r0, f0 := requests, newFolders;
      ghost var done := NOTHING;
      ghost var all := ScanVolumes(x, volumes, known, []);
      var images: seq<Image> := [];
      assert volumes[0..] == volumes;
      ThenNothing(all);
      HappenedNothing(r0, f0, record);
      for i := 0 to |volumes|
        invariant done.outcome == Ok(images) && Did(done, r0, f0, record)
        invariant Then(done, ScanVolumes(x, volumes[i..], known, images)) == all
      {
        ghost var rest := volumes[i..];
        assert rest[0] == volumes[i] && rest[1..] == volumes[i + 1..];
        ghost var one := ScanOne(x, volumes[i], known, images);
        ghost var r1, f1 := requests, newFolders;
        ScanVolumesSplit(x, rest, known, images);
        var imgs := ListVolume(x, volumes[i], known, images, record);
        HappenedThen(done, one, r0, f0, r1, f1, requests, newFolders, record);
        if imgs.Err? {
          ThenStops(done, one, NOTHING);
          return Err(imgs.error);
        }
        ThenAssociative(done, one, ScanVolumes(x, volumes[i + 1..], known, images + imgs.value));
        done := Then(done, one);
        images := images + imgs.value;
      }
      ThenNothing(done);
      NoVolumes(x, volumes[|volumes|..], known, images);
      return Ok(images);
    }

    /** The body of the loop for one volume, after `found` on the earlier ones. */
    method ListVolume(x: Context, v: Volume, known: set<uint32>, found: seq<Image>, record: bool)
      returns (r: Result<seq<Image>, Error>)
      modifies this
      ensures r == ScanOne(x, v, known, found).outcome
      ensures Did(ScanOne(x, v, known, found), old(requests), old(newFolders), record)
    {
      hide ScanFolder, ScanFolders, InFolder, Then, Happened;
      if |v.folders| == 0 {
        r := EnumerateObjectsDepth(InFolder(x, v, ""), ROOT, 0, known, record);
        return;
      }
      r := EnumerateFolders(x, v, known, record);
      if r.Err? {
        return;
      }
      var images := r.value;
      if |found + images| == 0 && |known| == 0 {
        assert found + images == [] && known == {};
        ghost var plain, extra := ScanVolume(x, v, known), ScanRoot(x, v, known);
        ghost var r1, f1 := requests, newFolders;
        var imgs := EnumerateObjectsDepth(InFolder(x, v, ""), ROOT, 0, known, record);
        HappenedThen(plain, extra, old(requests), old(newFolders), r1, f1, requests, newFolders, record);
        if imgs.Err? {
          return Err(imgs.error);
        }
        return Ok(images + imgs.value);
      }
    }
  }

  lemma NoVolumes(x: Context, vs: seq<Volume>, known: set<uint32>, found: seq<Image>)
    requires vs == []
    ensures ScanVolumes(x, vs, known, found) == NOTHING
  {
  }

  lemma ScanVolumesSplit(x: Context, vs: seq<Volume>, known: set<uint32>, found: seq<Image>)
    requires vs != []
    ensures var first := ScanOne(x, vs[0], known, found);
            var rest := if first.outcome.Err? then NOTHING
                        else ScanVolumes(x, vs[1..], known, found + first.outcome.value);
            ScanVolumes(x, vs, known, found) == Then(first, rest)
  {
    hide ScanOne;
  }
}
