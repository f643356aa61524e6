/** The queue as one caller sees it (Queue and ClearQueue of internal/pipeline/pipeline.go)
    and the recovery that cmd/canon-proxy/main.go runs on it after a restart. */
module Startup {
  import opened Bytes
  import opened ImageTable
  import opened Gate
  import opened Pipeline
  import opened Uploads

  // ---- Queue, taken alone ----

  datatype Channel = Channel(pushCh: seq<Image>, inChannel: set<string>)

  /** Each image goes into the channel unless its URL is there already or it is full. */
  function Enqueued(c: Channel, imgs: seq<Image>): Channel
    decreases |imgs|
  {
    if imgs == [] then c
    else if imgs[0].url in c.inChannel || |c.pushCh| >= CAPACITY then Enqueued(c, imgs[1..])
    else Enqueued(Channel(c.pushCh + [imgs[0]], c.inChannel + {imgs[0].url}), imgs[1..])
  }

  function UrlsOf(imgs: seq<Image>): set<string> {
    set i | 0 <= i < |imgs| :: imgs[i].url
  }

  /** inChannel is what is in the channel, which holds no URL twice. */
  ghost predicate ChannelInv(c: Channel) {
    && |c.pushCh| <= CAPACITY
    && c.inChannel == UrlsOf(c.pushCh)
    && forall i, j :: 0 <= i < j < |c.pushCh| ==> c.pushCh[i].url != c.pushCh[j].url
  }

  lemma UrlsOfMore(imgs: seq<Image>, img: Image)
    ensures UrlsOf(imgs + [img]) == UrlsOf(imgs) + {img.url}
  {
    var more := imgs + [img];
    assert forall i :: 0 <= i < |imgs| ==> more[i] == imgs[i];
    assert more[|imgs|] == img;
    assert forall u :: u in UrlsOf(imgs) ==> u in UrlsOf(more);
  }

  /** Queue keeps the channel and the set in agreement and what was there in its place,
      adds images of the call only, and leaves out none of them unless the channel is full. */
  lemma {:induction false} EnqueueKeeps(c: Channel, imgs: seq<Image>)
    requires ChannelInv(c)
    ensures var d := Enqueued(c, imgs);
            && ChannelInv(d)
            && c.pushCh <= d.pushCh
            && (forall img :: img in d.pushCh ==> img in c.pushCh || img in imgs)
            && (forall img :: img in imgs ==> img.url in d.inChannel || |d.pushCh| == CAPACITY)
    decreases |imgs|
  {
    if imgs != [] {
      if imgs[0].url in c.inChannel || |c.pushCh| >= CAPACITY {
        EnqueueKeeps(c, imgs[1..]);
        PrefixUrls(c, Enqueued(c, imgs[1..]));
      } else {
        var e := Channel(c.pushCh + [imgs[0]], c.inChannel + {imgs[0].url});
        UrlsOfMore(c.pushCh, imgs[0]);
        EnqueueKeeps(e, imgs[1..]);
        PrefixUrls(e, Enqueued(e, imgs[1..]));
      }
    }
  }

  /** Queue takes the images in the order they come in. */
  lemma {:induction false} EnqueuedLast(c: Channel, imgs: seq<Image>, img: Image)
    ensures var d := Enqueued(c, imgs);
            Enqueued(c, imgs + [img])
            == if img.url in d.inChannel || |d.pushCh| >= CAPACITY then d
               else Channel(d.pushCh + [img], d.inChannel + {img.url})
    decreases |imgs|
  {
    if imgs == [] {
      assert imgs + [img] == [img] && [img][1..] == [];
    } else {
      assert (imgs + [img])[1..] == imgs[1..] + [img];
      if imgs[0].url in c.inChannel || |c.pushCh| >= CAPACITY {
        EnqueuedLast(c, imgs[1..], img);
      } else {
        EnqueuedLast(Channel(c.pushCh + [imgs[0]], c.inChannel + {imgs[0].url}), imgs[1..], img);
      }
    }
  }

  lemma PrefixUrls(c: Channel, d: Channel)
    requires ChannelInv(c) && ChannelInv(d) && c.pushCh <= d.pushCh
    ensures c.inChannel <= d.inChannel
  {
    forall u | u in c.inChannel
      ensures u in d.inChannel
    {
      var i :| 0 <= i < |c.pushCh| && c.pushCh[i].url == u;
      assert d.pushCh[i] == c.pushCh[i];
    }
  }

  /** What a producer that nobody interrupts does in the machine is what Queue does; in a
      scheduler's round it then goes back to the gate. */
  lemma {:induction false} QueueAlone(s: State, p: nat, imgs: seq<Image>, loop: bool) returns (actions: seq<Action>)
    requires p in s.procs && s.procs[p] == Pushing(QReserve(imgs, loop))
    ensures var d := Enqueued(Channel(s.pushCh, s.inChannel), imgs);
            Leads(s, actions, Go(s.(pushCh := d.pushCh, inChannel := d.inChannel), p,
                                 if loop then Pushing(SGate) else Returned))
    decreases |imgs|
  {
    hide Leads;
    var end := if loop then Pushing(SGate) else Returned;
    if imgs == [] {
      NoSteps(Go(s, p, end));
      OneStep(s, Advance(p), [], Go(s, p, end));
      actions := [Advance(p)] + [];
    } else {
      var t, more := QueueFirst(s, p, imgs, loop);
      var rest := QueueAlone(t, p, imgs[1..], loop);
      var d := Enqueued(Channel(s.pushCh, s.inChannel), imgs);
      assert t.procs[p := end] == s.procs[p := end];
      actions := more + rest;
      Concatenated(s, more, t, rest, Go(s.(pushCh := d.pushCh, inChannel := d.inChannel), p, end));
    }
  }

  lemma QueueFirst(s: State, p: nat, imgs: seq<Image>, loop: bool) returns (t: State, actions: seq<Action>)
    requires p in s.procs && s.procs[p] == Pushing(QReserve(imgs, loop)) && imgs != []
    ensures Leads(s, actions, t)
    ensures var img := imgs[0];
            t == Go(if img.url in s.inChannel || |s.pushCh| >= CAPACITY then s
                    else s.(pushCh := s.pushCh + [img], inChannel := s.inChannel + {img.url}),
                    p, Pushing(QReserve(imgs[1..], loop)))
  {
    hide Leads;
    var img := imgs[0];
    var reserved := s.(inChannel := s.inChannel + {img.url});
    var next := Pushing(QReserve(imgs[1..], loop));
    var a := Advance(p);
    if img.url in s.inChannel {
      t := Go(s, p, next);
      actions := [a] + [];
      NoSteps(t);
    } else {
      var s1 := Go(reserved, p, Pushing(QPush(img, imgs[1..], loop)));
      if |s.pushCh| < CAPACITY {
        t := Go(s.(pushCh := s.pushCh + [img], inChannel := s.inChannel + {img.url}), p, next);
        assert s1.procs[p := next] == t.procs;
        NoSteps(t);
        OneStep(s1, a, [], t);
        actions := [a] + ([a] + []);
      } else {
        var s2 := Go(reserved, p, Pushing(QUnreserve(img, imgs[1..], loop)));
        t := Go(s, p, next);
        assert reserved.inChannel - {img.url} == s.inChannel;
        assert s1.procs[p := s2.procs[p]] == s2.procs && s2.procs[p := next] == t.procs;
        NoSteps(t);
        OneStep(s2, a, [], t);
        OneStep(s1, a, [a] + [], t);
        actions := [a] + ([a] + ([a] + []));
      }
    }
    OneStep(s, a, actions[1..], t);
  }

  function StatusOfAll(rows: seq<Row>, imgs: seq<Image>, status: Status): (updated: seq<Row>)
    ensures |updated| == |rows|
    decreases |imgs|
  {
    if imgs == [] then rows else StatusOfAll(Apply(rows, SetStatus(imgs[0].url, status, "")), imgs[1..], status)
  }

  lemma {:induction false} StatusOfAllAt(rows: seq<Row>, imgs: seq<Image>, status: Status, i: nat)
    requires i < |rows|
    ensures StatusOfAll(rows, imgs, status)[i]
         == if rows[i].url in UrlsOf(imgs) then Changed(SetStatus(rows[i].url, status, ""), rows[i]) else rows[i]
    decreases |imgs|
  {
    if imgs != [] {
      StatusOfAllAt(Apply(rows, SetStatus(imgs[0].url, status, "")), imgs[1..], status, i);
      assert imgs == [imgs[0]] + imgs[1..];
      assert UrlsOf(imgs) == {imgs[0].url} + UrlsOf(imgs[1..]) by { UrlsOfFirst(imgs); }
    }
  }

  lemma UrlsOfFirst(imgs: seq<Image>)
    requires imgs != []
    ensures UrlsOf(imgs) == {imgs[0].url} + UrlsOf(imgs[1..])
  {
    forall u | u in UrlsOf(imgs)
      ensures u == imgs[0].url || u in UrlsOf(imgs[1..])
    {
      var i :| 0 <= i < |imgs| && imgs[i].url == u;
      assert i > 0 ==> imgs[1..][i - 1] == imgs[i];
    }
  }

  /** After ClearQueue no row is queued: the queued ones and those in the channel are
      discovered, and the others are as they were. */
  lemma ClearedTable(rows: seq<Row>, imgs: seq<Image>, i: nat)
    requires i < |rows|
    ensures var r, after := rows[i], StatusOfAll(Apply(rows, ResetQueued), imgs, Discovered)[i];
            && after.status != Queued
            && (r.url in UrlsOf(imgs) || r.status == Queued ==> after.status == Discovered)
            && (r.url !in UrlsOf(imgs) && r.status != Queued ==> after == r)
  {
    StatusOfAllAt(Apply(rows, ResetQueued), imgs, Discovered, i);
  }

  // ---- Recovery ----

  datatype Pairing = Pairing(folder: string, path: string, autoUpload: bool)

  /** The folders that upload by themselves, with the path of the last pairing of each. */
  function AutoFolders(pairings: seq<Pairing>): map<string, string> {
    if pairings == [] then map[]
    else
      var before := AutoFolders(pairings[..|pairings| - 1]);
      var last := pairings[|pairings| - 1];
      if last.autoUpload then before[last.folder := last.path] else before
  }

  /** The last pairing of the folder among those that upload by themselves. */
  predicate LastAuto(pairings: seq<Pairing>, folder: string, k: int) {
    && 0 <= k < |pairings| && pairings[k].folder == folder && pairings[k].autoUpload
    && forall l :: k < l < |pairings| && pairings[l].folder == folder ==> !pairings[l].autoUpload
  }

  lemma LastAutoNext(pairings: seq<Pairing>, folder: string, k: int)
    requires pairings != []
    ensures var m := |pairings| - 1;
            LastAuto(pairings, folder, k) <==>
            if pairings[m].folder == folder && pairings[m].autoUpload then k == m
            else LastAuto(pairings[..m], folder, k)
  {
    var m := |pairings| - 1;
    assert forall l :: 0 <= l < m ==> pairings[..m][l] == pairings[l];
  }

  /** A folder uploads by itself exactly when some pairing of it says so, and to the path of
      the last one that does. */
  lemma {:induction false} AutoFoldersIff(pairings: seq<Pairing>, folder: string, path: string)
    ensures folder in AutoFolders(pairings) <==> IsAuto(pairings, folder)
    ensures folder in AutoFolders(pairings) && AutoFolders(pairings)[folder] == path <==>
            exists k :: LastAuto(pairings, folder, k) && pairings[k].path == path
  {
    hide LastAuto, IsAuto;
    if pairings == [] {
      NoAuto(folder);
    } else {
      var m := |pairings| - 1;
      AutoFoldersIff(pairings[..m], folder, path);
      IsAutoNext(pairings, folder);
      forall k
        ensures LastAuto(pairings, folder, k) <==>
                if pairings[m].folder == folder && pairings[m].autoUpload then k == m
                else LastAuto(pairings[..m], folder, k)
        ensures LastAuto(pairings[..m], folder, k) ==> 0 <= k < m && pairings[..m][k] == pairings[k]
      {
        LastAutoNext(pairings, folder, k);
        LastAutoBounds(pairings[..m], folder, k);
      }
    }
  }

  /** Some pairing of the folder uploads by itself. */
  ghost predicate IsAuto(pairings: seq<Pairing>, folder: string) {
    exists k :: 0 <= k < |pairings| && pairings[k].folder == folder && pairings[k].autoUpload
  }

  lemma NoAuto(folder: string)
    ensures !IsAuto([], folder) && forall k :: !LastAuto([], folder, k)
  {
  }

  lemma IsAutoNext(pairings: seq<Pairing>, folder: string)
    requires pairings != []
    ensures var m := |pairings| - 1;
            IsAuto(pairings, folder) <==>
            (pairings[m].folder == folder && pairings[m].autoUpload) || IsAuto(pairings[..m], folder)
  {
    var m := |pairings| - 1;
    assert forall l :: 0 <= l < m ==> pairings[..m][l] == pairings[l];
  }

  lemma LastAutoBounds(pairings: seq<Pairing>, folder: string, k: int)
    ensures LastAuto(pairings, folder, k) ==> 0 <= k < |pairings|
  {
  }

  /** What recovery makes of a row, given all pairings there are. */
  ghost predicate RecoveredRow(r: Row, pairings: seq<Pairing>, after: Row) {
    if r.status == Uploading then after == r.(status := Queued, lastError := "interrupted by restart")
    else if r.status == Discovered && r.cameraFolder != "" && IsAuto(pairings, r.cameraFolder) then
      exists k :: LastAuto(pairings, r.cameraFolder, k)
                  && after == r.(status := Queued, retryCount := 0, lastError := "", destPath := pairings[k].path,
                                 uploadSource := "auto")
    else after == r
  }

  /** Discovered in a folder that uploads by itself. */
  predicate IsDue(r: Row, auto: map<string, string>) {
    r.status == Discovered && r.cameraFolder != "" && r.cameraFolder in auto
  }

  /** The row after the folders in `synced` have been through. */
  function SyncedRow(r: Row, auto: map<string, string>, synced: set<string>): Row {
    if IsDue(r, auto) && r.cameraFolder in synced then
      r.(status := Queued, retryCount := 0, lastError := "", destPath := auto[r.cameraFolder], uploadSource := "auto")
    else r
  }

  function Synced(rows: seq<Row>, auto: map<string, string>, synced: set<string>): (updated: seq<Row>)
    ensures |updated| == |rows| && forall i :: 0 <= i < |rows| ==> updated[i] == SyncedRow(rows[i], auto, synced)
  {
    seq(|rows|, i requires 0 <= i < |rows| => SyncedRow(rows[i], auto, synced))
  }

  function DueFolders(rows: seq<Row>, auto: map<string, string>): set<string> {
    set i | 0 <= i < |rows| && IsDue(rows[i], auto) :: rows[i].cameraFolder
  }

  /** The rows that are due in one folder, in table order. */
  function DueIn(rows: seq<Row>, auto: map<string, string>, folder: string): (due: seq<Row>)
    ensures forall r :: r in due <==> r in rows && IsDue(r, auto) && r.cameraFolder == folder
  {
    if rows == [] then []
    else
      var last := rows[|rows| - 1];
      DueIn(rows[..|rows| - 1], auto, folder) + if IsDue(last, auto) && last.cameraFolder == folder then [last] else []
  }

  function UrlsOfRows(rows: seq<Row>): set<string> {
    set r | r in rows :: r.url
  }

  function Images(rows: seq<Row>): (imgs: seq<Image>)
    ensures |imgs| == |rows| && forall i :: 0 <= i < |rows| ==> imgs[i] == Image(rows[i].filename, rows[i].url)
  {
    seq(|rows|, i requires 0 <= i < |rows| => Image(rows[i].filename, rows[i].url))
  }

  /** The table after recovery. */
  function Recovered(rows: seq<Row>, auto: map<string, string>): seq<Row> {
    var reset := Apply(rows, ResetStuckUploading);
    Synced(reset, auto, DueFolders(reset, auto))
  }

  /** Marking the due rows of one folder by URL marks no others. */
  lemma MarkFolder(rows: seq<Row>, auto: map<string, string>, synced: set<string>, folder: string)
    requires UniqueKeys(rows) && folder in auto && folder !in synced
    ensures Apply(Synced(rows, auto, synced),
                  MarkQueuedWithMeta(UrlsOfRows(DueIn(rows, auto, folder)), auto[folder], "auto"))
         == Synced(rows, auto, synced + {folder})
  {
    var due := DueIn(rows, auto, folder);
    hide UniqueKeys, DueIn, UrlsOfRows;
    forall i | 0 <= i < |rows|
      ensures rows[i].url in UrlsOfRows(due) <==> IsDue(rows[i], auto) && rows[i].cameraFolder == folder
    {
      UrlIsDue(rows, auto, folder, i);
    }
  }

  lemma UrlIsDue(rows: seq<Row>, auto: map<string, string>, folder: string, i: nat)
    requires UniqueKeys(rows) && i < |rows|
    ensures rows[i].url in UrlsOfRows(DueIn(rows, auto, folder))
       <==> IsDue(rows[i], auto) && rows[i].cameraFolder == folder
  {
    hide IsDue;
    assert rows[i] in rows;
  }

  /** Which rows the channel is for. */
  ghost predicate FreshOnly(rows: seq<Row>, pushCh: seq<Image>) {
    forall img :: img in pushCh ==> exists r :: r in rows && IsFresh(r) && img == Image(r.filename, r.url)
  }

  ghost predicate Taken(rows: seq<Row>, c: Channel) {
    forall r :: r in rows && IsFresh(r) ==> r.url in c.inChannel || |c.pushCh| == CAPACITY
  }

  /** The channel is sound, holds fresh rows only, and leaves one out only when full. */
  ghost predicate Matched(rows: seq<Row>, c: Channel) {
    ChannelInv(c) && FreshOnly(rows, c.pushCh) && Taken(rows, c)
  }

  lemma {:induction false} ListsFresh(rows: seq<Row>, now: int)
    ensures forall m ::
              m in ImagesOf(rows, false, now) <==> exists r :: r in rows && IsFresh(r) && m == Image(r.filename, r.url)
  {
    if rows != [] {
      ListsFresh(rows[1..], now);
      var rest, all := ImagesOf(rows[1..], false, now), ImagesOf(rows, false, now);
      assert rows == [rows[0]] + rows[1..];
      var first := Image(rows[0].filename, rows[0].url);
      assert forall img :: img in all <==> img in rest || (IsFresh(rows[0]) && img == first);
    }
  }

  /** Queueing the due rows of a folder keeps the channel matched to the table. */
  lemma FolderQueued(rows: seq<Row>, auto: map<string, string>, synced: set<string>, folder: string, c: Channel)
    requires folder in auto && Matched(Synced(rows, auto, synced), c)
    ensures Matched(Synced(rows, auto, synced + {folder}), Enqueued(c, Images(DueIn(rows, auto, folder))))
  {
    hide ChannelInv, DueIn, Enqueued, IsFresh;
    var before, after := Synced(rows, auto, synced), Synced(rows, auto, synced + {folder});
    var due := DueIn(rows, auto, folder);
    var d := Enqueued(c, Images(due));
    EnqueueKeeps(c, Images(due));
    assert ChannelInv(d);
    forall img | img in d.pushCh
      ensures exists r :: r in after && IsFresh(r) && img == Image(r.filename, r.url)
    {
      QueuedImageIsFresh(rows, auto, synced, folder, c, img);
    }
    forall r | r in after && IsFresh(r)
      ensures r.url in d.inChannel || |d.pushCh| == CAPACITY
    {
      FreshRowIsTaken(rows, auto, synced, folder, c, r);
    }
  }

  lemma QueuedImageIsFresh(rows: seq<Row>, auto: map<string, string>, synced: set<string>, folder: string,
                           c: Channel, img: Image)
    requires FreshOnly(Synced(rows, auto, synced), c.pushCh)
    requires img in c.pushCh || img in Images(DueIn(rows, auto, folder))
    ensures exists r :: r in Synced(rows, auto, synced + {folder}) && IsFresh(r) && img == Image(r.filename, r.url)
  {
    hide DueIn;
    var before, after := Synced(rows, auto, synced), Synced(rows, auto, synced + {folder});
    if img in c.pushCh {
      var r :| r in before && IsFresh(r) && img == Image(r.filename, r.url);
      var i :| 0 <= i < |rows| && before[i] == r;
      assert after[i] in after && after[i] == r;
    } else {
      var due := DueIn(rows, auto, folder);
      var k :| 0 <= k < |due| && img == Image(due[k].filename, due[k].url);
      assert due[k] in rows;
      var i :| 0 <= i < |rows| && rows[i] == due[k];
      assert after[i] in after && IsFresh(after[i]);
    }
  }

  lemma FreshRowIsTaken(rows: seq<Row>, auto: map<string, string>, synced: set<string>, folder: string, c: Channel,
                        r: Row)
    requires ChannelInv(c) && Taken(Synced(rows, auto, synced), c)
    requires r in Synced(rows, auto, synced + {folder}) && IsFresh(r)
    ensures var d := Enqueued(c, Images(DueIn(rows, auto, folder)));
            r.url in d.inChannel || |d.pushCh| == CAPACITY
  {
    hide ChannelInv, DueIn, Enqueued;
    var before, after := Synced(rows, auto, synced), Synced(rows, auto, synced + {folder});
    var due := DueIn(rows, auto, folder);
    var d := Enqueued(c, Images(due));
    EnqueueKeeps(c, Images(due));
    PrefixUrls(c, d);
    assert |c.pushCh| == CAPACITY ==> |d.pushCh| == CAPACITY by { Full(c, d); }
    var i :| 0 <= i < |rows| && after[i] == r;
    if before[i] == r {
      assert r in before;
    } else {
      assert rows[i] in due;
      var k :| 0 <= k < |due| && due[k] == rows[i];
      assert Images(due)[k] in Images(due);
    }
  }

  lemma Full(c: Channel, d: Channel)
    requires ChannelInv(d) && c.pushCh <= d.pushCh
    ensures |c.pushCh| == CAPACITY ==> |d.pushCh| == CAPACITY
  {
  }

  class Daemon {
    var rows: seq<Row>
    var pushCh: seq<Image>
    var inChannel: set<string>
    var paused: bool

    /** A process started over the table that an earlier one left behind. */
    constructor (table: seq<Row>)
      ensures rows == table && State() == Channel([], {}) && !paused
    {
      rows, pushCh, inChannel, paused := table, [], {}, false;
    }

    function State(): Channel
      reads this
    {
      Channel(pushCh, inChannel)
    }

    method Queue(imgs: seq<Image>)
      requires |pushCh| <= CAPACITY
      modifies this`rows, this`pushCh, this`inChannel
      ensures rows == if paused then StatusOfAll(old(rows), imgs, Queued) else old(rows)
      ensures State() == if paused then old(State()) else Enqueued(old(State()), imgs)
    {
      var i := 0;
      if paused {
        while i < |imgs|
          invariant i <= |imgs|
          invariant StatusOfAll(rows, imgs[i..], Queued) == StatusOfAll(old(rows), imgs, Queued)
          invariant State() == old(State())
        {
          rows := Apply(rows, SetStatus(imgs[i].url, Queued, ""));
          i := i + 1;
        }
        return;
      }
      while i < |imgs|
        invariant i <= |imgs| && |pushCh| <= CAPACITY && rows == old(rows)
        invariant Enqueued(State(), imgs[i..]) == Enqueued(old(State()), imgs)
      {
        var img := imgs[i];
        if img.url !in inChannel {
          ghost var before := inChannel;
          inChannel := inChannel + {img.url};
          if |pushCh| < CAPACITY {
            pushCh := pushCh + [img];
          } else {
            inChannel := inChannel - {img.url};
            assert inChannel == before;
          }
        }
        i := i + 1;
      }
    }

    /** How many rows and channel entries were cleared. Every image drained from the
        channel becomes discovered, whatever its status was. */
    method ClearQueue() returns (n: nat)
      requires ChannelInv(State())
      modifies this`rows, this`pushCh, this`inChannel
      ensures State() == Channel([], {})
      ensures rows == StatusOfAll(Apply(old(rows), ResetQueued), old(pushCh), Discovered)
      ensures n == |Selected(old(rows), ResetQueued)| + |old(pushCh)|
    {
      n := |Selected(rows, ResetQueued)|;
      rows := Apply(rows, ResetQueued);
      while pushCh != []
        invariant ChannelInv(State())
        invariant StatusOfAll(rows, pushCh, Discovered)
               == StatusOfAll(Apply(old(rows), ResetQueued), old(pushCh), Discovered)
        invariant n + |pushCh| == |Selected(old(rows), ResetQueued)| + |old(pushCh)|
        decreases |pushCh|
      {
        var img := pushCh[0];
        FirstUrl(pushCh);
        pushCh := pushCh[1..];
        inChannel := inChannel - {img.url};
        rows := Apply(rows, SetStatus(img.url, Discovered, ""));
        n := n + 1;
      }
    }

    /** From the store made over the table to the end of the startup sync. Pairings are
        None when there is no pairing repository. */
    method Recover(pairings: Option<seq<Pairing>>, now: int)
      requires UniqueKeys(rows) && State() == Channel([], {}) && !paused
      modifies this`rows, this`pushCh, this`inChannel
      ensures rows == Recovered(old(rows), if pairings.Some? then AutoFolders(pairings.value) else map[])
      ensures |rows| == |old(rows)|
      ensures forall i :: 0 <= i < |rows| ==>
                      RecoveredRow(old(rows)[i], if pairings.Some? then pairings.value else [], rows[i])
      ensures Matched(rows, State())
    {
      hide UniqueKeys, Matched, Enqueued, ImagesOf, AutoFolders, DueFolders, RecoveredRow, Recovered;
      var known := if pairings.Some? then pairings.value else [];
      assert AutoFolders([]) == map[] by { NoPairings(); }
      RecoveredIs(rows, AutoFolders(known));
      forall i | 0 <= i < |rows|
        ensures RecoveredRow(rows[i], known, Recovered(rows, AutoFolders(known))[i])
      {
        RecoversRow(rows, known, i);
      }
      rows := Apply(rows, ResetStuckUploading);
      ghost var reset := rows;
      Queue(ImagesOf(rows, false, now));
      FreshQueued(rows, now);
      assert UniqueKeys(reset) by { ResetKeepsKeys(old(rows)); }
      NothingDue(reset);
      if pairings.Some? {
        var auto := ListAutoFolders(pairings.value);
        if |auto| > 0 {
          Sync(auto);
        }
      }
    }

    method ListAutoFolders(pairings: seq<Pairing>) returns (auto: map<string, string>)
      ensures auto == AutoFolders(pairings)
    {
      auto := map[];
      for i := 0 to |pairings|
        invariant auto == AutoFolders(pairings[..i])
      {
        assert pairings[..i + 1][..i] == pairings[..i];
        if pairings[i].autoUpload {
          auto := auto[pairings[i].folder := pairings[i].path];
        }
      }
      assert pairings[..|pairings|] == pairings;
    }

    method GroupByFolder(auto: map<string, string>) returns (byFolder: map<string, seq<Row>>)
      ensures Grouped(byFolder, rows, auto)
    {
      hide Grouped;
      byFolder := map[];
      assert Grouped(byFolder, [], auto) by { NothingGrouped(auto); }
      for i := 0 to |rows|
        invariant Grouped(byFolder, rows[..i], auto)
      {
        var e := rows[i];
        GroupNext(byFolder, rows[..i], e, auto);
        assert rows[..i + 1] == rows[..i] + [e];
        if e.status == Discovered && e.cameraFolder != "" && e.cameraFolder in auto {
          byFolder := byFolder[e.cameraFolder := Slot(byFolder, e.cameraFolder) + [e]];
        }
      }
      assert rows[..|rows|] == rows;
    }

    method SyncFolder(folder: string, entries: seq<Row>, auto: map<string, string>, ghost was: seq<Row>,
                      ghost synced: set<string>)
      requires UniqueKeys(was) && !paused && folder in auto && folder !in synced && entries == DueIn(was, auto, folder)
      requires rows == Synced(was, auto, synced) && Matched(rows, State())
      modifies this`rows, this`pushCh, this`inChannel
      ensures rows == Synced(was, auto, synced + {folder}) && Matched(rows, State())
    {
      hide UniqueKeys, Matched, Enqueued, DueIn, Apply, Synced, UrlsOfRows;
      MarkFolder(was, auto, synced, folder);
      FolderQueued(was, auto, synced, folder, State());
      assert |pushCh| <= CAPACITY by { Bounded(rows, State()); }
      rows := Apply(rows, MarkQueuedWithMeta(UrlsOfRows(entries), auto[folder], "auto"));
      Queue(Images(entries));
    }

    /** The folders come in any order, as a Go map is iterated. */
    method Sync(auto: map<string, string>)
      requires UniqueKeys(rows) && !paused && Matched(rows, State())
      modifies this`rows, this`pushCh, this`inChannel
      ensures rows == Synced(old(rows), auto, DueFolders(old(rows), auto))
      ensures Matched(rows, State())
    {
      hide UniqueKeys, Matched, Enqueued, DueIn, DueFolders, Apply, Synced, UrlsOfRows;
      var byFolder := GroupByFolder(auto);
      ghost var all := byFolder.Keys;
      var left := byFolder.Keys;
      assert all <= auto.Keys by { DueFoldersAreAuto(rows, auto); }
      assert all - left == {} && Synced(rows, auto, {}) == rows by { NothingSynced(rows, auto); }
      while left != {}
        invariant left <= all
        invariant rows == Synced(old(rows), auto, all - left)
        invariant Matched(rows, State())
        decreases |left|
      {
        var folder :| folder in left;
        assert byFolder[folder] == Slot(byFolder, folder);
        assert all - (left - {folder}) == all - left + {folder};
        SyncFolder(folder, byFolder[folder], auto, old(rows), all - left);
        left := left - {folder};
      }
      assert all - left == all;
    }
  }

  lemma Bounded(rows: seq<Row>, c: Channel)
    requires Matched(rows, c)
    ensures |c.pushCh| <= CAPACITY
  {
  }

  lemma DueFoldersAreAuto(rows: seq<Row>, auto: map<string, string>)
    ensures DueFolders(rows, auto) <= auto.Keys
  {
  }

  lemma NothingSynced(rows: seq<Row>, auto: map<string, string>)
    ensures Synced(rows, auto, {}) == rows
  {
  }

  lemma NothingDue(rows: seq<Row>)
    ensures Synced(rows, map[], DueFolders(rows, map[])) == rows
  {
  }

  lemma ResetKeepsKeys(rows: seq<Row>)
    requires UniqueKeys(rows)
    ensures UniqueKeys(Apply(rows, ResetStuckUploading))
  {
    var u := Apply(rows, ResetStuckUploading);
    assert forall i :: 0 <= i < |u| ==> u[i].id == rows[i].id && u[i].filename == rows[i].filename;
    assert forall i :: 0 <= i < |u| ==> u[i].url == rows[i].url;
  }

  lemma FirstUrl(imgs: seq<Image>)
    requires imgs != [] && forall i, j :: 0 <= i < j < |imgs| ==> imgs[i].url != imgs[j].url
    ensures UrlsOf(imgs) - {imgs[0].url} == UrlsOf(imgs[1..])
  {
    forall u | u in UrlsOf(imgs) && u != imgs[0].url
      ensures u in UrlsOf(imgs[1..])
    {
      var i :| 0 <= i < |imgs| && imgs[i].url == u;
      assert imgs[1..][i - 1] == imgs[i];
    }
  }

  function Slot(byFolder: map<string, seq<Row>>, f: string): seq<Row> {
    if f in byFolder then byFolder[f] else []
  }

  ghost predicate Grouped(byFolder: map<string, seq<Row>>, rows: seq<Row>, auto: map<string, string>) {
    byFolder.Keys == DueFolders(rows, auto) && forall f :: Slot(byFolder, f) == DueIn(rows, auto, f)
  }

  lemma NothingGrouped(auto: map<string, string>)
    ensures Grouped(map[], [], auto)
  {
  }

  lemma GroupNext(byFolder: map<string, seq<Row>>, rows: seq<Row>, e: Row, auto: map<string, string>)
    requires Grouped(byFolder, rows, auto)
    ensures Grouped(if IsDue(e, auto) then byFolder[e.cameraFolder := Slot(byFolder, e.cameraFolder) + [e]]
                    else byFolder, rows + [e], auto)
  {
    hide IsDue, DueIn, DueFolders;
    DueFoldersNext(rows, e, auto);
    var after := if IsDue(e, auto) then byFolder[e.cameraFolder := Slot(byFolder, e.cameraFolder) + [e]] else byFolder;
    forall f
      ensures Slot(after, f) == DueIn(rows + [e], auto, f)
    {
      DueInNext(rows, e, auto, f);
    }
  }

  lemma DueFoldersNext(rows: seq<Row>, e: Row, auto: map<string, string>)
    ensures DueFolders(rows + [e], auto) == DueFolders(rows, auto) + if IsDue(e, auto) then {e.cameraFolder} else {}
  {
    hide IsDue;
    var more := rows + [e];
    assert forall i :: 0 <= i < |rows| ==> more[i] == rows[i];
    assert more[|rows|] == e;
  }

  lemma DueInNext(rows: seq<Row>, e: Row, auto: map<string, string>, f: string)
    ensures DueIn(rows + [e], auto, f)
         == DueIn(rows, auto, f) + if IsDue(e, auto) && e.cameraFolder == f then [e] else []
  {
    hide IsDue;
    assert (rows + [e])[..|rows + [e]| - 1] == rows;
  }

  lemma FreshQueued(rows: seq<Row>, now: int)
    ensures Matched(rows, Enqueued(Channel([], {}), ImagesOf(rows, false, now)))
  {
    hide Enqueued, ImagesOf, IsFresh;
    var empty, imgs := Channel([], {}), ImagesOf(rows, false, now);
    assert ChannelInv(empty);
    EnqueueKeeps(empty, imgs);
    ListsFresh(rows, now);
    forall r | r in rows && IsFresh(r)
      ensures Image(r.filename, r.url) in imgs
    {
    }
  }

  // ---- What recovery achieves ----

  /** After a crash at any point of any run, recovery leaves no row uploading and no row
      discovered in a folder that uploads by itself, and changes no other row. */
  lemma NothingIsLeftBehind(rows: seq<Row>, auto: map<string, string>, i: nat)
    requires i < |rows|
    ensures var r, after := rows[i], Recovered(rows, auto)[i];
            && after.status != Uploading
            && !IsDue(after, auto)
            && (r.status != Uploading && !IsDue(r, auto) ==> after == r)
            && (r.status == Uploading ==> after == r.(status := Queued, lastError := "interrupted by restart"))
            && (IsDue(r, auto) ==> IsFresh(after) && after.destPath == auto[r.cameraFolder])
  {
    var reset := Apply(rows, ResetStuckUploading);
    if IsDue(reset[i], auto) {
      assert reset[i].cameraFolder in DueFolders(reset, auto);
    }
  }

  lemma NoPairings()
    ensures AutoFolders([]) == map[]
  {
  }

  lemma RecoveredIs(rows: seq<Row>, auto: map<string, string>)
    ensures var reset := Apply(rows, ResetStuckUploading);
            Recovered(rows, auto) == Synced(reset, auto, DueFolders(reset, auto))
  {
  }

  /** Recovery, row by row and from the pairings alone. */
  lemma RecoversRow(rows: seq<Row>, pairings: seq<Pairing>, i: nat)
    requires i < |rows|
    ensures RecoveredRow(rows[i], pairings, Recovered(rows, AutoFolders(pairings))[i])
  {
    hide AutoFolders, LastAuto, IsAuto;
    var auto, r := AutoFolders(pairings), rows[i];
    var reset := Apply(rows, ResetStuckUploading);
    AutoFoldersIff(pairings, r.cameraFolder, if r.cameraFolder in auto then auto[r.cameraFolder] else "");
    if IsDue(reset[i], auto) {
      assert reset[i].cameraFolder in DueFolders(reset, auto);
    }
  }

  /** The pipeline that a new process makes over what a crash left in the table. */
  ghost function Restarted(s: State): State {
    State(s.table.(rows := Apply(s.table.rows, ResetStuckUploading)),
          [], {}, OPENED, false, s.now, s.lastFailure, map[])
  }

  /** A crash at any point of any run leaves a table from which a new run starts, so that
      whatever holds in every run holds in every run after any number of crashes. */
  lemma CrashIsRecoverable(s: State, actions: seq<Action>)
    requires IsInitial(s) && IsRun(s, actions)
    ensures IsInitial(Restarted(After(s, actions)))
    ensures var before, after := After(s, actions).table.rows, Restarted(After(s, actions)).table.rows;
            |after| == |before| && forall i :: 0 <= i < |before| ==> RecoveredRow(before[i], [], after[i])
  {
    hide After, IsRun;
    assert Inv(s);
    RunKeepsInv(s, actions);
    var t := After(s, actions);
    ChangeKeepsInv(t.table, ResetStuckUploading);
    ModerateRows(t.table.rows, ResetStuckUploading, t.lastFailure + 20);
    ResetRows(t.table.rows, t.lastFailure + 20);
    ResetRecovers(t.table.rows);
  }

  /** The reset alone is a recovery without pairings. */
  lemma ResetRecovers(rows: seq<Row>)
    ensures forall i :: 0 <= i < |rows| ==> RecoveredRow(rows[i], [], Apply(rows, ResetStuckUploading)[i])
  {
    hide LastAuto;
    forall i | 0 <= i < |rows|
      ensures RecoveredRow(rows[i], [], Apply(rows, ResetStuckUploading)[i])
    {
      NoAuto(rows[i].cameraFolder);
    }
  }

  lemma ResetRows(rows: seq<Row>, bound: int)
    requires RetryRows(rows, bound)
    ensures forall r :: r in Apply(rows, ResetStuckUploading) ==> r.status != Uploading && RetryRow(r, bound)
  {
  }
}
