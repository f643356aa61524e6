/** "Uploaded exactly once", as docs/architecture.md promises: runs of the machine that
    upload one image twice, and that leave one uploading for ever. */
module ExactlyOnce {
  import opened ImageTable
  import opened Gate
  import opened Pipeline
  import opened Uploads

  /** The uploads of the file `name` that a step completes: the backend stores it under that
      name, whatever URL the camera has it under. */
  function UploadsAt(s: State, a: Action, name: string): nat {
    if a.Succeed? && InTransfer(s, a.p) && s.procs[a.p].w.img.filename == name then 1 else 0
  }

  /** The actions lead from `s` to `t` and complete `n` uploads of the file `name`. */
  ghost predicate Uploading(s: State, actions: seq<Action>, t: State, name: string, n: nat)
    decreases |actions|
  {
    if actions == [] then s == t && n == 0
    else
      && Enabled(s, actions[0])
      && UploadsAt(s, actions[0], name) <= n
      && Uploading(Next(s, actions[0]), actions[1..], t, name, n - UploadsAt(s, actions[0], name))
  }

  /** The uploads of the file that a run completes. */
  ghost function UploadsOf(s: State, actions: seq<Action>, name: string): nat
    requires IsRun(s, actions)
    decreases |actions|
  {
    if actions == [] then 0 else UploadsAt(s, actions[0], name) + UploadsOf(Next(s, actions[0]), actions[1..], name)
  }

  lemma {:induction false} UploadingCounts(s: State, actions: seq<Action>, t: State, name: string, n: nat)
    requires Uploading(s, actions, t, name, n)
    ensures IsRun(s, actions) && UploadsOf(s, actions, name) == n
    decreases |actions|
  {
    hide Enabled, Next, UploadsAt;
    if actions != [] {
      UploadingCounts(Next(s, actions[0]), actions[1..], t, name, n - UploadsAt(s, actions[0], name));
    }
  }

  predicate NoneSucceed(actions: seq<Action>) {
    forall a :: a in actions ==> !a.Succeed?
  }

  /** A run in which no transfer ends completes no upload of any file. */
  lemma {:induction false} QuietRun(s: State, actions: seq<Action>, t: State, name: string)
    requires Leads(s, actions, t) && NoneSucceed(actions)
    ensures Uploading(s, actions, t, name, 0)
    decreases |actions|
  {
    hide Enabled, Next;
    if actions != [] {
      assert actions[0] in actions;
      QuietRun(Next(s, actions[0]), actions[1..], t, name);
    }
  }

  lemma {:induction false} UploadingIsRun(s: State, actions: seq<Action>, t: State, name: string, n: nat)
    requires Uploading(s, actions, t, name, n)
    ensures Leads(s, actions, t)
    decreases |actions|
  {
    hide Enabled, Next, UploadsAt;
    if actions != [] {
      UploadingIsRun(Next(s, actions[0]), actions[1..], t, name, n - UploadsAt(s, actions[0], name));
    }
  }

  lemma {:induction false} Join(s: State, xs: seq<Action>, t: State, ys: seq<Action>, u: State, name: string, m: nat,
                                n: nat)
    requires Uploading(s, xs, t, name, m) && Uploading(t, ys, u, name, n)
    ensures Uploading(s, xs + ys, u, name, m + n)
    decreases |xs|
  {
    hide Enabled, Next, UploadsAt;
    if xs == [] {
      assert xs + ys == ys;
    } else {
      assert (xs + ys)[1..] == xs[1..] + ys;
      Join(Next(s, xs[0]), xs[1..], t, ys, u, name, m - UploadsAt(s, xs[0], name), n);
    }
  }

  lemma Begin(s: State, a: Action, t: State, name: string)
    requires Enabled(s, a) && Next(s, a) == t && !a.Succeed?
    ensures Uploading(s, [a], t, name, 0)
  {
    hide Enabled, Next;
    assert [a][1..] == [];
  }

  /** Extends a run by an advance of process `p`. */
  lemma Then(s: State, xs: seq<Action>, t: State, p: nat, u: State, name: string, n: nat)
    requires Uploading(s, xs, t, name, n)
    requires p in t.procs && CanAdvance(t, t.procs[p]) && Advanced(t, p, t.procs[p]) == u
    ensures Uploading(s, xs + [Advance(p)], u, name, n)
  {
    hide Advanced, CanAdvance;
    Begin(t, Advance(p), u, name);
    Join(s, xs, t, [Advance(p)], u, name, n, 0);
  }

  /** The pipeline runs: not paused, not cancelled. */
  ghost predicate Open(s: State) {
    GatesInv(s.gates) && !s.gates.paused && !s.cancelled
  }

  /** What one undisturbed upload by worker `p` makes of the state. */
  function Uploaded(s: State, p: nat, img: Image): State {
    Go(Sql(Sql(s.(pushCh := [], inChannel := s.inChannel - {img.url}), SetStatus(img.url, Status.Uploading, "")),
           SetStatus(img.url, Done, "")), p, Working(WGate))
  }

  /** A worker that finds `img` alone in the channel uploads it, whatever its status. */
  lemma Round(s: State, p: nat, img: Image) returns (actions: seq<Action>)
    requires Open(s) && p in s.procs && s.procs[p] == Working(WReceive) && s.pushCh == [img]
    ensures Uploading(s, actions, Uploaded(s, p, img), img.filename, 1)
  {
    hide Apply, RetriesOf, Uploading;
    var taken := s.(pushCh := [], inChannel := s.inChannel - {img.url});
    var mid, t := Go(taken, p, Working(WRegate(img))), Go(taken, p, Working(WSetUploading(img)));
    var xs := Take(s, p, img);
    var ys := WaitForGate(mid, p, img);
    var zs := Transfer(t, p, img);
    GoTwice(taken, p, Working(WRegate(img)), Working(WSetUploading(img)));
    Join(s, xs, mid, ys, t, img.filename, 0, 0);
    Join(s, xs + ys, t, zs, Uploaded(t, p, img), img.filename, 0, 1);
    actions := xs + ys + zs;
    assert Uploaded(t, p, img) == Uploaded(s, p, img) by { UploadedFrom(s, p, img); }
  }

  lemma GoTwice(s: State, p: nat, a: Pc, b: Pc)
    ensures Go(Go(s, p, a), p, b) == Go(s, p, b)
  {
    assert s.procs[p := a][p := b] == s.procs[p := b];
  }

  lemma UploadedFrom(s: State, p: nat, img: Image)
    requires s.pushCh == [img]
    ensures var t := Go(s.(pushCh := [], inChannel := s.inChannel - {img.url}), p, Working(WSetUploading(img)));
            Uploaded(t, p, img) == Uploaded(s, p, img)
  {
    hide Apply;
    var taken := s.(pushCh := [], inChannel := s.inChannel - {img.url});
    assert taken.inChannel - {img.url} == taken.inChannel;
    assert s.procs[p := Working(WSetUploading(img))][p := Working(WGate)] == s.procs[p := Working(WGate)];
  }

  lemma Take(s: State, p: nat, img: Image) returns (actions: seq<Action>)
    requires Open(s) && p in s.procs && s.procs[p] == Working(WReceive) && s.pushCh == [img]
    ensures NoneSucceed(actions)
    ensures Uploading(s, actions,
                      Go(s.(pushCh := [], inChannel := s.inChannel - {img.url}), p, Working(WRegate(img))),
                      img.filename, 0)
  {
    hide Uploading;
    var s1 := Go(s.(pushCh := []), p, Working(WUnreserve(img)));
    var s2 := Go(s1.(inChannel := s.inChannel - {img.url}), p, Working(WIsPaused(img)));
    var s3 := Go(s2, p, Working(WRegate(img)));
    actions := [Advance(p)];
    Begin(s, Advance(p), s1, img.filename);
    actions := Step(s, actions, s1, p, s2, img.filename, 0);
    actions := Step(s, actions, s2, p, s3, img.filename, 0);
    assert s3.procs == s.procs[p := Working(WRegate(img))];
  }

  lemma WaitForGate(s: State, p: nat, img: Image) returns (actions: seq<Action>)
    requires Open(s) && p in s.procs && s.procs[p] == Working(WRegate(img))
    ensures NoneSucceed(actions)
    ensures Uploading(s, actions, Go(s, p, Working(WSetUploading(img))), img.filename, 0)
  {
    hide Uploading;
    var s1 := Go(s, p, Working(WRewait(img, s.gates.current)));
    var s2 := Go(s1, p, Working(WSetUploading(img)));
    actions := [Advance(p)];
    Begin(s, Advance(p), s1, img.filename);
    actions := Step(s, actions, s1, p, s2, img.filename, 0);
    GoTwice(s, p, Working(WRewait(img, s.gates.current)), Working(WSetUploading(img)));
  }

  /** From the uploading write to the transfer. */
  lemma Depart(s: State, p: nat, img: Image) returns (actions: seq<Action>, t: State)
    requires Open(s) && p in s.procs && s.procs[p] == Working(WSetUploading(img))
    ensures NoneSucceed(actions)
    ensures Uploading(s, actions, t, img.filename, 0) && InTransfer(t, p) && t.procs[p].w.img == img
    ensures t == Go(Sql(s, SetStatus(img.url, Status.Uploading, "")), p, t.procs[p])
  {
    hide Apply, RetriesOf, Uploading;
    var flown := Sql(s, SetStatus(img.url, Status.Uploading, ""));
    var s1 := Go(flown, p, Working(WContext(img)));
    var s2 := Go(s1, p, Working(WLookup(img)));
    t := Go(s2, p, Working(WTransfer(img, RetriesOf(s2.table.rows, img.filename))));
    actions := [Advance(p)];
    Begin(s, Advance(p), s1, img.filename);
    actions := Step(s, actions, s1, p, s2, img.filename, 0);
    actions := Step(s, actions, s2, p, t, img.filename, 0);
    GoTwice(flown, p, Working(WContext(img)), Working(WLookup(img)));
    GoTwice(flown, p, Working(WLookup(img)), t.procs[p]);
  }

  /** From the end of the transfer to the write of success. */
  lemma Arrive(s: State, p: nat, img: Image) returns (actions: seq<Action>)
    requires InTransfer(s, p) && s.procs[p].w.img == img
    ensures Uploading(s, actions, Go(Sql(s, SetStatus(img.url, Done, "")), p, Working(WGate)), img.filename, 1)
  {
    hide Apply, Uploading;
    var s1 := Go(s, p, Working(WSetDone(img)));
    var s2 := Go(Sql(s1, SetStatus(img.url, Done, "")), p, Working(WGate));
    Succeeds(s, p, img);
    actions := Step(s, [Succeed(p)], s1, p, s2, img.filename, 1);
    GoTwice(Sql(s, SetStatus(img.url, Done, "")), p, Working(WSetDone(img)), Working(WGate));
  }

  lemma Transfer(s: State, p: nat, img: Image) returns (actions: seq<Action>)
    requires Open(s) && p in s.procs && s.procs[p] == Working(WSetUploading(img))
             && s.pushCh == [] && img.url !in s.inChannel
    ensures Uploading(s, actions, Uploaded(s, p, img), img.filename, 1)
  {
    hide Apply, Uploading;
    var xs, t := Depart(s, p, img);
    var ys := Arrive(t, p, img);
    Join(s, xs, t, ys, Go(Sql(t, SetStatus(img.url, Done, "")), p, Working(WGate)), img.filename, 0, 1);
    actions := xs + ys;
    assert s.inChannel - {img.url} == s.inChannel;
    assert s.procs[p := t.procs[p]][p := Working(WGate)] == s.procs[p := Working(WGate)];
  }

  lemma Step(s: State, xs: seq<Action>, t: State, p: nat, u: State, name: string, n: nat) returns (ys: seq<Action>)
    requires Uploading(s, xs, t, name, n)
    requires p in t.procs && CanAdvance(t, t.procs[p]) && Advanced(t, p, t.procs[p]) == u
    ensures NoneSucceed(xs) ==> NoneSucceed(ys)
    ensures Uploading(s, ys, u, name, n)
  {
    hide Advanced, CanAdvance;
    Then(s, xs, t, p, u, name, n);
    ys := xs + [Advance(p)];
  }

  lemma Succeeds(s: State, p: nat, img: Image)
    requires InTransfer(s, p) && s.procs[p].w.img == img
    ensures Uploading(s, [Succeed(p)], Go(s, p, Working(WSetDone(img))), img.filename, 1)
  {
    assert [Succeed(p)][1..] == [];
  }

  // ---- The run that uploads twice ----

  /** A worker that is free goes through the gate and waits for an image. */
  lemma Stand(s: State, p: nat, name: string) returns (actions: seq<Action>)
    requires Open(s) && p in s.procs && s.procs[p] == Working(WGate)
    ensures NoneSucceed(actions)
    ensures Uploading(s, actions, Go(s, p, Working(WReceive)), name, 0)
  {
    hide Uploading;
    var s1 := Go(s, p, Working(WWait(s.gates.current)));
    actions := [Advance(p)];
    Begin(s, Advance(p), s1, name);
    GoTwice(s, p, Working(WWait(s.gates.current)), Working(WReceive));
    actions := Step(s, actions, s1, p, Go(s, p, Working(WReceive)), name, 0);
  }

  lemma Hire(s: State, p: nat, name: string) returns (actions: seq<Action>)
    requires Open(s) && p !in s.procs
    ensures NoneSucceed(actions)
    ensures Uploading(s, actions, Go(s, p, Working(WReceive)), name, 0)
  {
    hide Uploading;
    var s1 := Go(s, p, Working(WGate));
    Begin(s, Spawn(p, Working(WGate)), s1, name);
    var more := Stand(s1, p, name);
    GoTwice(s, p, Working(WGate), Working(WReceive));
    Join(s, [Spawn(p, Working(WGate))], s1, more, Go(s, p, Working(WReceive)), name, 0, 0);
    actions := [Spawn(p, Working(WGate))] + more;
  }

  function Pushed(s: State, p: nat, img: Image, loop: bool): State {
    Go(s.(pushCh := s.pushCh + [img], inChannel := s.inChannel + {img.url}), p, Pushing(QReserve([], loop)))
  }

  /** A producer with one image left puts it into the channel. */
  lemma PushOne(s: State, p: nat, img: Image, loop: bool) returns (actions: seq<Action>)
    requires p in s.procs && s.procs[p] == Pushing(QReserve([img], loop))
    requires img.url !in s.inChannel && |s.pushCh| < CAPACITY
    ensures NoneSucceed(actions)
    ensures Uploading(s, actions, Pushed(s, p, img, loop), img.filename, 0)
  {
    hide Uploading;
    assert [img][1..] == [];
    var reserved := s.(inChannel := s.inChannel + {img.url});
    var s1 := Go(reserved, p, Pushing(QPush(img, [], loop)));
    actions := [Advance(p)];
    Begin(s, Advance(p), s1, img.filename);
    GoTwice(reserved, p, Pushing(QPush(img, [], loop)), Pushing(QReserve([], loop)));
    actions := Step(s, actions, s1, p, Pushed(s, p, img, loop), img.filename, 0);
  }

  /** A call of Queue with one image. */
  lemma CallQueue(s: State, p: nat, img: Image) returns (actions: seq<Action>)
    requires Open(s) && p !in s.procs && img.url !in s.inChannel && |s.pushCh| < CAPACITY
    ensures NoneSucceed(actions)
    ensures Uploading(s, actions, Pushed(s, p, img, false), img.filename, 0)
  {
    hide Uploading;
    var name := img.filename;
    var s1, s2 := Go(s, p, Pushing(QIsPaused([img]))), Go(s, p, Pushing(QReserve([img], false)));
    Begin(s, Spawn(p, Pushing(QIsPaused([img]))), s1, name);
    GoTwice(s, p, Pushing(QIsPaused([img])), Pushing(QReserve([img], false)));
    actions := Step(s, [Spawn(p, Pushing(QIsPaused([img])))], s1, p, s2, name, 0);
    var more := PushOne(s2, p, img, false);
    GoTwice(s.(pushCh := s.pushCh + [img], inChannel := s.inChannel + {img.url}), p,
            Pushing(QReserve([img], false)), Pushing(QReserve([], false)));
    Join(s, actions, s2, more, Pushed(s, p, img, false), name, 0, 0);
    actions := actions + more;
  }

  /** The scheduler lists what it is about to push. */
  lemma List(s: State, p: nat, name: string) returns (actions: seq<Action>)
    requires Open(s) && p !in s.procs
    ensures var rows := s.table.rows;
            Uploading(s, actions,
                      Go(s, p, Pushing(QReserve(ImagesOf(rows, false, s.now) + ImagesOf(rows, true, s.now), true))),
                      name, 0)
  {
    hide Uploading, ImagesOf;
    var found := ImagesOf(s.table.rows, false, s.now);
    var s1, s2 := Go(s, p, Pushing(SGate)), Go(s, p, Pushing(SWait(s.gates.current)));
    var s3, s4 := Go(s, p, Pushing(SListFresh)), Go(s, p, Pushing(SListReady(found)));
    var s5 := Go(s, p, Pushing(QReserve(found + ImagesOf(s.table.rows, true, s.now), true)));
    Begin(s, Spawn(p, Pushing(SGate)), s1, name);
    GoTwice(s, p, Pushing(SGate), s2.procs[p]);
    actions := Step(s, [Spawn(p, Pushing(SGate))], s1, p, s2, name, 0);
    GoTwice(s, p, s2.procs[p], Pushing(SListFresh));
    actions := Step(s, actions, s2, p, s3, name, 0);
    GoTwice(s, p, Pushing(SListFresh), Pushing(SListReady(found)));
    actions := Step(s, actions, s3, p, s4, name, 0);
    GoTwice(s, p, Pushing(SListReady(found)), s5.procs[p]);
    actions := Step(s, actions, s4, p, s5, name, 0);
  }

  /** With the image in the channel and a scheduler still holding it in its list, the
      image is uploaded, pushed again and uploaded again. */
  lemma Again(s: State, p: nat, q: nat, img: Image) returns (actions: seq<Action>, t: State)
    requires Open(s) && s.pushCh == [img] && p != q && {p, q} <= s.procs.Keys
    requires s.procs[p] == Working(WReceive) && s.procs[q] == Pushing(QReserve([img], true))
    ensures Uploading(s, actions, t, img.filename, 2)
  {
    hide Uploading, Apply;
    var s1 := Uploaded(s, p, img);
    var xs := Round(s, p, img);
    var ys := PushOne(s1, q, img, true);
    var s2 := Pushed(s1, q, img, true);
    var zs := Stand(s2, p, img.filename);
    var s3 := Go(s2, p, Working(WReceive));
    var ws := Round(s3, p, img);
    t := Uploaded(s3, p, img);
    Join(s, xs, s1, ys, s2, img.filename, 1, 0);
    Join(s, xs + ys, s2, zs, s3, img.filename, 1, 0);
    Join(s, xs + ys + zs, s3, ws, t, img.filename, 1, 1);
    actions := xs + ys + zs + ws;
  }

  /** Not exactly once: from a fresh pipeline with one queued image there is a run that
      uploads it twice. The scheduler takes its list, a Queue call puts the image into
      the channel, a worker takes it (which clears inChannel) and uploads it, and the
      scheduler, going through its old list, puts it into the channel again, where no
      one looks at its status any more. */
  lemma UploadedTwice(s: State, row: Row) returns (actions: seq<Action>, t: State)
    requires IsInitial(s) && !s.cancelled && s.table.rows == [row] && IsFresh(row)
    ensures Leads(s, actions, t) && UploadsOf(s, actions, row.filename) == 2
  {
    hide Uploading;
    var img := Image(row.filename, row.url);
    ListOfOne(row, s.now);
    var xs := List(s, 0, img.filename);
    var s1 := Go(s, 0, Pushing(QReserve([img], true)));
    var ys := CallQueue(s1, 1, img);
    var s2 := Pushed(s1, 1, img, false);
    var zs := Hire(s2, 2, img.filename);
    var s3 := Go(s2, 2, Working(WReceive));
    var ws;
    ws, t := Again(s3, 2, 0, img);
    Join(s, xs, s1, ys, s2, img.filename, 0, 0);
    Join(s, xs + ys, s2, zs, s3, img.filename, 0, 0);
    Join(s, xs + ys + zs, s3, ws, t, img.filename, 0, 2);
    actions := xs + ys + zs + ws;
    UploadingIsRun(s, actions, t, row.filename, 2);
    UploadingCounts(s, actions, t, row.filename, 2);
  }

  lemma ListOfOne(row: Row, now: int)
    requires IsFresh(row)
    ensures ImagesOf([row], false, now) + ImagesOf([row], true, now) == [Image(row.filename, row.url)]
  {
    assert [row][1..] == [];
  }

  // ---- The run that strands an upload ----

  /** From a fresh pipeline with one queued image there is a run that leaves the image
      uploading with no worker uploading it: it is queued, taken and transferred, and
      before the worker records that it is done the camera shows the file under a new
      URL, so that the worker's write finds no row. */
  lemma UploadStranded(s: State, row: Row, url: string) returns (actions: seq<Action>, t: State)
    requires IsInitial(s) && !s.cancelled && s.table.rows == [row] && IsFresh(row) && url != row.url
    ensures Leads(s, actions, t) && |t.table.rows| == 1
    ensures t.table.rows[0].status == Status.Uploading && !Flying(t.procs, t.table.rows[0].url)
  {
    hide Leads, Uploading, Flying, Inv, Apply;
    assert Inv(s) by { InitialInv(s); }
    var img := Image(row.filename, row.url);
    var xs, u := Transferred(s, img);
    UploadingIsRun(s, xs, u, img.filename, 1);
    LeadsKeepsInv(s, xs, u);
    var after := Changed(SetStatus(img.url, Status.Uploading, ""), row);
    assert u.table.rows == [after] by { assert Selects(SetStatus(img.url, Status.Uploading, ""), row); }
    assert !Flying(u.procs, url) by { OneFlies(u, img, url); }
    var ys;
    ys, t := StrandedByRename(u, 3, 2, 0, url);
    Concatenated(s, xs, u, ys, t);
    actions := xs + ys;
  }

  lemma InitialInv(s: State)
    requires IsInitial(s)
    ensures Inv(s)
  {
  }

  lemma LeadsKeepsInv(s: State, actions: seq<Action>, t: State)
    requires Inv(s) && Leads(s, actions, t)
    ensures Inv(t)
  {
    hide Inv;
    RunKeepsInv(s, actions);
  }

  /** A Queue call and one worker, up to the moment before success is recorded. */
  lemma Transferred(s: State, img: Image) returns (actions: seq<Action>, t: State)
    requires Open(s) && s.procs == map[] && s.pushCh == [] && s.inChannel == {}
    ensures Uploading(s, actions, t, img.filename, 1)
    ensures forall name :: name != img.filename ==> Uploading(s, actions, t, name, 0)
    ensures t.procs.Keys == {1, 2} && t.procs[2] == Working(WSetDone(img)) && t.procs[1].Pushing?
    ensures t.table == Sql(s, SetStatus(img.url, Status.Uploading, "")).table
  {
    hide Uploading, Apply, Leads;
    var xs := CallQueue(s, 1, img);
    var s1 := Pushed(s, 1, img, false);
    var ys := Hire(s1, 2, img.filename);
    var s2 := Go(s1, 2, Working(WReceive));
    var zs := Take(s2, 2, img);
    var s3 := Go(s2.(pushCh := [], inChannel := s2.inChannel - {img.url}), 2, Working(WRegate(img)));
    var ws := WaitForGate(s3, 2, img);
    var s4 := Go(s3, 2, Working(WSetUploading(img)));
    var vs, s5 := Depart(s4, 2, img);
    Succeeds(s5, 2, img);
    t := Go(s5, 2, Working(WSetDone(img)));
    Join(s, xs, s1, ys, s2, img.filename, 0, 0);
    Join(s, xs + ys, s2, zs, s3, img.filename, 0, 0);
    Join(s, xs + ys + zs, s3, ws, s4, img.filename, 0, 0);
    Join(s, xs + ys + zs + ws, s4, vs, s5, img.filename, 0, 0);
    Join(s, xs + ys + zs + ws + vs, s5, [Succeed(2)], t, img.filename, 0, 1);
    actions := xs + ys + zs + ws + vs + [Succeed(2)];
    UploadingIsRun(s, xs + ys + zs + ws + vs, s5, img.filename, 0);
    forall name | name != img.filename
      ensures Uploading(s, actions, t, name, 0)
    {
      QuietRun(s, xs + ys + zs + ws + vs, s5, name);
      SucceedsForOthers(s5, 2, img, name);
      Join(s, xs + ys + zs + ws + vs, s5, [Succeed(2)], t, name, 0, 0);
    }
  }

  lemma SucceedsForOthers(s: State, p: nat, img: Image, name: string)
    requires InTransfer(s, p) && s.procs[p].w.img == img && name != img.filename
    ensures Uploading(s, [Succeed(p)], Go(s, p, Working(WSetDone(img))), name, 0)
  {
    assert [Succeed(p)][1..] == [];
  }

  lemma OneFlies(t: State, img: Image, url: string)
    requires t.procs.Keys == {1, 2} && t.procs[2] == Working(WSetDone(img)) && t.procs[1].Pushing? && url != img.url
    ensures !Flying(t.procs, url)
  {
  }
}
