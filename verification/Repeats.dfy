/** When a finished image can be uploaded once more: exactly when something in the
    pipeline still carries it, under its URL or under its file name. */
module Repeats {
  import opened Bytes
  import opened ImageTable
  import opened Gate
  import opened Pipeline
  import opened Tokens
  import opened Uploads
  import opened ExactlyOnce

  // ---- What carries an image ----

  /** The image has the key. */
  predicate Bears(img: Image, k: Key) {
    match k
    case Url(url) => img.url == url
    case Filename(name) => img.filename == name
  }

  predicate Mentioned(imgs: seq<Image>, k: Key) {
    exists i :: 0 <= i < |imgs| && Bears(imgs[i], k)
  }

  /** A worker that has taken an image and not yet transferred it. */
  predicate HasTaken(w: Worker) {
    || w.WUnreserve? || w.WIsPaused? || w.WRegate? || w.WRewait?
    || w.WSetUploading? || w.WContext? || w.WLookup? || w.WTransfer?
  }

  /** The process can still put an image with the key into the channel or transfer one; or,
      for a URL, write its status, other than to record that it is done. The file is
      uploaded under the name an image has, and rows are written by URL. */
  predicate Carries(pc: Pc, k: Key) {
    match pc
    case Pushing(QIsPaused(imgs)) => Mentioned(imgs, k)
    case Pushing(QSetQueued(imgs)) => k.Url? && Mentioned(imgs, k)
    case Pushing(QReserve(imgs, _)) => Mentioned(imgs, k)
    case Pushing(QPush(img, rest, _)) => Bears(img, k) || Mentioned(rest, k)
    case Pushing(QUnreserve(_, rest, _)) => Mentioned(rest, k)
    case Pushing(SListReady(found)) => Mentioned(found, k)
    case Pushing(_) => false
    case Working(WGate) => false
    case Working(WWait(_)) => false
    case Working(WReceive) => false
    case Working(WSetDone(_)) => false
    case Working(w) => (k.Url? || HasTaken(w)) && Bears(w.img, k)
    case Doing(CUnreserve(img)) => k.Url? && Bears(img, k)
    case Doing(CSetDiscovered(img)) => k.Url? && Bears(img, k)
    case _ => false
  }

  ghost predicate Carried(s: State, k: Key) {
    Mentioned(s.pushCh, k) || exists p :: p in s.procs && Carries(s.procs[p], k)
  }

  /** Something carries the URL of the row, or its file under whatever URL. */
  ghost predicate RowCarried(s: State, row: Row) {
    Carried(s, Url(row.url)) || Carried(s, Filename(row.filename))
  }

  /** Row `i` is done and nothing carries its image. */
  ghost predicate Rested(s: State, i: nat) {
    i < |s.table.rows| && s.table.rows[i].status == Done && !RowCarried(s, s.table.rows[i])
  }

  /** The step calls Queue with the image, or rewrites the row for a sighting that has
      its file name under another URL, or its URL under another file name. */
  ghost predicate Disturbs(s: State, a: Action, i: nat)
    requires i < |s.table.rows|
  {
    match a
    case Spawn(_, pc) => Carries(pc, Url(s.table.rows[i].url)) || Carries(pc, Filename(s.table.rows[i].filename))
    case Advance(p) =>
      && p in s.procs && s.procs[p].Doing? && s.procs[p].o.AWrite?
      && var d := s.procs[p].o.decision;
      (d.Rebind? || d.Reuse?) && d.row.id == s.table.rows[i].id && !Collides(s.table, d)
    case _ => false
  }

  predicate SameKeys(r: Row, q: Row) {
    q.url == r.url && q.filename == r.filename
  }

  // ---- Nothing carries it: it stays as it is ----

  lemma {:induction false} NotListed(rows: seq<Row>, ready: bool, now: int, k: Key)
    requires forall r :: r in rows && Has(r, k) ==> r.status == Done
    ensures !Mentioned(ImagesOf(rows, ready, now), k)
  {
    if rows != [] {
      NotListed(rows[1..], ready, now, k);
    }
  }

  lemma OnlyRow(s: State, i: nat, k: Key)
    requires TableInv(s.table) && i < |s.table.rows| && s.table.rows[i].status == Done && Has(s.table.rows[i], k)
    ensures forall r :: r in s.table.rows && Has(r, k) ==> r.status == Done
  {
  }

  /** A producer goes on with what it has, or with what the table lists. */
  lemma ProduceCarries(s: State, p: nat, q: Producer, k: Key)
    requires !Carries(Pushing(q), k) && !Mentioned(s.pushCh, k)
    requires !Mentioned(ImagesOf(s.table.rows, false, s.now), k) && !Mentioned(ImagesOf(s.table.rows, true, s.now), k)
    ensures var t := Produce(s, p, q);
            && p in t.procs && !Carries(t.procs[p], k) && !Mentioned(t.pushCh, k)
            && t.procs == s.procs[p := t.procs[p]]
  {
    hide ImagesOf, Apply, Bears;
  }

  lemma ProduceKeepsDone(s: State, p: nat, q: Producer, i: nat)
    requires i < |s.table.rows| && s.table.rows[i].status == Done && !Carries(Pushing(q), Url(s.table.rows[i].url))
    ensures Produce(s, p, q).table.rows[i].status == Done && SameKeys(s.table.rows[i], Produce(s, p, q).table.rows[i])
  {
    hide ImagesOf;
  }

  lemma WorkCarries(s: State, p: nat, w: Worker, k: Key)
    requires !Carries(Working(w), k) && !Mentioned(s.pushCh, k) && CanAdvance(s, Working(w))
    ensures var t := Work(s, p, w);
            && p in t.procs && !Carries(t.procs[p], k) && !Mentioned(t.pushCh, k)
            && t.procs == s.procs[p := t.procs[p]]
  {
    hide RetriesOf, RetryBackoff, Apply, IsClosed, Bears;
  }

  lemma SqlKeepsDone(rows: seq<Row>, c: Change, i: nat)
    requires i < |rows| && rows[i].status == Done
    requires if c.SetStatus? then c.url != rows[i].url || c.status == Done
                else c.SetRetryQueued? && c.url != rows[i].url
    ensures Apply(rows, c)[i].status == Done && SameKeys(rows[i], Apply(rows, c)[i])
  {
  }

  lemma WorkKeepsDone(s: State, p: nat, w: Worker, i: nat)
    requires i < |s.table.rows| && s.table.rows[i].status == Done && !Carries(Working(w), Url(s.table.rows[i].url))
    requires CanAdvance(s, Working(w))
    ensures Work(s, p, w).table.rows[i].status == Done && SameKeys(s.table.rows[i], Work(s, p, w).table.rows[i])
  {
    hide RetriesOf, RetryBackoff, IsClosed, Apply;
    var rows := s.table.rows;
    match w {
      case WSetPaused(img) => SqlKeepsDone(rows, SetStatus(img.url, Queued, "paused"), i);
      case WSetCancelled(img) => SqlKeepsDone(rows, SetStatus(img.url, Queued, "context cancelled"), i);
      case WSetUploading(img) => SqlKeepsDone(rows, SetStatus(img.url, Status.Uploading, ""), i);
      case WSetAborted(img) => SqlKeepsDone(rows, SetStatus(img.url, Queued, "context cancelled"), i);
      case WSetRetry(img, attempt, at) =>
        SqlKeepsDone(rows, SetRetryQueued(img.url, attempt, at, "transfer failed"), i);
      case WSetFailed(img) => SqlKeepsDone(rows, SetStatus(img.url, Failed, "transfer failed"), i);
      case WSetDone(img) => SqlKeepsDone(rows, SetStatus(img.url, Done, ""), i);
      case _ =>
    }
  }

  lemma DoCarries(s: State, p: nat, o: Other, k: Key)
    requires !Carries(Doing(o), k) && !Mentioned(s.pushCh, k)
    ensures var t := Do(s, p, o);
            && p in t.procs && !Carries(t.procs[p], k) && !Mentioned(t.pushCh, k)
            && t.procs == s.procs[p := t.procs[p]]
  {
    hide Apply, Decide, Write, Bears;
  }

  lemma DoKeepsDone(s: State, p: nat, o: Other, i: nat)
    requires i < |s.table.rows| && s.table.rows[i].status == Done && !Carries(Doing(o), Url(s.table.rows[i].url))
    requires p in s.procs && s.procs[p] == Doing(o) && !Disturbs(s, Advance(p), i)
    ensures var t := Do(s, p, o);
            && i < |t.table.rows| && t.table.rows[i].status == Done
            && SameKeys(s.table.rows[i], t.table.rows[i])
  {
    hide Decide, Collides;
  }

  /** One process has moved to a place where it does not carry the key. */
  lemma StillUncarried(s: State, t: State, p: nat, k: Key)
    requires !Carried(s, k) && !Mentioned(t.pushCh, k)
    requires p in t.procs && t.procs == s.procs[p := t.procs[p]] && !Carries(t.procs[p], k)
    ensures !Carried(t, k)
  {
    hide Carries, Mentioned;
  }

  lemma AdvanceUncarried(s: State, p: nat, i: nat, k: Key)
    requires Inv(s) && Enabled(s, Advance(p)) && !Carried(s, k)
    requires i < |s.table.rows| && s.table.rows[i].status == Done && Has(s.table.rows[i], k)
    ensures !Carried(Next(s, Advance(p)), k)
  {
    hide Produce, Work, Do, TableInv, RetryRows, PcInv, Mentioned, Carries, ImagesOf, Has;
    match s.procs[p] {
      case Pushing(q) =>
        OnlyRow(s, i, k);
        NotListed(s.table.rows, false, s.now, k);
        NotListed(s.table.rows, true, s.now, k);
        ProduceCarries(s, p, q, k);
      case Working(w) => WorkCarries(s, p, w, k);
      case Doing(o) => DoCarries(s, p, o, k);
    }
    StillUncarried(s, Next(s, Advance(p)), p, k);
  }

  lemma AdvanceRests(s: State, p: nat, i: nat)
    requires Inv(s) && Enabled(s, Advance(p)) && Rested(s, i) && !Disturbs(s, Advance(p), i)
    ensures Rested(Next(s, Advance(p)), i) && SameKeys(s.table.rows[i], Next(s, Advance(p)).table.rows[i])
  {
    hide Produce, Work, Do, Inv, Mentioned, Carries, Disturbs;
    var row := s.table.rows[i];
    match s.procs[p] {
      case Pushing(q) => ProduceKeepsDone(s, p, q, i);
      case Working(w) => WorkKeepsDone(s, p, w, i);
      case Doing(o) => DoKeepsDone(s, p, o, i);
    }
    AdvanceUncarried(s, p, i, Url(row.url));
    AdvanceUncarried(s, p, i, Filename(row.filename));
  }

  /** The steps that move one process and leave table and channel alone. */
  lemma MoveRests(s: State, t: State, p: nat, i: nat)
    requires Rested(s, i) && t.table == s.table && t.pushCh == s.pushCh
    requires p in t.procs && t.procs == s.procs[p := t.procs[p]]
    requires !Carries(t.procs[p], Url(s.table.rows[i].url)) && !Carries(t.procs[p], Filename(s.table.rows[i].filename))
    ensures Rested(t, i)
  {
    hide Carries, Mentioned, Carried;
    StillUncarried(s, t, p, Url(s.table.rows[i].url)) by { RestedMeans(s, i); }
    StillUncarried(s, t, p, Filename(s.table.rows[i].filename)) by { RestedMeans(s, i); }
  }

  lemma RestedMeans(s: State, i: nat)
    requires Rested(s, i)
    ensures !Carried(s, Url(s.table.rows[i].url)) && !Carried(s, Filename(s.table.rows[i].filename))
    ensures !Mentioned(s.pushCh, Url(s.table.rows[i].url)) && !Mentioned(s.pushCh, Filename(s.table.rows[i].filename))
    ensures forall p :: p in s.procs ==>
              !Carries(s.procs[p], Url(s.table.rows[i].url)) && !Carries(s.procs[p], Filename(s.table.rows[i].filename))
  {
    hide Carries, Mentioned;
  }

  lemma StepRests(s: State, a: Action, i: nat)
    requires Inv(s) && Enabled(s, a) && Rested(s, i) && !Disturbs(s, a, i)
    ensures Rested(Next(s, a), i) && SameKeys(s.table.rows[i], Next(s, a).table.rows[i])
    ensures UploadsAt(s, a, s.table.rows[i].filename) == 0
  {
    hide Advanced, Inv, Mentioned, Rested;
    RestedMeans(s, i);
    assert i < |s.table.rows| && s.table.rows[i].status == Done by { RestedRow(s, i); }
    match a {
      case Advance(p) => AdvanceRests(s, p, i);
      case Spawn(p, pc) => MoveRests(s, Next(s, a), p, i);
      case Fail(p) => MoveRests(s, Next(s, a), p, i);
      case Succeed(p) => MoveRests(s, Next(s, a), p, i);
      case Stop(p) => MoveRests(s, Next(s, a), p, i);
      case _ => OthersRest(s, Next(s, a), i);
    }
  }

  lemma RestedRow(s: State, i: nat)
    requires Rested(s, i)
    ensures i < |s.table.rows| && s.table.rows[i].status == Done
  {
  }

  lemma OthersRest(s: State, t: State, i: nat)
    requires Rested(s, i) && t.pushCh == s.pushCh && t.procs == s.procs
    requires i < |t.table.rows| && t.table.rows[i] == s.table.rows[i]
    ensures Rested(t, i)
  {
    hide Mentioned, Carries;
  }

  ghost predicate LeftAlone(s: State, actions: seq<Action>, i: nat)
    requires IsRun(s, actions)
    decreases |actions|
  {
    actions == [] ||
    (i < |s.table.rows| && !Disturbs(s, actions[0], i) && LeftAlone(Next(s, actions[0]), actions[1..], i))
  }

  /** Once an image is done and nothing carries it, it stays done and no upload of the file
      completes, in every interleaving of everything else, until Queue is called with it
      or the camera reuses its URL or its file name. */
  lemma {:induction false} NeverAgain(s: State, actions: seq<Action>, i: nat)
    requires Inv(s) && Rested(s, i) && IsRun(s, actions) && LeftAlone(s, actions, i)
    ensures Rested(After(s, actions), i) && UploadsOf(s, actions, s.table.rows[i].filename) == 0
    decreases |actions|
  {
    hide Inv, Next, Enabled, Disturbs, UploadsAt;
    if actions != [] {
      StepKeepsInv(s, actions[0]);
      StepRests(s, actions[0], i);
      NeverAgain(Next(s, actions[0]), actions[1..], i);
    }
  }

  // ---- Runs that complete an upload ----

  /** The actions leave the row alone and the last of them completes an upload of its file. */
  ghost predicate Repeats(s: State, actions: seq<Action>, i: nat)
    decreases |actions|
  {
    && actions != [] && i < |s.table.rows| && Enabled(s, actions[0]) && !Disturbs(s, actions[0], i)
    && if |actions| == 1 then UploadsAt(s, actions[0], s.table.rows[i].filename) == 1
       else Repeats(Next(s, actions[0]), actions[1..], i)
  }

  ghost predicate CanRepeat(s: State, i: nat) {
    exists actions :: Repeats(s, actions, i)
  }

  lemma {:induction false} RestedCannot(s: State, actions: seq<Action>, i: nat)
    requires Inv(s) && Rested(s, i)
    ensures !Repeats(s, actions, i)
    decreases |actions|
  {
    hide Inv, Next, Enabled, Disturbs, UploadsAt, Rested;
    if actions != [] && i < |s.table.rows| && Enabled(s, actions[0]) && !Disturbs(s, actions[0], i) {
      StepKeepsInv(s, actions[0]);
      StepRests(s, actions[0], i);
      RestedCannot(Next(s, actions[0]), actions[1..], i);
    }
  }

  lemma Before(s: State, a: Action, i: nat)
    requires i < |s.table.rows| && Enabled(s, a) && !Disturbs(s, a, i) && CanRepeat(Next(s, a), i)
    ensures CanRepeat(s, i)
  {
    hide Enabled, Disturbs, Next, UploadsAt;
    var actions :| Repeats(Next(s, a), actions, i);
    assert ([a] + actions)[1..] == actions;
    assert Repeats(s, [a] + actions, i);
  }

  // ---- Running on ----

  /** What running on from a state of the pipeline that is neither paused nor cancelled
      can rely on. */
  ghost predicate Good(s: State, i: nat) {
    && Inv(s) && TokenInv(s) && Waits(s) && i < |s.table.rows|
    && !s.cancelled && !s.gates.paused
  }

  predicate Writes(pc: Pc) {
    pc.Doing? && pc.o.AWrite?
  }

  /** Steps that neither pause nor cancel nor touch a key. */
  ghost predicate Ordinary(s: State, a: Action) {
    match a
    case Spawn(p, pc) => pc == Working(WGate) || pc == Pushing(SGate)
    case Advance(p) => p in s.procs && !Writes(s.procs[p])
    case Fail(_) => true
    case Execute(_) => true
    case Tick(_) => true
    case _ => false
  }

  lemma OrdinaryKeepsKeys(s: State, a: Action, i: nat)
    requires Enabled(s, a) && Ordinary(s, a) && i < |s.table.rows|
    ensures var t := Next(s, a);
            && i < |t.table.rows| && SameKeys(s.table.rows[i], t.table.rows[i])
            && t.gates == s.gates && t.cancelled == s.cancelled && !Disturbs(s, a, i)
  {
    hide Produce, Work, Do;
    if a.Advance? {
      match s.procs[a.p] {
        case Pushing(q) => ProduceKeepsKeys(s, a.p, q, i);
        case Working(w) => WorkKeepsKeys(s, a.p, w, i);
        case Doing(o) => DoKeepsKeys(s, a.p, o, i);
      }
    }
  }

  lemma ProduceKeepsKeys(s: State, p: nat, q: Producer, i: nat)
    requires i < |s.table.rows|
    ensures var t := Produce(s, p, q);
            SameKeys(s.table.rows[i], t.table.rows[i]) && t.gates == s.gates && t.cancelled == s.cancelled
  {
    hide ImagesOf;
  }

  lemma WorkKeepsKeys(s: State, p: nat, w: Worker, i: nat)
    requires i < |s.table.rows| && CanAdvance(s, Working(w))
    ensures var t := Work(s, p, w);
            SameKeys(s.table.rows[i], t.table.rows[i]) && t.gates == s.gates && t.cancelled == s.cancelled
  {
    hide RetriesOf, RetryBackoff, IsClosed;
  }

  lemma DoKeepsKeys(s: State, p: nat, o: Other, i: nat)
    requires i < |s.table.rows| && !o.AWrite?
    ensures var t := Do(s, p, o);
            && i < |t.table.rows| && SameKeys(s.table.rows[i], t.table.rows[i])
            && t.gates == s.gates && t.cancelled == s.cancelled
  {
    hide Decide;
  }

  /** An ordinary step keeps what running on relies on, and what can be done after it can
      be done before it. */
  lemma Forward(s: State, a: Action, i: nat)
    requires Good(s, i) && Enabled(s, a) && Ordinary(s, a)
    ensures Good(Next(s, a), i) && SameKeys(s.table.rows[i], Next(s, a).table.rows[i])
    ensures CanRepeat(Next(s, a), i) ==> CanRepeat(s, i)
  {
    hide Inv, TokenInv, Waits, Enabled, Next, Ordinary, CanRepeat, Disturbs;
    OrdinaryKeepsKeys(s, a, i);
    StepKeepsInv(s, a);
    StepKeepsTokens(s, a);
    assert GatesInv(s.gates) by { InvGates(s); }
    StepKeepsWaits(s, a);
    if CanRepeat(Next(s, a), i) {
      Before(s, a, i);
    }
  }

  /** An advance of process `p`. */
  lemma Onward(s: State, p: nat, i: nat) returns (t: State)
    requires Good(s, i) && p in s.procs && CanAdvance(s, s.procs[p]) && !Writes(s.procs[p])
    ensures t == Advanced(s, p, s.procs[p])
    ensures Good(t, i) && SameKeys(s.table.rows[i], t.table.rows[i])
    ensures CanRepeat(t, i) ==> CanRepeat(s, i)
  {
    hide Good, Advanced, CanAdvance, CanRepeat;
    Forward(s, Advance(p), i);
    t := Next(s, Advance(p));
  }

  lemma {:induction false} Unused(ids: set<nat>) returns (n: nat)
    ensures forall m :: m in ids ==> m < n
    decreases |ids|
  {
    if ids == {} {
      n := 0;
    } else {
      var m :| m in ids;
      var k := Unused(ids - {m});
      n := if k > m then k else m + 1;
      forall j | j in ids
        ensures j < n
      {
        assert j != m ==> j in ids - {m};
      }
    }
  }

  lemma GateIsOpen(s: State, i: nat)
    requires Good(s, i)
    ensures IsClosed(s, s.gates.current)
    ensures forall g: nat :: g < |s.gates.closed| ==> IsClosed(s, g)
  {
    hide TokenInv, Waits, TableInv, RetryRows, PcInv;
  }

  /** A new worker takes the first image of the channel. */
  lemma TakeOne(s: State, i: nat) returns (q: nat, t: State)
    requires Good(s, i) && s.pushCh != []
    ensures q !in s.procs
    ensures t == Go(s.(pushCh := s.pushCh[1..]), q, Working(WUnreserve(s.pushCh[0])))
    ensures Good(t, i) && t.table == s.table
    ensures CanRepeat(t, i) ==> CanRepeat(s, i)
  {
    hide Good, CanRepeat, IsClosed;
    q := Unused(s.procs.Keys);
    Forward(s, Spawn(q, Working(WGate)), i) by { InRange(s, i); }
    var s1 := Next(s, Spawn(q, Working(WGate)));
    var s2 := Onward(s1, q, i);
    GateIsOpen(s2, i);
    var s3 := Onward(s2, q, i);
    t := Onward(s3, q, i);
    assert t.procs == s.procs[q := Working(WUnreserve(s.pushCh[0]))];
  }

  lemma InRange(s: State, i: nat)
    requires Good(s, i)
    ensures i < |s.table.rows|
  {
  }

  // ---- From where an upload follows ----

  /** The key of the row by which an image is followed: by its URL or by its file name. */
  function KeyOf(row: Row, byUrl: bool): Key {
    if byUrl then Url(row.url) else Filename(row.filename)
  }

  function StepsToGo(w: Worker): nat {
    match w
    case WUnreserve(_) => 7
    case WIsPaused(_) => 6
    case WRegate(_) => 5
    case WRewait(_, _) => 4
    case WSetUploading(_) => 3
    case WContext(_) => 2
    case WLookup(_) => 1
    case _ => 0
  }

  /** A worker that has taken an image of the file uploads it; one that has taken an image
      with the URL fails, and so writes the status of the row. */
  lemma {:induction false} FromTaken(s: State, p: nat, i: nat, byUrl: bool)
    requires Good(s, i) && p in s.procs && s.procs[p].Working? && HasTaken(s.procs[p].w)
    requires Bears(s.procs[p].w.img, KeyOf(s.table.rows[i], byUrl))
    ensures CanRepeat(s, i)
    decreases byUrl, 1, StepsToGo(s.procs[p].w)
  {
    hide Inv, TokenInv, Waits, Apply, RetriesOf, CanRepeat, CanAdvance;
    if s.procs[p].w.WTransfer? {
      if byUrl {
        Forward(s, Fail(p), i);
        FromVerdict(Next(s, Fail(p)), p, i);
      } else {
        Completes(s, p, i);
      }
    } else {
      MayGoOn(s, p, i);
      var t := Onward(s, p, i);
      FromTaken(t, p, i, byUrl);
    }
  }

  lemma MayGoOn(s: State, p: nat, i: nat)
    requires Good(s, i) && p in s.procs && s.procs[p].Working?
    requires HasTaken(s.procs[p].w) && !s.procs[p].w.WTransfer?
    ensures CanAdvance(s, s.procs[p])
  {
    hide Inv, TokenInv;
    GateIsOpen(s, i);
  }

  lemma Completes(s: State, p: nat, i: nat)
    requires i < |s.table.rows| && InTransfer(s, p) && s.procs[p].w.img.filename == s.table.rows[i].filename
    ensures CanRepeat(s, i)
  {
    assert Repeats(s, [Succeed(p)], i);
  }

  lemma {:induction false} FromSlot(s: State, k: nat, i: nat, byUrl: bool)
    requires Good(s, i) && k < |s.pushCh| && Bears(s.pushCh[k], KeyOf(s.table.rows[i], byUrl))
    ensures CanRepeat(s, i)
    decreases byUrl, 2, k
  {
    hide Good, CanRepeat, Bears;
    var q, t := TakeOne(s, i);
    if k == 0 {
      FromTaken(t, q, i, byUrl);
    } else {
      FromSlot(t, k - 1, i, byUrl);
    }
  }

  lemma FromPush(s: State, p: nat, i: nat, byUrl: bool)
    requires Good(s, i) && p in s.procs && s.procs[p].Pushing? && s.procs[p].q.QPush?
    requires Bears(s.procs[p].q.img, KeyOf(s.table.rows[i], byUrl))
    ensures CanRepeat(s, i)
    decreases byUrl, 3, 0
  {
    hide Good, CanRepeat, Bears;
    InRange(s, i);
    if |s.pushCh| < CAPACITY {
      var t := Onward(s, p, i);
      FromSlot(t, |s.pushCh|, i, byUrl) by { SameKey(s.table.rows[i], t.table.rows[i], byUrl); }
    } else {
      var q, t := TakeOne(s, i);
      assert |t.pushCh| < CAPACITY by { ChannelBound(s, i); }
      var u := Onward(t, p, i);
      FromSlot(u, |t.pushCh|, i, byUrl) by { SameKey(t.table.rows[i], u.table.rows[i], byUrl); }
    }
  }

  lemma SameKey(r: Row, q: Row, byUrl: bool)
    requires SameKeys(r, q)
    ensures KeyOf(q, byUrl) == KeyOf(r, byUrl)
  {
  }

  lemma ChannelBound(s: State, i: nat)
    requires Good(s, i)
    ensures |s.pushCh| <= CAPACITY
  {
  }

  // ---- Making way in the channel ----

  ghost predicate SlotUrl(s: State, url: string) {
    exists k :: 0 <= k < |s.pushCh| && s.pushCh[k].url == url
  }

  /** A URL that is in inChannel is in a slot, or a process holds it. */
  lemma InChannelMeans(s: State, i: nat, url: string) returns (p: nat)
    requires Good(s, i) && url in s.inChannel && !SlotUrl(s, url)
    ensures p in s.procs && Holds(s.procs[p]) == Some(url)
  {
    hide Inv, Waits;
    assert !InSlots(s.pushCh, url);
    assert IsHeld(Holdings(s.procs), url);
    p :| p in Holdings(s.procs) && Holdings(s.procs)[p] == url;
  }

  /** The state after others have made way for process `p`: the URL is free. */
  ghost predicate MadeWay(s: State, t: State, p: nat, i: nat, url: string) {
    && Good(s, i) && Good(t, i) && SameKeys(s.table.rows[i], t.table.rows[i])
    && p in s.procs && p in t.procs && t.procs[p] == s.procs[p]
    && url !in t.inChannel
    && (CanRepeat(t, i) ==> CanRepeat(s, i))
  }

  /** New workers take the images up to the one with the URL. */
  lemma {:induction false} DrainSlot(s: State, k: nat, p: nat, i: nat, url: string) returns (t: State)
    requires Good(s, i) && p in s.procs && k < |s.pushCh| && s.pushCh[k].url == url
    ensures MadeWay(s, t, p, i, url)
    decreases k
  {
    hide Good, CanRepeat;
    InRange(s, i);
    var q, u := TakeOne(s, i);
    if k == 0 {
      t := Onward(u, q, i);
    } else {
      t := DrainSlot(u, k - 1, p, i, url);
    }
  }

  lemma MakeWay(s: State, p: nat, i: nat, url: string) returns (t: State)
    requires Good(s, i) && url in s.inChannel && p in s.procs && Holds(s.procs[p]) == None
    ensures MadeWay(s, t, p, i, url)
  {
    hide Good, CanRepeat;
    InRange(s, i);
    if SlotUrl(s, url) {
      var k :| 0 <= k < |s.pushCh| && s.pushCh[k].url == url;
      t := DrainSlot(s, k, p, i, url);
    } else {
      var q := InChannelMeans(s, i, url);
      t := Onward(s, q, i);
      match s.procs[q] {
        case Pushing(QPush(_, _, _)) =>
          if t.procs[q].q.QUnreserve? {
            t := Onward(t, q, i);
          } else {
            t := DrainSlot(t, |s.pushCh|, p, i, url);
          }
        case _ =>
      }
    }
  }

  /** A producer goes past an image at the head of its list. */
  lemma SkipHead(s: State, p: nat, i: nat) returns (t: State)
    requires Good(s, i) && p in s.procs && s.procs[p].Pushing? && s.procs[p].q.QReserve? && s.procs[p].q.imgs != []
    ensures Good(t, i) && t.table == s.table && p in t.procs
    ensures t.procs[p] == Pushing(QReserve(s.procs[p].q.imgs[1..], s.procs[p].q.loop))
    ensures CanRepeat(t, i) ==> CanRepeat(s, i)
  {
    hide Good, CanRepeat;
    t := Onward(s, p, i);
    if s.procs[p].q.imgs[0].url !in s.inChannel {
      t := Onward(t, p, i);
      if t.procs[p].q.QUnreserve? {
        t := Onward(t, p, i);
      }
    }
  }

  /** A producer whose next image has the key. */
  lemma FromNext(s: State, p: nat, i: nat, byUrl: bool)
    requires Good(s, i) && p in s.procs && s.procs[p].Pushing? && s.procs[p].q.QReserve? && s.procs[p].q.imgs != []
    requires Bears(s.procs[p].q.imgs[0], KeyOf(s.table.rows[i], byUrl))
    ensures CanRepeat(s, i)
    decreases byUrl, 4, 0
  {
    hide Good, CanRepeat, Bears;
    InRange(s, i);
    var u := s;
    if s.procs[p].q.imgs[0].url in s.inChannel {
      u := MakeWay(s, p, i, s.procs[p].q.imgs[0].url);
      InRange(u, i);
      SameKey(s.table.rows[i], u.table.rows[i], byUrl);
    }
    var t := Onward(u, p, i);
    SameKey(u.table.rows[i], t.table.rows[i], byUrl);
    FromPush(t, p, i, byUrl);
  }

  /** A producer whose list mentions the key. */
  lemma {:induction false} FromReserve(s: State, p: nat, i: nat, byUrl: bool)
    requires Good(s, i) && p in s.procs && s.procs[p].Pushing? && s.procs[p].q.QReserve?
    requires Mentioned(s.procs[p].q.imgs, KeyOf(s.table.rows[i], byUrl))
    ensures CanRepeat(s, i)
    decreases byUrl, 5, |s.procs[p].q.imgs|
  {
    hide Good, CanRepeat, Mentioned, Bears;
    InRange(s, i);
    MentionedSplits(s.procs[p].q.imgs, KeyOf(s.table.rows[i], byUrl));
    if Bears(s.procs[p].q.imgs[0], KeyOf(s.table.rows[i], byUrl)) {
      FromNext(s, p, i, byUrl);
    } else {
      var t := SkipHead(s, p, i);
      FromReserve(t, p, i, byUrl);
    }
  }

  lemma MentionedSplits(imgs: seq<Image>, k: Key)
    requires Mentioned(imgs, k)
    ensures imgs != [] && (Bears(imgs[0], k) || Mentioned(imgs[1..], k))
  {
    hide Bears;
    if !Bears(imgs[0], k) {
      var j :| 0 <= j < |imgs| && Bears(imgs[j], k);
      assert imgs[1..][j - 1] == imgs[j];
    }
  }

  /** A new scheduler comes to its lists. */
  lemma Schedule(s: State, i: nat) returns (q: nat, t: State)
    requires Good(s, i)
    ensures Good(t, i) && t.table == s.table && t.now == s.now && q in t.procs && t.procs[q] == Pushing(SListFresh)
    ensures CanRepeat(t, i) ==> CanRepeat(s, i)
  {
    hide Good, CanRepeat, ImagesOf, IsClosed;
    q := Unused(s.procs.Keys);
    Forward(s, Spawn(q, Pushing(SGate)), i);
    var s1 := Next(s, Spawn(q, Pushing(SGate)));
    var s2 := Onward(s1, q, i);
    GateIsOpen(s2, i);
    t := Onward(s2, q, i);
  }

  lemma ListAll(s: State, i: nat) returns (q: nat, t: State)
    requires Good(s, i)
    ensures Good(t, i) && t.table == s.table && q in t.procs
    ensures t.procs[q]
         == Pushing(QReserve(ImagesOf(s.table.rows, false, s.now) + ImagesOf(s.table.rows, true, s.now), true))
    ensures CanRepeat(t, i) ==> CanRepeat(s, i)
  {
    hide Good, CanRepeat, ImagesOf;
    var u;
    q, u := Schedule(s, i);
    u := Onward(u, q, i);
    t := Onward(u, q, i);
  }

  /** Time passes until a retry is due. */
  lemma WaitFor(s: State, i: nat) returns (t: State)
    requires Good(s, i) && s.table.rows[i].status == Queued
    ensures Good(t, i) && t.table == s.table && (IsFresh(s.table.rows[i]) || IsReady(s.table.rows[i], t.now))
    ensures CanRepeat(t, i) ==> CanRepeat(s, i)
  {
    hide Good, CanRepeat;
    InRange(s, i);
    var row := s.table.rows[i];
    var wait := if row.nextRetryAt.Some? && row.nextRetryAt.value > s.now then row.nextRetryAt.value - s.now else 0;
    Forward(s, Tick(wait), i);
    t := Next(s, Tick(wait));
  }

  /** The row of the image is queued: the scheduler lists its file. */
  lemma FromQueued(s: State, i: nat)
    requires Good(s, i) && s.table.rows[i].status == Queued
    ensures CanRepeat(s, i)
    decreases false, 6, 0
  {
    hide Good, CanRepeat, ImagesOf, IsFresh, IsReady, Mentioned;
    InRange(s, i);
    var row, rows := s.table.rows[i], s.table.rows;
    var t := WaitFor(s, i);
    var q, u := ListAll(t, i);
    Listed(rows, !IsFresh(row), t.now, i);
    MentionedIn(ImagesOf(rows, false, t.now), ImagesOf(rows, true, t.now), Filename(row.filename));
    FromReserve(u, q, i, false);
  }

  lemma {:induction false} Listed(rows: seq<Row>, ready: bool, now: int, i: nat)
    requires i < |rows| && if ready then IsReady(rows[i], now) else IsFresh(rows[i])
    ensures Mentioned(ImagesOf(rows, ready, now), Filename(rows[i].filename))
  {
    var due := if ready then IsReady(rows[0], now) else IsFresh(rows[0]);
    var first := if due then [Image(rows[0].filename, rows[0].url)] else [];
    if i == 0 {
      assert Bears(ImagesOf(rows, ready, now)[0], Filename(rows[0].filename));
    } else {
      Listed(rows[1..], ready, now, i - 1);
      MentionedIn(first, ImagesOf(rows[1..], ready, now), Filename(rows[i].filename));
    }
  }

  lemma MentionedIn(a: seq<Image>, b: seq<Image>, k: Key)
    ensures Mentioned(a + b, k) <==> Mentioned(a, k) || Mentioned(b, k)
  {
    hide Bears;
    var c := a + b;
    if j :| 0 <= j < |a| && Bears(a[j], k) {
      assert Bears(c[j], k);
    }
    if j :| 0 <= j < |b| && Bears(b[j], k) {
      assert Bears(c[|a| + j], k);
    }
  }

  /** The row is discovered, failed or queued: it can be queued again from the web. */
  lemma FromRow(s: State, i: nat)
    requires Good(s, i)
    requires s.table.rows[i].status in {Queued, Discovered, Failed}
    ensures CanRepeat(s, i)
    decreases false, 7, 0
  {
    hide Good, CanRepeat;
    InRange(s, i);
    if s.table.rows[i].status == Queued {
      FromQueued(s, i);
    } else {
      var c := if s.table.rows[i].status == Discovered then MarkAllDiscoveredQueued else ResetFailed;
      Forward(s, Execute(c), i);
      FromQueued(Next(s, Execute(c)), i);
    }
  }

  /** A worker that is about to write the status of the row, other than done. */
  lemma {:induction false} FromVerdict(s: State, p: nat, i: nat)
    requires Good(s, i) && p in s.procs && s.procs[p].Working? && !HasTaken(s.procs[p].w)
    requires Carries(s.procs[p], Url(s.table.rows[i].url))
    ensures CanRepeat(s, i)
    decreases false, 8, if s.procs[p].w.WHandleFailure? then 1 else 0
  {
    hide Good, CanRepeat, RetryBackoff, RetriesOf;
    InRange(s, i);
    var t := Onward(s, p, i);
    InRange(t, i);
    if s.procs[p].w.WHandleFailure? {
      FromVerdict(t, p, i);
    } else {
      FromRow(t, i);
    }
  }

  lemma FromWorker(s: State, p: nat, i: nat, byUrl: bool)
    requires Good(s, i) && p in s.procs && s.procs[p].Working? && Carries(s.procs[p], KeyOf(s.table.rows[i], byUrl))
    ensures CanRepeat(s, i)
  {
    hide Good, CanRepeat;
    InRange(s, i);
    if HasTaken(s.procs[p].w) {
      FromTaken(s, p, i, byUrl);
    } else {
      FromVerdict(s, p, i);
    }
  }

  /** A producer that carries the image. */
  lemma {:induction false} FromSetQueued(s: State, p: nat, i: nat)
    requires Good(s, i) && p in s.procs && s.procs[p].Pushing? && s.procs[p].q.QSetQueued?
    requires Mentioned(s.procs[p].q.imgs, Url(s.table.rows[i].url))
    ensures CanRepeat(s, i)
    decreases |s.procs[p].q.imgs|
  {
    hide Good, CanRepeat, Mentioned;
    InRange(s, i);
    MentionedSplits(s.procs[p].q.imgs, Url(s.table.rows[i].url));
    var t := Onward(s, p, i);
    InRange(t, i);
    if s.procs[p].q.imgs[0].url == s.table.rows[i].url {
      FromRow(t, i);
    } else {
      FromSetQueued(t, p, i);
    }
  }

  lemma FromProducer(s: State, p: nat, i: nat, byUrl: bool)
    requires Good(s, i) && p in s.procs && s.procs[p].Pushing? && Carries(s.procs[p], KeyOf(s.table.rows[i], byUrl))
    ensures CanRepeat(s, i)
  {
    hide Good, CanRepeat, Mentioned, ImagesOf, Bears;
    InRange(s, i);
    var k := KeyOf(s.table.rows[i], byUrl);
    match s.procs[p].q {
      case QReserve(imgs, loop) => FromReserve(s, p, i, byUrl);
      case QSetQueued(imgs) => FromSetQueued(s, p, i);
      case QIsPaused(imgs) =>
        var t := Onward(s, p, i);
        assert !s.gates.paused by { NotPaused(s, i); }
        FromReserve(t, p, i, byUrl);
      case SListReady(found) =>
        var t := Onward(s, p, i);
        MentionedIn(found, ImagesOf(s.table.rows, true, s.now), k);
        FromReserve(t, p, i, byUrl);
      case QUnreserve(img, rest, loop) =>
        var t := Onward(s, p, i);
        FromReserve(t, p, i, byUrl);
      case QPush(img, rest, loop) =>
        if Bears(img, k) {
          FromPush(s, p, i, byUrl);
        } else {
          var t := Onward(s, p, i);
          if t.procs[p].q.QUnreserve? {
            t := Onward(t, p, i);
          }
          FromReserve(t, p, i, byUrl);
        }
      case _ =>
    }
  }

  lemma NotPaused(s: State, i: nat)
    requires Good(s, i)
    ensures !s.gates.paused
  {
  }

  lemma FromOther(s: State, p: nat, i: nat, byUrl: bool)
    requires Good(s, i) && p in s.procs && s.procs[p].Doing? && Carries(s.procs[p], KeyOf(s.table.rows[i], byUrl))
    ensures CanRepeat(s, i)
  {
    hide Good, CanRepeat;
    InRange(s, i);
    var t := Onward(s, p, i);
    if s.procs[p].o.CUnreserve? {
      t := Onward(t, p, i);
    }
    InRange(t, i);
    FromRow(t, i);
  }

  // ---- Exactly when ----

  /** A state of the pipeline as runs reach it. */
  ghost predicate Reached(s: State) {
    Inv(s) && TokenInv(s) && Waits(s)
  }

  lemma CarriedCan(s: State, i: nat, byUrl: bool)
    requires Reached(s) && !s.cancelled && i < |s.table.rows| && Carried(s, KeyOf(s.table.rows[i], byUrl))
    ensures CanRepeat(s, i)
  {
    hide Inv, TokenInv, Waits, CanRepeat, Carries, Mentioned;
    if s.gates.paused {
      InvGates(s);
      StepKeepsInv(s, ResumeAll);
      StepKeepsTokens(s, ResumeAll);
      StepKeepsWaits(s, ResumeAll);
      OpenCarriedCan(Next(s, ResumeAll), i, byUrl);
      Before(s, ResumeAll, i);
    } else {
      OpenCarriedCan(s, i, byUrl);
    }
  }

  lemma OpenCarriedCan(s: State, i: nat, byUrl: bool)
    requires Good(s, i) && Carried(s, KeyOf(s.table.rows[i], byUrl))
    ensures CanRepeat(s, i)
  {
    hide Inv, TokenInv, Waits, CanRepeat, Carries, Bears;
    var key := KeyOf(s.table.rows[i], byUrl);
    if Mentioned(s.pushCh, key) {
      var k :| 0 <= k < |s.pushCh| && Bears(s.pushCh[k], key);
      FromSlot(s, k, i, byUrl);
    } else {
      var p :| p in s.procs && Carries(s.procs[p], key);
      ReturnedCarriesNothing(key);
      match s.procs[p] {
        case Pushing(_) => FromProducer(s, p, i, byUrl);
        case Working(_) => FromWorker(s, p, i, byUrl);
        case Doing(_) => FromOther(s, p, i, byUrl);
        case Returned =>
      }
    }
  }

  lemma ReturnedCarriesNothing(k: Key)
    ensures !Carries(Returned, k)
  {
  }

  /** The file of a finished row can be uploaded once more, by a run that leaves the row
      alone, exactly when a slot of the channel or a process still carries its URL or,
      under whatever URL, its file. */
  lemma UploadedAgainIff(s: State, i: nat)
    requires Reached(s) && !s.cancelled && i < |s.table.rows| && s.table.rows[i].status == Done
    ensures CanRepeat(s, i) <==> RowCarried(s, s.table.rows[i])
  {
    hide Inv, TokenInv, Waits, Carried, Repeats;
    if Carried(s, Url(s.table.rows[i].url)) {
      CarriedCan(s, i, true);
    } else if Carried(s, Filename(s.table.rows[i].filename)) {
      CarriedCan(s, i, false);
    } else {
      forall actions
        ensures !Repeats(s, actions, i)
      {
        RestedCannot(s, actions, i);
      }
    }
  }

  lemma {:induction false} RunReaches(s: State, actions: seq<Action>)
    requires Reached(s) && IsRun(s, actions)
    ensures Reached(After(s, actions))
    decreases |actions|
  {
    hide Inv, TokenInv, Waits, Next, Enabled;
    if actions != [] {
      StepKeepsInv(s, actions[0]);
      StepKeepsTokens(s, actions[0]);
      InvGates(s);
      StepKeepsWaits(s, actions[0]);
      RunReaches(Next(s, actions[0]), actions[1..]);
    }
  }

  lemma InitialReached(s: State)
    requires IsInitial(s)
    ensures Reached(s)
  {
  }

  ghost predicate OthersCarry(s: State, p: nat, k: Key) {
    Mentioned(s.pushCh, k) || exists q :: q in s.procs && q != p && Carries(s.procs[q], k)
  }

  /** "Uploaded exactly once": when in any interleaving a worker records that the image of
      a row is done, its file is not uploaded again, in any run that goes on from there
      and leaves the row alone, exactly when no slot of the channel and no other process
      carries the URL or the file. */
  lemma LastUploadIff(s: State, actions: seq<Action>, p: nat, i: nat)
    requires IsInitial(s) && IsRun(s, actions)
    requires var t := After(s, actions);
             && !t.cancelled && i < |t.table.rows| && p in t.procs
             && t.procs[p].Working? && t.procs[p].w.WSetDone? && t.procs[p].w.img.url == t.table.rows[i].url
    ensures var t := After(s, actions);
            var row, u := t.table.rows[i], Next(t, Advance(p));
            && i < |u.table.rows| && u.table.rows[i].status == Done
            && (CanRepeat(u, i) <==> OthersCarry(t, p, Url(row.url)) || OthersCarry(t, p, Filename(row.filename)))
  {
    hide IsInitial, IsRun, After, Inv, TokenInv, Waits, CanRepeat, Carried, OthersCarry;
    InitialReached(s);
    RunReaches(s, actions);
    var t := After(s, actions);
    var u := Next(t, Advance(p));
    StepKeepsInv(t, Advance(p));
    StepKeepsTokens(t, Advance(p));
    InvGates(t);
    StepKeepsWaits(t, Advance(p));
    UploadedAgainIff(u, i);
    RecordedCarries(t, p, Url(t.table.rows[i].url));
    RecordedCarries(t, p, Filename(t.table.rows[i].filename));
  }

  lemma RecordedCarries(t: State, p: nat, k: Key)
    requires p in t.procs && t.procs[p].Working? && t.procs[p].w.WSetDone?
    ensures Carried(Work(t, p, t.procs[p].w), k) <==> OthersCarry(t, p, k)
  {
    hide Apply, Mentioned;
    var u := Work(t, p, t.procs[p].w);
    assert u.procs == t.procs[p := Working(WGate)] && !Carries(u.procs[p], k);
    assert forall q :: q in t.procs && q != p ==> u.procs[q] == t.procs[q];
  }
}
