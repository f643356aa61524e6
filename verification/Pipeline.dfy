/** The upload pipeline of internal/pipeline/pipeline.go as a machine whose steps are the
    source's atomic actions: one map or channel operation, one SQL statement, one use of
    the pause gate. Any number of producers, schedulers, workers and ClearQueue calls
    interleave freely. */
module Pipeline {
  import opened ImageTable
  import opened Gate

  const MAX_RETRIES: nat := 3
  const CAPACITY: nat := 512

  datatype Image = Image(filename: string, url: string)

  /** Seconds before the `attempt`-th retry: 5 << (attempt - 1). */
  function RetryBackoff(attempt: nat): (seconds: nat)
    requires attempt >= 1
    ensures attempt <= MAX_RETRIES ==> seconds == [5, 10, 20][attempt - 1]
  {
    if attempt == 1 then 5 else 2 * RetryBackoff(attempt - 1)
  }

  /** Queue, and the reserve-and-push loop it shares with retryScheduler, whose list goes
      round in a `loop`. Each constructor names the action taken next. */
  datatype Producer =
    | QIsPaused(imgs: seq<Image>)
    | QSetQueued(imgs: seq<Image>)
    | QReserve(imgs: seq<Image>, loop: bool)
    | QPush(img: Image, rest: seq<Image>, loop: bool)
    | QUnreserve(img: Image, rest: seq<Image>, loop: bool)
    | SGate
    | SWait(gate: nat)
    | SListFresh
    | SListReady(found: seq<Image>)

  /** A worker of Run, through processImage and handleFailure. */
  datatype Worker =
    | WGate
    | WWait(gate: nat)
    | WReceive
    | WUnreserve(img: Image)
    | WIsPaused(img: Image)
    | WSetPaused(img: Image)
    | WRegate(img: Image)
    | WRewait(img: Image, gate: nat)
    | WSetCancelled(img: Image)
    | WSetUploading(img: Image)
    | WContext(img: Image)
    | WSetAborted(img: Image)
    | WLookup(img: Image)
    | WTransfer(img: Image, retries: nat)
    | WHandleFailure(img: Image, retries: nat)
    | WSetRetry(img: Image, attempt: nat, at: int)
    | WSetFailed(img: Image)
    | WSetDone(img: Image)

  /** ClearQueue, and the discovery loop's store.Add. */
  datatype Other =
    | CReset
    | CReceive
    | CUnreserve(img: Image)
    | CSetDiscovered(img: Image)
    | AFind(sighting: Sighting)
    | AWrite(decision: Decision)

  datatype Pc = Pushing(q: Producer) | Working(w: Worker) | Doing(o: Other) | Returned

  datatype State = State(
    table: Table, pushCh: seq<Image>, inChannel: set<string>, gates: Gates,
    cancelled: bool, now: int, lastFailure: int, procs: map<nat, Pc>)

  datatype Action =
    | Spawn(p: nat, pc: Pc)
    | Advance(p: nat)
    | Fail(p: nat)
    | Succeed(p: nat)
    | Stop(p: nat)
    | Execute(change: Change)
    | PauseAll
    | ResumeAll
    | Cancel
    | Tick(seconds: nat)

  function Sql(s: State, c: Change): State {
    s.(table := s.table.(rows := Apply(s.table.rows, c)))
  }

  function Go(s: State, p: nat, pc: Pc): State {
    s.(procs := s.procs[p := pc])
  }

  function ImagesOf(rows: seq<Row>, ready: bool, now: int): seq<Image> {
    if rows == [] then []
    else
      (if (if ready then IsReady(rows[0], now) else IsFresh(rows[0]))
       then [Image(rows[0].filename, rows[0].url)] else [])
      + ImagesOf(rows[1..], ready, now)
  }

  /** The retry count processImage reads; it looks the row up by file name. */
  function RetriesOf(rows: seq<Row>, filename: string): nat {
    match Lookup(rows, Filename(filename))
    case Some(r) => r.retryCount
    case None => 0
  }

  /** An insert takes the key that is next when it is made. */
  function Numbered(t: Table, d: Decision): Decision {
    if d.Insert? then Insert(d.row.(id := t.nextId)) else d
  }

  predicate IsClosed(s: State, gate: nat) {
    gate < |s.gates.closed| && s.gates.closed[gate]
  }

  predicate CanAdvance(s: State, pc: Pc) {
    match pc
    case Pushing(SWait(g)) => IsClosed(s, g)
    case Working(WWait(g)) => IsClosed(s, g)
    case Working(WRewait(_, g)) => IsClosed(s, g)
    case Working(WReceive) => s.pushCh != []
    case Working(WTransfer(_, _)) => false
    case Returned => false
    case _ => true
  }

  function Produce(s: State, p: nat, q: Producer): (t: State)
    ensures |t.table.rows| == |s.table.rows|
  {
    match q
    case QIsPaused(imgs) => Go(s, p, Pushing(if s.gates.paused then QSetQueued(imgs) else QReserve(imgs, false)))
    case QSetQueued(imgs) =>
      if imgs == [] then Go(s, p, Returned)
      else Go(Sql(s, SetStatus(imgs[0].url, Queued, "")), p, Pushing(QSetQueued(imgs[1..])))
    case QReserve(imgs, loop) =>
      if imgs == [] then Go(s, p, if loop then Pushing(SGate) else Returned)
      else if imgs[0].url in s.inChannel then Go(s, p, Pushing(QReserve(imgs[1..], loop)))
      else Go(s.(inChannel := s.inChannel + {imgs[0].url}), p, Pushing(QPush(imgs[0], imgs[1..], loop)))
    case QPush(img, rest, loop) =>
      if |s.pushCh| < CAPACITY then Go(s.(pushCh := s.pushCh + [img]), p, Pushing(QReserve(rest, loop)))
      else Go(s, p, Pushing(QUnreserve(img, rest, loop)))
    case QUnreserve(img, rest, loop) => Go(s.(inChannel := s.inChannel - {img.url}), p, Pushing(QReserve(rest, loop)))
    case SGate => Go(s, p, Pushing(SWait(s.gates.current)))
    case SWait(_) => Go(s, p, Pushing(SListFresh))
    case SListFresh => Go(s, p, Pushing(SListReady(ImagesOf(s.table.rows, false, s.now))))
    case SListReady(found) => Go(s, p, Pushing(QReserve(found + ImagesOf(s.table.rows, true, s.now), true)))
  }

  function Work(s: State, p: nat, w: Worker): (t: State)
    requires CanAdvance(s, Working(w))
    ensures |t.table.rows| == |s.table.rows|
  {
    match w
    case WGate => Go(s, p, Working(WWait(s.gates.current)))
    case WWait(_) => Go(s, p, Working(WReceive))
    case WReceive => Go(s.(pushCh := s.pushCh[1..]), p, Working(WUnreserve(s.pushCh[0])))
    case WUnreserve(img) => Go(s.(inChannel := s.inChannel - {img.url}), p, Working(WIsPaused(img)))
    case WIsPaused(img) => Go(s, p, Working(if s.gates.paused then WSetPaused(img) else WRegate(img)))
    case WSetPaused(img) => Go(Sql(s, SetStatus(img.url, Queued, "paused")), p, Working(WGate))
    case WRegate(img) => Go(s, p, Working(WRewait(img, s.gates.current)))
    case WRewait(img, _) => Go(s, p, Working(WSetUploading(img)))
    case WSetCancelled(img) => Go(Sql(s, SetStatus(img.url, Queued, "context cancelled")), p, Returned)
    case WSetUploading(img) => Go(Sql(s, SetStatus(img.url, Uploading, "")), p, Working(WContext(img)))
    case WContext(img) => Go(s, p, Working(if s.cancelled then WSetAborted(img) else WLookup(img)))
    case WSetAborted(img) => Go(Sql(s, SetStatus(img.url, Queued, "context cancelled")), p, Working(WGate))
    case WLookup(img) => Go(s, p, Working(WTransfer(img, RetriesOf(s.table.rows, img.filename))))
    case WHandleFailure(img, retries) =>
      if retries < MAX_RETRIES then
        Go(s.(lastFailure := s.now), p, Working(WSetRetry(img, retries + 1, s.now + RetryBackoff(retries + 1))))
      else Go(s, p, Working(WSetFailed(img)))
    case WSetRetry(img, attempt, at) =>
      Go(Sql(s, SetRetryQueued(img.url, attempt, at, "transfer failed")), p, Working(WGate))
    case WSetFailed(img) => Go(Sql(s, SetStatus(img.url, Failed, "transfer failed")), p, Working(WGate))
    case WSetDone(img) => Go(Sql(s, SetStatus(img.url, Done, "")), p, Working(WGate))
  }

  ghost function Do(s: State, p: nat, o: Other): State {
    match o
    case CReset => Go(Sql(s, ResetQueued), p, Doing(CReceive))
    case CReceive =>
      if s.pushCh == [] then Go(s, p, Returned)
      else Go(s.(pushCh := s.pushCh[1..]), p, Doing(CUnreserve(s.pushCh[0])))
    case CUnreserve(img) => Go(s.(inChannel := s.inChannel - {img.url}), p, Doing(CSetDiscovered(img)))
    case CSetDiscovered(img) => Go(Sql(s, SetStatus(img.url, Discovered, "")), p, Doing(CReceive))
    case AFind(sighting) => Go(s, p, Doing(AWrite(Decide(s.table, sighting))))
    case AWrite(d) => Go(s.(table := Write(s.table, Numbered(s.table, d))), p, Returned)
  }

  /** The next action of process `p`, which stands at `pc`. */
  ghost function Advanced(s: State, p: nat, pc: Pc): State
    requires CanAdvance(s, pc)
  {
    match pc
    case Pushing(q) => Produce(s, p, q)
    case Working(w) => Work(s, p, w)
    case Doing(o) => Do(s, p, o)
  }

  // ---- A step moves one process ----

  lemma ProduceMovesOne(s: State, p: nat, q: Producer)
    ensures var t := Produce(s, p, q);
            p in t.procs && t.procs == s.procs[p := t.procs[p]]
  {
    hide Apply, ImagesOf;
  }

  lemma WorkMovesOne(s: State, p: nat, w: Worker)
    requires CanAdvance(s, Working(w))
    ensures var t := Work(s, p, w);
            p in t.procs && t.procs == s.procs[p := t.procs[p]]
  {
    hide Apply, RetriesOf, RetryBackoff;
  }

  lemma DoMovesOne(s: State, p: nat, o: Other)
    ensures var t := Do(s, p, o);
            p in t.procs && t.procs == s.procs[p := t.procs[p]]
  {
    hide Apply, Decide, Write;
  }

  // ---- Steps ----

  /** Where a new call starts. */
  predicate IsEntry(pc: Pc) {
    match pc
    case Pushing(q) => q.QIsPaused? || q.SGate?
    case Working(w) => w.WGate?
    case Doing(o) => o.CReset? || o.AFind?
    case Returned => false
  }

  /** The statements of the web handlers. */
  predicate FromWeb(c: Change) {
    c.MarkQueued? || c.MarkQueuedWithMeta? || c.MarkAllDiscoveredQueued? || c.ResetFailed?
  }

  predicate InTransfer(s: State, p: nat) {
    p in s.procs && s.procs[p].Working? && s.procs[p].w.WTransfer?
  }

  /** Where a process waits in a select that a cancelled context ends. */
  predicate Stops(pc: Pc) {
    match pc
    case Pushing(q) => q.SGate? || q.SWait?
    case Working(w) => w.WWait? || w.WReceive? || w.WRewait?
    case _ => false
  }

  predicate Enabled(s: State, a: Action) {
    match a
    case Spawn(p, pc) => IsEntry(pc) && (p in s.procs ==> s.procs[p] == Returned)
    case Advance(p) => p in s.procs && CanAdvance(s, s.procs[p])
    case Fail(p) => InTransfer(s, p)
    case Succeed(p) => InTransfer(s, p)
    case Stop(p) => s.cancelled && p in s.procs && Stops(s.procs[p])
    case Execute(c) => FromWeb(c)
    case ResumeAll => s.gates.current < |s.gates.closed|
    case _ => true
  }

  function Stopped(pc: Pc): Pc {
    if pc.Working? && pc.w.WRewait? then Working(WSetCancelled(pc.w.img)) else Returned
  }

  ghost function Next(s: State, a: Action): State
    requires Enabled(s, a)
  {
    match a
    case Spawn(p, pc) => Go(s, p, pc)
    case Advance(p) => Advanced(s, p, s.procs[p])
    case Fail(p) => Go(s, p, Working(WHandleFailure(s.procs[p].w.img, s.procs[p].w.retries)))
    case Succeed(p) => Go(s, p, Working(WSetDone(s.procs[p].w.img)))
    case Stop(p) => Go(s, p, Stopped(s.procs[p]))
    case Execute(c) => Sql(s, c)
    case PauseAll => s.(gates := Paused(s.gates))
    case ResumeAll => s.(gates := Resumed(s.gates))
    case Cancel => s.(cancelled := true)
    case Tick(n) => s.(now := s.now + n)
  }

  ghost predicate IsRun(s: State, actions: seq<Action>)
    decreases |actions|
  {
    actions == [] || (Enabled(s, actions[0]) && IsRun(Next(s, actions[0]), actions[1..]))
  }

  ghost function After(s: State, actions: seq<Action>): State
    requires IsRun(s, actions)
    decreases |actions|
  {
    if actions == [] then s else After(Next(s, actions[0]), actions[1..])
  }

  /** The actions can be taken one after another from `s` and lead to `t`. */
  ghost predicate Leads(s: State, actions: seq<Action>, t: State) {
    IsRun(s, actions) && After(s, actions) == t
  }

  lemma NoSteps(s: State)
    ensures Leads(s, [], s)
  {
  }

  lemma OneStep(s: State, a: Action, actions: seq<Action>, t: State)
    requires Enabled(s, a) && Leads(Next(s, a), actions, t)
    ensures Leads(s, [a] + actions, t)
  {
    hide Enabled, Next;
    assert ([a] + actions)[1..] == actions;
  }

  lemma {:induction false} Concatenated(s: State, xs: seq<Action>, t: State, ys: seq<Action>, u: State)
    requires Leads(s, xs, t) && Leads(t, ys, u)
    ensures Leads(s, xs + ys, u)
    decreases |xs|
  {
    hide Enabled, Next;
    if xs == [] {
      assert xs + ys == ys;
    } else {
      assert (xs + ys)[1..] == xs[1..] + ys;
      Concatenated(Next(s, xs[0]), xs[1..], t, ys, u);
    }
  }

  /** A pipeline as NewManual makes it over a table with no row uploading. */
  ghost predicate IsInitial(s: State) {
    && TableInv(s.table)
    && (forall i :: 0 <= i < |s.table.rows| ==>
          var r := s.table.rows[i];
          r.status != Uploading && r.retryCount <= MAX_RETRIES
          && (r.nextRetryAt.Some? ==> r.nextRetryAt.value <= s.lastFailure + 20))
    && s.pushCh == [] && s.inChannel == {} && s.gates == OPENED
    && s.lastFailure <= s.now && s.procs == map[]
  }
}
